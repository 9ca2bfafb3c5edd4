/** Any number of executors and recovery workers interleaving on one database: a labelled transition
    system whose steps are the workers' committed transactions. A worker may stop between any two. */
module Protocol {
  import opened Domain
  import opened Tables
  import E = Executor
  import R = Recovery
  import S = Scheduler

  datatype Sys = Sys(db: Db, execs: map<WorkerId, E.Worker>, recs: map<WorkerId, R.Phase>)

  /** `leases`: an executor's finishing transaction commits no later than its lease, or never.
      `depsExist`: the dependencies of a job have rows when the job is created. */
  datatype Mode = Mode(leases: bool, depsExist: bool)

  /** The clock, the API routes, the scheduler, and jobs created with dependencies by other means. */
  datatype EnvStep =
    | Advance(to: Time)
    | CreateSub(sub: SubId, policy: RetryPolicy, configOk: bool, cron: Time -> Time)
    | ResumeSub(sub: SubId)
    | CancelSub(sub: SubId)
    | AddJob(job: JobId, run: RunId, row: JobRow)
    | Schedule(sub: SubId, cutoff: Time, job: JobId, run: RunId, epoch: nat)

  datatype ExecStep =
    | Fetch(ids: seq<RunId>)
    | ClaimNext
    | Load
    | CheckDag
    | LookUp
    | Call(reply: E.Reply, u: real)
    | Persist
    | DagCancel
    | Retry(run: RunId)
    | Bury
    | Abandon(keep: seq<RunId>)

  datatype RecStep =
    | Scan(ids: seq<RunId>, asOf: Time)
    | Reap
    | Resolve(run: RunId)
    | OrphanScan(jobs: seq<JobId>)
    | OrphanEval
    | GiveUp

  datatype Label = Env(e: EnvStep) | Exec(w: WorkerId, x: ExecStep) | Rec(w: WorkerId, y: RecStep)

  ghost predicate Init(s: Sys) {
    && s.db.runs == map[] && s.db.byAttempt == map[] && s.db.jobs == map[] && s.db.byWindow == map[]
    && s.db.subs == map[] && s.db.keys == map[] && s.db.dlq == [] && s.db.bank == map[]
    && s.db.h == History(map[], {}, {}, map[], {}, {}, [])
    && (forall w :: w in s.execs ==> s.execs[w] == E.Worker([], E.Idle))
    && (forall w :: w in s.recs ==> s.recs[w] == R.Idle)
  }

  ghost predicate EnvEnabled(m: Mode, db: Db, e: EnvStep) {
    match e
    case Advance(to) => db.now <= to
    case CreateSub(sub, policy, _, _) => sub !in db.subs && policy.Valid()
    case ResumeSub(_) => true
    case CancelSub(_) => true
    case AddJob(job, run, row) =>
      && job !in db.jobs && run !in db.runs && row.sub in db.subs && row.status in {Waiting, Blocked, Ready}
      && (m.depsExist ==> forall d :: d in row.deps ==> d in db.jobs)
    case Schedule(sub, cutoff, job, run, _) =>
      S.IsDue(db, sub, cutoff) && cutoff <= db.now + db.cfg.lookahead && job !in db.jobs && run !in db.runs
  }

  predicate Finishes(x: ExecStep) { x.Persist? || x.DagCancel? || x.Retry? || x.Bury? }

  ghost predicate ExecEnabled(m: Mode, db: Db, w: E.Worker, x: ExecStep) {
    && (match x
        case Fetch(ids) =>
          w.batch == [] && w.phase.Idle? && |ids| <= db.cfg.batchSize && forall i :: 0 <= i < |ids| ==> E.Due(db, ids[i])
        case ClaimNext => w.phase.Idle? && w.batch != []
        case Load => w.phase.Busy? && w.phase.stage.Claimed?
        case CheckDag => w.phase.Busy? && w.phase.stage.NeedDag?
        case LookUp => w.phase.Busy? && w.phase.stage.NeedKey?
        case Call(reply, u) =>
          w.phase.Busy? && w.phase.stage.Calling? && 0.0 <= u < 1.0 && E.Answers(db, w.phase.ticket, reply)
        case Persist => w.phase.Busy? && w.phase.stage.Persisting?
        case DagCancel => w.phase.Busy? && w.phase.stage.Cancelling?
        case Retry(run) => w.phase.Busy? && w.phase.stage.Retrying? && run !in db.runs
        case Bury => w.phase.Busy? && w.phase.stage.Burying?
        case Abandon(keep) => forall i :: 0 <= i < |keep| ==> keep[i] in w.batch)
    && (m.leases && Finishes(x) ==> db.now <= w.phase.ticket.lease)
  }

  ghost predicate RecEnabled(db: Db, p: R.Phase, y: RecStep) {
    match y
    case Scan(ids, asOf) => p.Idle? && asOf <= db.now && forall i :: 0 <= i < |ids| ==> R.Stuck(db, ids[i], asOf)
    case Reap => p.Reaping? && p.ids != []
    case Resolve(run) => p.Holding? && run !in db.runs
    case OrphanScan(jobs) => (p.Idle? || p.Reaping?) && forall i :: 0 <= i < |jobs| ==> R.MaybeOrphan(db, jobs[i])
    case OrphanEval => p.Judging? && p.jobs != []
    case GiveUp => true
  }

  ghost predicate Enabled(m: Mode, s: Sys, l: Label) {
    match l
    case Env(e) => EnvEnabled(m, s.db, e)
    case Exec(w, x) => w in s.execs && ExecEnabled(m, s.db, s.execs[w], x)
    case Rec(w, y) => w in s.recs && RecEnabled(s.db, s.recs[w], y)
  }

  function EnvApply(db: Db, e: EnvStep): Db
    requires e.Schedule? ==> e.sub in db.subs
  {
    match e
    case Advance(to) => db.(now := to)
    case CreateSub(sub, policy, configOk, cron) => S.CreateSub(db, sub, policy, configOk, cron)
    case ResumeSub(sub) => S.ResumeSub(db, sub)
    case CancelSub(sub) => S.CancelSub(db, sub)
    case AddJob(job, run, row) => S.InsertJob(db, job, run, row)
    case Schedule(sub, _, job, run, epoch) => S.CreateJob(db, sub, job, run, epoch)
  }

  ghost function ExecApply(m: Mode, db: Db, me: WorkerId, w: E.Worker, x: ExecStep): E.After
    requires ExecEnabled(m, db, w, x)
  {
    match x
    case Fetch(ids) => E.After(db, E.Worker(ids, E.Idle))
    case ClaimNext => E.ClaimNext(db, me, w)
    case Load => E.After(db, E.LoadSnapshot(db, w))
    case CheckDag => E.After(db, E.CheckDependencies(db, w))
    case LookUp => E.After(db, E.LookUpKey(db, w))
    case Call(reply, u) => E.ReceiveReply(db, w, reply, u)
    case Persist => E.PersistSuccess(db, w)
    case DagCancel => E.MarkDagCancelled(db, w)
    case Retry(run) => E.ScheduleRetry(db, w, run)
    case Bury => E.BuryRun(db, w)
    case Abandon(keep) => E.After(db, E.Worker(keep, E.Idle))
  }

  ghost function RecApply(db: Db, me: WorkerId, p: R.Phase, y: RecStep): R.After
    requires RecEnabled(db, p, y)
  {
    match y
    case Scan(ids, asOf) => R.After(db, R.Reaping(ids, asOf))
    case Reap => R.ReapNext(db, me, p)
    case Resolve(run) => R.FollowUp(db, p, run)
    case OrphanScan(jobs) => R.After(db, R.Judging(jobs))
    case OrphanEval => R.JudgeNext(db, p)
    case GiveUp => R.GiveUp(db, p)
  }

  ghost function Apply(m: Mode, s: Sys, l: Label): Sys
    requires Enabled(m, s, l)
  {
    match l
    case Env(e) => s.(db := EnvApply(s.db, e))
    case Exec(w, x) =>
      var a := ExecApply(m, s.db, w, s.execs[w], x);
      s.(db := a.db, execs := s.execs[w := a.w])
    case Rec(w, y) =>
      var a := RecApply(s.db, w, s.recs[w], y);
      s.(db := a.db, recs := s.recs[w := a.phase])
  }

  /** A finite run from an initial state: `ss` are the states, `ls` the steps between them. */
  ghost predicate Trace(m: Mode, ss: seq<Sys>, ls: seq<Label>) {
    && |ss| == |ls| + 1
    && Init(ss[0])
    && forall i :: 0 <= i < |ls| ==> Enabled(m, ss[i], ls[i]) && ss[i + 1] == Apply(m, ss[i], ls[i])
  }
}
