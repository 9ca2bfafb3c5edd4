/** One outcome per job, when no executor outlives its lease and dependencies exist when a job is created. */
module JobOutcome {
  import opened Domain
  import opened Tables
  import opened Protocol
  import opened Frames
  import opened Safety
  import opened Payments
  import opened Leases
  import opened Outcome
  import opened Refinement
  import opened Dag
  import E = Executor
  import R = Recovery

  ghost predicate HasDead(db: Db, j: JobId) {
    exists r :: r in db.runs && db.runs[r].job == j && db.runs[r].status == Dead
  }

  ghost predicate StoppedJob(db: Db, j: JobId) {
    exists r :: LastRun(db, j, r) && RungOf(db, r).Stops?
  }

  /** Why a job may be CANCELLED: a dependency is dead, or its own last run was stopped. */
  ghost predicate Hopeless(db: Db, j: JobId) {
    j in db.jobs && ((exists d :: d in db.jobs[j].deps && HasDead(db, d)) || StoppedJob(db, j))
  }

  ghost predicate JobsOk(db: Db) {
    && (forall r :: r in db.runs && db.runs[r].status == Succeeded ==>
          db.runs[r].job in db.jobs && db.jobs[db.runs[r].job].status == Done)
    && (forall j :: j in db.jobs && db.jobs[j].status == Dropped ==> Hopeless(db, j))
  }

  lemma ClosedIsTop(db: Db, r: RunId)
    requires Tidy(db) && r in db.runs && db.runs[r].status != Failed
    ensures IsTop(db, r)
  {
    hide PaidRows, DeadRows, RecoveringRows;
  }

  /** A job with a stored key has no DEAD run. */
  lemma NotPaidAndDead(db: Db, j: JobId)
    requires Sound(db) && Tidy(db)
    ensures !(HasKey(db, j) && HasDead(db, j))
  {
    hide Sound, EarlierFailed, DeadRows, RecoveringRows;
    if HasKey(db, j) && HasDead(db, j) {
      var r :| r in db.runs && db.runs[r].job == j && ForRun(r, db.runs[r].attempt) in db.keys;
      var q :| q in db.runs && db.runs[q].job == j && db.runs[q].status == Dead;
      assert db.runs[r].status == Succeeded;
      hide Tidy;
      ClosedIsTop(db, r);
      ClosedIsTop(db, q);
      OneTop(db, r, q);
    }
  }

  /** A job whose bank call was made, or may be made, can no longer become hopeless inside a lease. */
  lemma CalledNotHopeless(db: Db, j: JobId, r: RunId)
    requires Sound(db) && Tidy(db) && Cleared(db, j) && LastRun(db, j, r) && !RungOf(db, r).Stops?
    ensures !Hopeless(db, j)
  {
    hide Sound, Tidy, HasKey, HasDead, RungOf;
    if exists d :: d in db.jobs[j].deps && HasDead(db, d) {
      var d :| d in db.jobs[j].deps && HasDead(db, d);
      NotPaidAndDead(db, d);
    } else if StoppedJob(db, j) {
      var q :| LastRun(db, j, q) && RungOf(db, q).Stops?;
      OneTop(db, q, r);
    }
  }

  lemma HopelessStays(m: Mode, s: Sys, l: Label, j: JobId)
    requires m.leases && Leased(s) && Enabled(m, s, l) && Hopeless(s.db, j)
    requires Grows(s.db, Apply(m, s, l).db)
    ensures Hopeless(Apply(m, s, l).db, j)
  {
    hide Apply, Enabled, Sound, Tidy, Booked, Moves, Rests, RungOf, Tracked, InLease, ExecOk, RecOk, ExecBooked, Grows;
    var db, db' := s.db, Apply(m, s, l).db;
    JobsStay(db, db', j);
    if StoppedJob(db, j) {
      var r :| LastRun(db, j, r) && RungOf(db, r).Stops?;
      FinalStays(m, s, l, j, r);
    } else {
      var d :| d in db.jobs[j].deps && HasDead(db, d);
      var r :| r in db.runs && db.runs[r].job == d && db.runs[r].status == Dead;
      DeadIsLast(db, d, r);
      FinalStays(m, s, l, d, r);
      StillDead(db', d, r);
    }
  }

  lemma JobsStay(db: Db, db': Db, j: JobId)
    requires Grows(db, db') && j in db.jobs
    ensures j in db'.jobs && db'.jobs[j].deps == db.jobs[j].deps
  {
  }

  lemma DeadIsLast(db: Db, d: JobId, r: RunId)
    requires Tidy(db) && r in db.runs && db.runs[r].job == d && db.runs[r].status == Dead
    ensures LastRun(db, d, r) && RungOf(db, r).Dies?
  {
    hide Tidy;
    ClosedIsTop(db, r);
  }

  lemma StillDead(db: Db, d: JobId, r: RunId)
    requires LastRun(db, d, r) && RungOf(db, r).Dies?
    ensures HasDead(db, d)
  {
  }

  lemma FinalStays(m: Mode, s: Sys, l: Label, j: JobId, r: RunId)
    requires m.leases && Leased(s) && Enabled(m, s, l) && LastRun(s.db, j, r) && Final(RungOf(s.db, r))
    requires Grows(s.db, Apply(m, s, l).db)
    ensures LastRun(Apply(m, s, l).db, j, r) && RungOf(Apply(m, s, l).db, r) == RungOf(s.db, r)
  {
    hide Apply, Enabled, Sound, Tidy, Booked, Moves, Tracked, InLease, ExecOk, RecOk, ExecBooked;
    MaxAttempts(s.db, r);
    var max := s.db.subs[s.db.jobs[s.db.runs[r].job].sub].policy.maxAttempts;
    StepMoves(m, s, l, r, max);
    FinalRests(s.db, Apply(m, s, l).db, j, r, max);
  }

  // ---------- who writes a job's status ----------

  predicate StatusKept(db: Db, db': Db, j: JobId) {
    j in db.jobs ==> j in db'.jobs && db'.jobs[j].status == db.jobs[j].status
  }

  lemma ExecWritesJob(m: Mode, db: Db, me: WorkerId, w: E.Worker, x: ExecStep, j: JobId)
    requires ExecEnabled(m, db, w, x) && j in db.jobs
    ensures var db' := ExecApply(m, db, me, w, x).db;
      || StatusKept(db, db', j)
      || (w.phase.Busy? && w.phase.ticket.job == j && j in db'.jobs
          && ((x.Persist? && db'.jobs[j].status == Done) || (x.DagCancel? && db'.jobs[j].status == Dropped)))
  {
    hide E.ClaimNext, E.ReceiveReply, E.PersistSuccess, E.ScheduleRetry, E.MarkDagCancelled, E.BuryRun, E.Answers;
    match x
    case Persist => PersistJobs(db, w);
    case DagCancel => DagJobs(db, w);
    case _ => ExecFrames(m, db, me, w, x);
  }

  lemma RecWritesJob(db: Db, me: WorkerId, p: R.Phase, y: RecStep, j: JobId)
    requires RecEnabled(db, p, y) && j in db.jobs
    ensures var db' := RecApply(db, me, p, y).db;
      || StatusKept(db, db', j)
      || (y.OrphanEval? && R.Judge(db, db.jobs[j].deps).Orphaned? && j in db'.jobs && db'.jobs[j].status == Dropped)
  {
    hide DeadRuns, R.FailPending, R.Judge, R.FollowUp;
    if y.Resolve? {
      FollowUpFrame(db, p, y.run);
    }
  }

  lemma EnvKeepsStatus(m: Mode, db: Db, e: EnvStep, j: JobId)
    requires EnvEnabled(m, db, e)
    ensures StatusKept(db, EnvApply(db, e), j)
  {
  }

  lemma {:induction false} OrphanHasDeadDep(db: Db, deps: seq<JobId>)
    requires R.Judge(db, deps).Orphaned?
    ensures exists d :: d in deps && HasDead(db, d)
  {
    if deps[0] !in db.jobs || DeadRuns(db, deps[0]) == {} {
      OrphanHasDeadDep(db, deps[1..]);
    } else {
      var r := SomeElement(DeadRuns(db, deps[0]));
      assert HasDead(db, deps[0]) && deps[0] in deps;
    }
  }

  // ---------- settled jobs stay settled ----------

  /** Everything the theorem rests on. */
  ghost predicate Whole(s: Sys) { Leased(s) && DagInv(s) && JobsOk(s.db) }

  lemma PersistNotHopeless(m: Mode, db: Db, me: WorkerId, w: E.Worker)
    requires m.leases && Sound(db) && Tidy(db) && Booked(db) && DagOk(db)
    requires ExecOk(db, me, w) && ExecBooked(db, w) && InLease(db, w) && ExecEnabled(m, db, w, Persist)
    ensures !Hopeless(db, w.phase.ticket.job)
  {
    hide Sound, Tidy, Hopeless, HasKey, InLease;
    var t := w.phase.ticket;
    FreshInLease(db, me, w);
    assert t.run in db.h.called;
    CalledNotHopeless(db, t.job, t.run);
  }

  lemma DoneNotOrphaned(db: Db, j: JobId)
    requires Sound(db) && Tidy(db) && Booked(db) && DagOk(db) && j in db.jobs && db.jobs[j].status == Done
    ensures !R.Judge(db, db.jobs[j].deps).Orphaned?
  {
    hide Sound, Tidy, Booked, HasKey, HasDead, R.Judge;
    if R.Judge(db, db.jobs[j].deps).Orphaned? {
      OrphanHasDeadDep(db, db.jobs[j].deps);
      var d :| d in db.jobs[j].deps && HasDead(db, d);
      KeyedIsCleared(db, j);
      NotPaidAndDead(db, d);
    }
  }

  /** The run of a DONE job is SUCCEEDED, so no executor inside its lease still holds one. */
  lemma DoneNotHeld(db: Db, t: E.Ticket, j: JobId)
    requires Sound(db) && Tidy(db) && Fresh(db, t) && t.job == j
    ensures !HasKey(db, j)
  {
    hide Sound, EarlierFailed, DeadRows, RecoveringRows;
    if HasKey(db, j) {
      var r :| r in db.runs && db.runs[r].job == j && ForRun(r, db.runs[r].attempt) in db.keys;
      assert db.runs[r].status == Succeeded;
      hide Tidy, PaidRows;
      ClosedIsTop(db, r);
      OneTop(db, r, t.run);
    }
  }

  /** DONE and CANCELLED are never overwritten. */
  lemma SettledStays(m: Mode, s: Sys, l: Label, j: JobId)
    requires m.leases && Whole(s) && Enabled(m, s, l) && j in s.db.jobs
    requires s.db.jobs[j].status == Done || s.db.jobs[j].status == Dropped
    ensures StatusKept(s.db, Apply(m, s, l).db, j)
  {
    hide Sound, Tidy, Booked, Hopeless, HasKey, HasDead, InLease, ExecBooked, ExecCleared, Tracked, RecOk, TicketOk;
    hide EnvApply, ExecApply, RecApply, EnvEnabled, RecEnabled, R.Judge;
    var db := s.db;
    match l
    case Env(e) => EnvKeepsStatus(m, db, e, j);
    case Rec(w, y) =>
      RecWritesJob(db, w, s.recs[w], y, j);
      if db.jobs[j].status == Done {
        DoneNotOrphaned(db, j);
      }
    case Exec(w, x) =>
      ExecWritesJob(m, db, w, s.execs[w], x, j);
      if x.Persist? {
        PersistNotHopeless(m, db, w, s.execs[w]);
      } else if x.DagCancel? {
        FreshInLease(db, w, s.execs[w]);
        DoneNotHeld(db, s.execs[w].phase.ticket, s.execs[w].phase.ticket.job);
      }
  }

  // ---------- the invariant ----------

  predicate SucceededIn(db: Db, r: RunId) { r in db.runs && db.runs[r].status == Succeeded }

  lemma PersistSuccessOnly(db: Db, w: E.Worker, r: RunId)
    requires w.phase.Busy? && w.phase.stage.Persisting? && SucceededIn(E.PersistSuccess(db, w).db, r)
    ensures SucceededIn(db, r) || (w.phase.ticket.run == r && ForRun(r, w.phase.ticket.attempt) !in db.keys)
  {
  }

  lemma DlqSuccess(db: Db, q: RunId, job: JobId, attempt: Attempt, sub: SubId, keep: bool, r: RunId)
    requires SucceededIn(MoveToDlq(db, q, job, attempt, sub, keep), r)
    ensures SucceededIn(db, r)
  {
  }

  lemma InsertSuccess(db: Db, id: RunId, job: JobId, attempt: Attempt, after: Option<Time>, r: RunId)
    requires SucceededIn(InsertRun(db, id, job, attempt, after), r)
    ensures SucceededIn(db, r)
  {
  }

  lemma FinishSuccess(db: Db, q: RunId, status: RunStatus, r: RunId)
    requires SucceededIn(FinishRun(db, q, status), r) && status != Succeeded
    ensures SucceededIn(db, r)
  {
  }

  lemma ExecSuccess(m: Mode, db: Db, me: WorkerId, w: E.Worker, x: ExecStep, r: RunId)
    requires ExecEnabled(m, db, w, x) && SucceededIn(ExecApply(m, db, me, w, x).db, r)
    ensures SucceededIn(db, r) || (x.Persist? && w.phase.ticket.run == r && ForRun(r, w.phase.ticket.attempt) !in db.keys)
  {
    hide E.PersistSuccess, MoveToDlq, InsertRun, FinishRun;
    match x
    case Persist => PersistSuccessOnly(db, w, r);
    case DagCancel => FinishSuccess(db, w.phase.ticket.run, Failed, r);
    case Bury =>
      var t := w.phase.ticket;
      DlqSuccess(db, t.run, t.job, t.attempt, t.sub, true, r);
    case Retry(id) =>
      var t := w.phase.ticket;
      InsertSuccess(FinishRun(db, t.run, Failed), id, t.job, t.attempt + 1, Some(w.phase.stage.after), r);
      FinishSuccess(db, t.run, Failed, r);
    case _ =>
  }

  lemma OrphanSuccess(db: Db, j: JobId, r: RunId)
    requires SucceededIn(R.CancelOrphan(db, j), r)
    ensures SucceededIn(db, r)
  {
  }

  lemma FollowUpSuccess(db: Db, p: R.Phase, id: RunId, r: RunId)
    requires p.Holding? && SucceededIn(R.FollowUp(db, p, id).db, r)
    ensures SucceededIn(db, r)
  {
    hide MoveToDlq, InsertRun;
    var s := p.stub;
    var db1 := db.(h := db.h.(resolved := db.h.resolved + {s.run}));
    if s.sub.Some? {
      if s.policy.IsExhausted(s.attempt) {
        DlqSuccess(db1, s.run, s.job, s.attempt, s.sub.value, false, r);
      } else {
        InsertSuccess(db1, id, s.job, s.attempt + 1, None, r);
      }
    }
  }

  lemma RecSuccess(db: Db, me: WorkerId, p: R.Phase, y: RecStep, r: RunId)
    requires RecEnabled(db, p, y) && SucceededIn(RecApply(db, me, p, y).db, r)
    ensures SucceededIn(db, r)
  {
    hide DeadRuns, R.Judge, R.CancelOrphan, R.FollowUp;
    match y
    case Resolve(run) => FollowUpSuccess(db, p, run, r);
    case OrphanEval =>
      if RecApply(db, me, p, y).db != db {
        OrphanSuccess(db, p.jobs[0], r);
      }
    case _ =>
  }

  lemma EnvSuccess(m: Mode, db: Db, e: EnvStep, r: RunId)
    requires EnvEnabled(m, db, e) && SucceededIn(EnvApply(db, e), r)
    ensures SucceededIn(db, r)
  {
  }

  lemma PersistMakesDone(db: Db, me: WorkerId, w: E.Worker)
    requires ExecOk(db, me, w) && ExecBooked(db, w) && w.phase.Busy? && w.phase.stage.Persisting?
    ensures var t, db' := w.phase.ticket, E.PersistSuccess(db, w).db;
      t.run in db'.runs && db'.runs[t.run].job == t.job && t.job in db'.jobs && db'.jobs[t.job].status == Done
  {
  }

  lemma DagCancelStops(m: Mode, db: Db, me: WorkerId, w: E.Worker)
    requires m.leases && Sound(db) && ExecOk(db, me, w) && ExecBooked(db, w) && InLease(db, w) && ExecEnabled(m, db, w, DagCancel)
    ensures Hopeless(E.MarkDagCancelled(db, w).db, w.phase.ticket.job)
  {
    hide Sound, InLease, HasDead;
    FreshInLease(db, me, w);
    var db' := E.MarkDagCancelled(db, w).db;
    assert LastRun(db', w.phase.ticket.job, w.phase.ticket.run);
  }

  lemma SuccessMeansDone(m: Mode, s: Sys, l: Label, r: RunId)
    requires m.leases && Whole(s) && Enabled(m, s, l) && SucceededIn(Apply(m, s, l).db, r)
    requires Grows(s.db, Apply(m, s, l).db)
    ensures var db' := Apply(m, s, l).db; db'.runs[r].job in db'.jobs && db'.jobs[db'.runs[r].job].status == Done
  {
    hide Sound, Tidy, Booked, Hopeless, HasKey, HasDead, InLease, ExecCleared, Tracked, RecOk, TicketOk;
    hide EnvApply, RecApply, EnvEnabled, RecEnabled;
    match l {
      case Env(e) => EnvSuccess(m, s.db, e, r);
      case Rec(w, y) => RecSuccess(s.db, w, s.recs[w], y, r);
      case Exec(w, x) =>
        ExecSuccess(m, s.db, w, s.execs[w], x, r);
        if x.Persist? {
          PersistMakesDone(s.db, w, s.execs[w]);
        }
    }
    if SucceededIn(s.db, r) {
      SettledStays(m, s, l, s.db.runs[r].job);
    }
  }

  lemma DroppedMeansHopeless(m: Mode, s: Sys, l: Label, j: JobId)
    requires m.leases && Whole(s) && Enabled(m, s, l)
    requires j in Apply(m, s, l).db.jobs && Apply(m, s, l).db.jobs[j].status == Dropped
    requires Grows(s.db, Apply(m, s, l).db)
    ensures Hopeless(Apply(m, s, l).db, j)
  {
    hide Sound, Tidy, Booked, HasKey, HasDead, InLease, ExecBooked, ExecCleared, Tracked, RecOk, ExecOk, Grows;
    hide Hopeless, EnvApply, ExecApply, RecApply, EnvEnabled, RecEnabled, R.Judge;
    if j in s.db.jobs && s.db.jobs[j].status == Dropped {
      HopelessStays(m, s, l, j);
    } else if j in s.db.jobs {
      match l {
        case Env(e) => EnvKeepsStatus(m, s.db, e, j);
        case Rec(w, y) =>
          RecWritesJob(s.db, w, s.recs[w], y, j);
          OrphanHasDeadDep(s.db, s.db.jobs[j].deps);
          DeadDepHopeless(s.db, j);
          HopelessStays(m, s, l, j);
        case Exec(w, x) =>
          ExecWritesJob(m, s.db, w, s.execs[w], x, j);
          DagCancelStops(m, s.db, w, s.execs[w]);
          DagCancelIs(m, s.db, w, s.execs[w]);
      }
    } else {
      NewJobNotDropped(m, s, l, j);
    }
  }

  lemma DagCancelIs(m: Mode, db: Db, me: WorkerId, w: E.Worker)
    requires ExecEnabled(m, db, w, DagCancel)
    ensures ExecApply(m, db, me, w, DagCancel) == E.MarkDagCancelled(db, w)
  {
  }

  lemma DeadDepHopeless(db: Db, j: JobId)
    requires j in db.jobs && exists d :: d in db.jobs[j].deps && HasDead(db, d)
    ensures Hopeless(db, j)
  {
  }

  lemma JudgeKeepsKeys(db: Db, p: R.Phase)
    requires p.Judging? && p.jobs != []
    ensures R.JudgeNext(db, p).db.jobs.Keys == db.jobs.Keys
  {
    hide R.Judge, R.FailPending;
  }

  lemma RecAddsNoJob(db: Db, me: WorkerId, p: R.Phase, y: RecStep)
    requires RecEnabled(db, p, y)
    ensures RecApply(db, me, p, y).db.jobs.Keys == db.jobs.Keys
  {
    RecFrames(db, me, p, y);
    hide RecApply;
    if y.OrphanEval? {
      JudgeKeepsKeys(db, p);
    }
  }

  lemma ExecAddsNoJob(m: Mode, db: Db, me: WorkerId, w: E.Worker, x: ExecStep)
    requires ExecEnabled(m, db, w, x)
    ensures ExecApply(m, db, me, w, x).db.jobs.Keys == db.jobs.Keys
  {
    hide E.ClaimNext, E.ReceiveReply, E.PersistSuccess, E.ScheduleRetry, E.MarkDagCancelled, E.BuryRun, E.Answers;
    match x
    case Persist => PersistJobs(db, w);
    case DagCancel => DagJobs(db, w);
    case _ => ExecFrames(m, db, me, w, x);
  }

  lemma EnvAddsOpenJob(m: Mode, db: Db, e: EnvStep, j: JobId)
    requires EnvEnabled(m, db, e) && j !in db.jobs && j in EnvApply(db, e).jobs
    ensures EnvApply(db, e).jobs[j].status in {Waiting, Blocked, Ready}
  {
  }

  lemma NewJobNotDropped(m: Mode, s: Sys, l: Label, j: JobId)
    requires Enabled(m, s, l) && j !in s.db.jobs && j in Apply(m, s, l).db.jobs
    ensures Apply(m, s, l).db.jobs[j].status != Dropped
  {
    hide EnvApply, ExecApply, RecApply, EnvEnabled, ExecEnabled, RecEnabled;
    match l
    case Env(e) => EnvAddsOpenJob(m, s.db, e, j);
    case Exec(w, x) => ExecAddsNoJob(m, s.db, w, s.execs[w], x);
    case Rec(w, y) => RecAddsNoJob(s.db, w, s.recs[w], y);
  }

  lemma WholeStep(m: Mode, s: Sys, l: Label)
    requires m.leases && m.depsExist && Whole(s) && Enabled(m, s, l)
    ensures Whole(Apply(m, s, l))
  {
    hide Inv, PayInv, LeaseInv, Tidy, DagInv, Apply, Enabled, Grows, Promises, Hopeless;
    var db' := Apply(m, s, l).db;
    Step(m, s, l);
    TidyStep(m, s, l);
    DagStep(m, s, l);
    forall r | r in db'.runs && db'.runs[r].status == Succeeded
      ensures db'.runs[r].job in db'.jobs && db'.jobs[db'.runs[r].job].status == Done
    {
      SuccessMeansDone(m, s, l, r);
    }
    forall j | j in db'.jobs && db'.jobs[j].status == Dropped ensures Hopeless(db', j) {
      DroppedMeansHopeless(m, s, l, j);
    }
  }

  lemma InitWhole(s: Sys)
    requires Init(s)
    ensures Whole(s)
  {
    hide Leased;
    InitLeased(s);
  }

  lemma {:induction false} WholeAlways(m: Mode, ss: seq<Sys>, ls: seq<Label>, i: nat)
    requires m.leases && m.depsExist && Trace(m, ss, ls) && i < |ss|
    ensures Whole(ss[i])
  {
    hide Apply, Enabled, Whole;
    if i == 0 {
      InitWhole(ss[0]);
    } else {
      WholeAlways(m, ss, ls, i - 1);
      WholeStep(m, ss[i - 1], ls[i - 1]);
    }
  }

  // ---------- the theorems ----------

  ghost function SucceededRuns(db: Db, j: JobId): set<RunId> {
    set r | r in db.runs && db.runs[r].job == j && db.runs[r].status == Succeeded
  }

  ghost function KeysOf(db: Db, j: JobId): set<IdempotencyKey> {
    set k | k in db.keys && k.run in db.runs && db.runs[k.run].job == j
  }

  /** A DONE job has exactly one SUCCEEDED run, which is its last attempt, exactly one stored key, and no
      DEAD run; any other job has neither a SUCCEEDED run nor a key. No job has two DEAD runs. */
  lemma OneOutcome(m: Mode, ss: seq<Sys>, ls: seq<Label>, i: nat, j: JobId)
    requires m.leases && m.depsExist && Trace(m, ss, ls) && i < |ss| && j in ss[i].db.jobs
    ensures var db := ss[i].db;
      && (db.jobs[j].status == Done ==>
            exists r :: LastRun(db, j, r) && SucceededRuns(db, j) == {r} && KeysOf(db, j) == {KeyOf(db, r)} && DeadRuns(db, j) == {})
      && (db.jobs[j].status != Done ==> SucceededRuns(db, j) == {} && KeysOf(db, j) == {})
      && |DeadRuns(db, j)| <= 1
  {
    hide Apply, Enabled;
    WholeAlways(m, ss, ls, i);
    OneOutcomeIn(ss[i].db, j);
  }

  lemma OneOutcomeIn(db: Db, j: JobId)
    requires Sound(db) && Tidy(db) && Booked(db) && DagOk(db) && JobsOk(db) && j in db.jobs
    ensures db.jobs[j].status == Done ==>
      exists r :: LastRun(db, j, r) && SucceededRuns(db, j) == {r} && KeysOf(db, j) == {KeyOf(db, r)} && DeadRuns(db, j) == {}
    ensures db.jobs[j].status != Done ==> SucceededRuns(db, j) == {} && KeysOf(db, j) == {}
    ensures |DeadRuns(db, j)| <= 1
  {
    hide Sound, Tidy, Hopeless, Cleared, CallsOk, CauseOk;
    KeysAreSuccesses(db, j);
    OneDeadRun(db, j);
    if db.jobs[j].status == Done {
      var r :| r in db.runs && db.runs[r].job == j && ForRun(r, db.runs[r].attempt) in db.keys;
      OnlySuccess(db, j, r);
    } else {
      if KeysOf(db, j) != {} {
        var k := SomeElement(KeysOf(db, j));
      }
      if SucceededRuns(db, j) != {} {
        var r := SomeElement(SucceededRuns(db, j));
      }
    }
  }

  lemma KeysAreSuccesses(db: Db, j: JobId)
    requires Tidy(db) && Booked(db)
    ensures forall k :: k in KeysOf(db, j) ==> k.run in SucceededRuns(db, j) && k == KeyOf(db, k.run)
  {
    hide EarlierFailed, DeadRows, RecoveringRows, CallsOk, CauseOk;
  }

  lemma OnlySuccess(db: Db, j: JobId, r: RunId)
    requires Sound(db) && Tidy(db) && Booked(db) && r in db.runs && db.runs[r].job == j && KeyOf(db, r) in db.keys
    ensures LastRun(db, j, r) && SucceededRuns(db, j) == {r} && KeysOf(db, j) == {KeyOf(db, r)} && DeadRuns(db, j) == {}
  {
    hide Sound, EarlierFailed, DeadRows, RecoveringRows, Booked;
    assert db.runs[r].status == Succeeded;
    hide PaidRows, Tidy;
    KeysAreSuccesses(db, j);
    forall q | q in db.runs && db.runs[q].job == j && db.runs[q].status in {Succeeded, Dead} ensures q == r {
      ClosedIsTop(db, q);
      ClosedIsTop(db, r);
      OneTop(db, q, r);
    }
    ClosedIsTop(db, r);
  }

  lemma OneDeadRun(db: Db, j: JobId)
    requires Sound(db) && Tidy(db)
    ensures |DeadRuns(db, j)| <= 1
  {
    hide Sound, Tidy;
    var dead := DeadRuns(db, j);
    if dead != {} {
      var r := SomeElement(dead);
      forall q | q in dead ensures q == r {
        ClosedIsTop(db, q);
        ClosedIsTop(db, r);
        OneTop(db, q, r);
      }
      assert dead == {r};
    }
  }

  /** DONE and CANCELLED are never overwritten, however long the run goes on. */
  lemma {:induction false} SettledForever(m: Mode, ss: seq<Sys>, ls: seq<Label>, i: nat, k: nat, j: JobId)
    requires m.leases && m.depsExist && Trace(m, ss, ls) && i <= k < |ss|
    requires j in ss[i].db.jobs && ss[i].db.jobs[j].status in {Done, Dropped}
    ensures j in ss[k].db.jobs && ss[k].db.jobs[j].status == ss[i].db.jobs[j].status
    decreases k - i
  {
    hide Apply, Enabled, Whole;
    if i < k {
      SettledForever(m, ss, ls, i, k - 1, j);
      WholeAlways(m, ss, ls, k - 1);
      SettledStays(m, ss[k - 1], ls[k - 1], j);
    }
  }

  /** Dead-letter entries and DEAD runs are in bijection, so the orphan scan never meets two rows. */
  lemma DeadLettersMatch(m: Mode, ss: seq<Sys>, ls: seq<Label>, i: nat, r: RunId)
    requires m.leases && Trace(m, ss, ls) && i < |ss| && r in ss[i].db.runs
    ensures var db := ss[i].db;
      && (db.runs[r].status == Dead <==> exists n :: 0 <= n < |db.dlq| && db.dlq[n].run == r)
      && (forall n, k :: 0 <= n < |db.dlq| && 0 <= k < |db.dlq| && db.dlq[n].run == db.dlq[k].run ==> n == k)
      && (forall deps :: !R.Judge(db, deps).Raised?)
  {
    hide Apply, Enabled;
    LeasedAlways(m, ss, ls, i);
    DeadLettersIn(ss[i].db, r);
    forall deps ensures !R.Judge(ss[i].db, deps).Raised? {
      NeverRaises(ss[i].db, deps);
    }
  }

  lemma DeadLettersIn(db: Db, r: RunId)
    requires Tidy(db) && r in db.runs
    ensures db.runs[r].status == Dead <==> exists n :: 0 <= n < |db.dlq| && db.dlq[n].run == r
    ensures forall n, k :: 0 <= n < |db.dlq| && 0 <= k < |db.dlq| && db.dlq[n].run == db.dlq[k].run ==> n == k
  {
    hide EarlierFailed, PaidRows, RecoveringRows;
  }

  lemma {:induction false} NeverRaises(db: Db, deps: seq<JobId>)
    requires Sound(db) && Tidy(db)
    ensures !R.Judge(db, deps).Raised?
  {
    hide Sound, Tidy, DeadRuns;
    if deps != [] {
      OneDeadRun(db, deps[0]);
      NeverRaises(db, deps[1..]);
      assert DeadRuns(db, deps[0]) != {} ==> |DeadRuns(db, deps[0])| == 1;
    }
  }

  lemma DoneIsKeyed(db: Db, d: JobId)
    requires Sound(db) && Tidy(db) && Booked(db) && DagOk(db) && JobsOk(db) && d in db.jobs
    ensures db.jobs[d].status == Done <==> HasKey(db, d)
  {
    hide Sound, Tidy, Booked, JobsOk, Cleared;
    OneOutcomeIn(db, d);
    if HasKey(db, d) {
      var r :| r in db.runs && db.runs[r].job == d && ForRun(r, db.runs[r].attempt) in db.keys;
      assert ForRun(r, db.runs[r].attempt) in KeysOf(db, d);
    }
  }

  lemma CheckDecides(db: Db, j: JobId)
    requires Sound(db) && Tidy(db) && Booked(db) && DagOk(db) && JobsOk(db) && j in db.jobs
    ensures E.DependenciesDone(db, db.jobs[j].deps) <==> Cleared(db, j)
  {
    hide Sound, Tidy, Booked, JobsOk, HasKey;
    forall d | d in db.jobs[j].deps ensures d in db.jobs && (db.jobs[d].status == Done <==> HasKey(db, d)) {
      DoneIsKeyed(db, d);
    }
  }

  /** The dependency check lets a job go on to the bank exactly when every dependency has its payment on
      record, and otherwise the job is cancelled, not held back. */
  lemma CheckDecidesByPayment(m: Mode, ss: seq<Sys>, ls: seq<Label>, i: nat)
    requires m.leases && m.depsExist && Trace(m, ss, ls) && i < |ls| && ls[i].Exec? && ls[i].x.CheckDag?
    ensures var t := ss[i].execs[ls[i].w].phase.ticket;
      ss[i + 1].execs[ls[i].w].phase == E.Busy(t, if Cleared(ss[i].db, t.job) then E.NeedKey else E.Cancelling)
  {
    hide Sound, Tidy, Booked, DagOk, JobsOk, Cleared, E.DependenciesDone;
    WholeAlways(m, ss, ls, i);
    var t := ss[i].execs[ls[i].w].phase.ticket;
    assert ExecOk(ss[i].db, ls[i].w, ss[i].execs[ls[i].w]);
    CheckDecides(ss[i].db, t.job);
  }
}
