/** Which tables each transaction leaves alone. */
module Frames {
  import opened Domain
  import opened Tables
  import opened Protocol
  import E = Executor
  import R = Recovery
  import S = Scheduler

  ghost predicate ExecFrame(x: ExecStep, db: Db, db': Db) {
    match x
    case ClaimNext => db' == db.(runs := db'.runs, h := db.h.(claims := db'.h.claims))
    case Call(_, _) => db' == db.(bank := db'.bank, h := db.h.(called := db'.h.called, unsure := db'.h.unsure))
    case Persist => db' == db.(runs := db'.runs, jobs := db'.jobs, subs := db'.subs, keys := db'.keys, h := db.h.(log := db'.h.log))
    case DagCancel => db' == db.(runs := db'.runs, jobs := db'.jobs)
    case Retry(_) => db' == db.(runs := db'.runs, byAttempt := db'.byAttempt)
    case Bury => db' == db.(runs := db'.runs, dlq := db'.dlq, subs := db'.subs, h := db.h.(log := db'.h.log))
    case _ => db' == db
  }

  ghost predicate RecFrame(y: RecStep, db: Db, db': Db) {
    match y
    case Reap => db' == db.(runs := db'.runs, h := db.h.(reaped := db'.h.reaped))
    case Resolve(_) =>
      db' == db.(runs := db'.runs, byAttempt := db'.byAttempt, dlq := db'.dlq, subs := db'.subs,
                 h := db.h.(log := db'.h.log, resolved := db'.h.resolved, stranded := db'.h.stranded))
    case OrphanEval => db' == db.(runs := db'.runs, jobs := db'.jobs)
    case GiveUp => db' == db.(h := db.h.(stranded := db'.h.stranded))
    case _ => db' == db
  }

  ghost predicate EnvFrame(e: EnvStep, db: Db, db': Db) {
    match e
    case Advance(to) => db' == db.(now := to)
    case AddJob(_, _, _) =>
      db' == db.(runs := db'.runs, byAttempt := db'.byAttempt, jobs := db'.jobs, byWindow := db'.byWindow)
    case Schedule(_, _, _, _, _) =>
      db' == db.(runs := db'.runs, byAttempt := db'.byAttempt, jobs := db'.jobs, byWindow := db'.byWindow, subs := db'.subs)
    case _ => db' == db.(subs := db'.subs, h := db.h.(log := db'.h.log))
  }

  lemma DlqFrame(db: Db, r: RunId, job: JobId, attempt: Attempt, sub: SubId, keepWorker: bool)
    ensures ExecFrame(Bury, db, MoveToDlq(db, r, job, attempt, sub, keepWorker))
  {
  }

  lemma InsertFrame(db: Db, id: RunId, job: JobId, attempt: Attempt, after: Option<Time>)
    ensures ExecFrame(Retry(id), db, InsertRun(db, id, job, attempt, after))
  {
  }

  lemma FinishFrame(db: Db, r: RunId, status: RunStatus)
    ensures FinishRun(db, r, status) == db.(runs := FinishRun(db, r, status).runs)
  {
  }

  lemma JobFrame(db: Db, j: JobId, status: JobStatus)
    ensures SetJobStatus(db, j, status) == db.(jobs := SetJobStatus(db, j, status).jobs)
  {
  }

  lemma ClaimFrame(db: Db, me: WorkerId, w: E.Worker)
    requires w.phase.Idle? && w.batch != []
    ensures ExecFrame(ClaimNext, db, E.ClaimNext(db, me, w).db)
  {
  }

  lemma CallFrame(db: Db, w: E.Worker, reply: E.Reply, u: real)
    requires w.phase.Busy?
    ensures ExecFrame(Call(reply, u), db, E.ReceiveReply(db, w, reply, u).db)
  {
  }

  lemma PersistFrame(db: Db, w: E.Worker)
    requires w.phase.Busy? && w.phase.stage.Persisting?
    ensures ExecFrame(Persist, db, E.PersistSuccess(db, w).db)
  {
  }

  lemma PersistRuns(db: Db, w: E.Worker)
    requires w.phase.Busy? && w.phase.stage.Persisting?
    ensures var runs, r := E.PersistSuccess(db, w).db.runs, w.phase.ticket.run;
      || runs == db.runs
      || (r in db.runs && runs == db.runs[r := db.runs[r].(status := Succeeded, payment := Some(w.phase.stage.payment), lock := None)])
    ensures E.PersistSuccess(db, w).w.phase.Idle?
  {
  }

  /** A job's row after UPDATE ... SET status. */
  function WithStatus(jobs: map<JobId, JobRow>, j: JobId, status: JobStatus): map<JobId, JobRow> {
    if j in jobs then jobs[j := jobs[j].(status := status)] else jobs
  }

  lemma PersistJobs(db: Db, w: E.Worker)
    requires w.phase.Busy? && w.phase.stage.Persisting?
    ensures var jobs := E.PersistSuccess(db, w).db.jobs; jobs == db.jobs || jobs == WithStatus(db.jobs, w.phase.ticket.job, Done)
  {
  }

  lemma DagJobs(db: Db, w: E.Worker)
    requires w.phase.Busy?
    ensures E.MarkDagCancelled(db, w).db.jobs == WithStatus(db.jobs, w.phase.ticket.job, Dropped)
  {
    FinishFrame(db, w.phase.ticket.run, Failed);
    hide FinishRun;
  }

  lemma RetryFrame(db: Db, w: E.Worker, id: RunId)
    requires w.phase.Busy? && w.phase.stage.Retrying?
    ensures ExecFrame(Retry(id), db, E.ScheduleRetry(db, w, id).db)
  {
    hide FinishRun, InsertRun;
    var t := w.phase.ticket;
    FinishFrame(db, t.run, Failed);
    InsertFrame(FinishRun(db, t.run, Failed), id, t.job, t.attempt + 1, Some(w.phase.stage.after));
  }

  lemma DagFrame(db: Db, w: E.Worker)
    requires w.phase.Busy?
    ensures ExecFrame(DagCancel, db, E.MarkDagCancelled(db, w).db)
  {
    hide FinishRun, SetJobStatus;
    var t := w.phase.ticket;
    FinishFrame(db, t.run, Failed);
    JobFrame(FinishRun(db, t.run, Failed), t.job, Dropped);
  }

  lemma ExecFrames(m: Mode, db: Db, me: WorkerId, w: E.Worker, x: ExecStep)
    requires ExecEnabled(m, db, w, x)
    ensures ExecFrame(x, db, ExecApply(m, db, me, w, x).db)
  {
    hide ExecFrame, E.ClaimNext, E.ReceiveReply, E.PersistSuccess, E.ScheduleRetry, E.MarkDagCancelled, MoveToDlq, E.Answers, E.Due;
    match x
    case ClaimNext => ClaimFrame(db, me, w);
    case Call(reply, u) => CallFrame(db, w, reply, u);
    case Persist => PersistFrame(db, w);
    case DagCancel => DagFrame(db, w);
    case Retry(id) => RetryFrame(db, w, id);
    case Bury =>
      var t := w.phase.ticket;
      DlqFrame(db, t.run, t.job, t.attempt, t.sub, true);
    case _ => SameFrame(x, db);
  }

  lemma SameFrame(x: ExecStep, db: Db)
    requires !x.Bury? && !x.Retry? && !x.Persist? && !x.DagCancel? && !x.Call? && !x.ClaimNext?
    ensures ExecFrame(x, db, db)
  {
  }

  lemma FollowUpFrame(db: Db, p: R.Phase, id: RunId)
    requires p.Holding?
    ensures RecFrame(Resolve(id), db, R.FollowUp(db, p, id).db)
  {
    hide MoveToDlq, InsertRun;
    var s := p.stub;
    var db1 := db.(h := db.h.(resolved := db.h.resolved + {s.run}));
    if s.sub.Some? {
      DlqFrame(db1, s.run, s.job, s.attempt, s.sub.value, false);
      InsertFrame(db1, id, s.job, s.attempt + 1, None);
    }
  }

  lemma JudgeFrame(db: Db, p: R.Phase)
    requires p.Judging? && p.jobs != []
    ensures RecFrame(OrphanEval, db, R.JudgeNext(db, p).db)
  {
    hide R.Judge, R.FailPending, SetJobStatus;
    JobFrame(db.(runs := R.FailPending(db.runs, p.jobs[0])), p.jobs[0], Dropped);
  }

  lemma RecFrames(db: Db, me: WorkerId, p: R.Phase, y: RecStep)
    requires RecEnabled(db, p, y)
    ensures RecFrame(y, db, RecApply(db, me, p, y).db)
  {
    hide R.FollowUp, R.JudgeNext;
    match y
    case Resolve(id) => FollowUpFrame(db, p, id);
    case OrphanEval => JudgeFrame(db, p);
    case _ =>
  }

  lemma InsertJobFrame(db: Db, j: JobId, run: RunId, row: JobRow)
    ensures EnvFrame(AddJob(j, run, row), db, S.InsertJob(db, j, run, row))
  {
  }

  lemma EnvFrames(m: Mode, db: Db, e: EnvStep)
    requires EnvEnabled(m, db, e)
    ensures EnvFrame(e, db, EnvApply(db, e))
  {
    hide S.InsertJob;
    match e
    case AddJob(j, run, row) => InsertJobFrame(db, j, run, row);
    case Schedule(x, _, j, run, epoch) => InsertJobFrame(db, j, run, JobRow(x, db.subs[x].nextFire.value, [], Ready, epoch));
    case _ =>
  }
}
