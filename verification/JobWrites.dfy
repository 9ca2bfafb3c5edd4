/** Who writes a job's status, in every mode. */
module JobWrites {
  import opened Domain
  import opened Tables
  import opened Protocol
  import opened Frames
  import opened Safety
  import opened Payments
  import opened JobOutcome
  import T = Settlement
  import E = Executor
  import R = Recovery

  /** The step writes status `b` to the existing job `j`: DONE by a success transaction, CANCELLED by the executor that finds a
      dependency open, or by the recovery worker that finds one dead. */
  predicate WritesJob(s: Sys, l: Label, j: JobId, b: JobStatus) {
    match l
    case Env(_) => false
    case Exec(w, x) =>
      w in s.execs && s.execs[w].phase.Busy? && s.execs[w].phase.ticket.job == j
      && ((x.Persist? && b == Done) || (x.DagCancel? && b == Dropped))
    case Rec(w, y) =>
      y.OrphanEval? && w in s.recs && s.recs[w].Judging? && s.recs[w].jobs != [] && s.recs[w].jobs[0] == j
      && j in s.db.jobs && R.Judge(s.db, s.db.jobs[j].deps).Orphaned? && b == Dropped
  }

  lemma PersistWritesJob(db: Db, me: WorkerId, w: E.Worker)
    requires ExecOk(db, me, w) && ExecBooked(db, w) && w.phase.Busy? && w.phase.stage.Persisting?
    ensures E.PersistSuccess(db, w).db.jobs == WithStatus(db.jobs, w.phase.ticket.job, Done)
  {
  }

  lemma ExecJob(m: Mode, db: Db, me: WorkerId, w: E.Worker, x: ExecStep)
    requires ExecOk(db, me, w) && ExecBooked(db, w) && ExecEnabled(m, db, w, x)
    ensures ExecApply(m, db, me, w, x).db.jobs ==
      if x.Persist? then WithStatus(db.jobs, w.phase.ticket.job, Done)
      else if x.DagCancel? then WithStatus(db.jobs, w.phase.ticket.job, Dropped)
      else db.jobs
  {
    hide ExecOk, ExecBooked, WithStatus, E.ClaimNext, E.ReceiveReply, E.PersistSuccess, E.ScheduleRetry, E.MarkDagCancelled, E.BuryRun, E.Answers;
    match x
    case Persist => PersistWritesJob(db, me, w);
    case DagCancel => DagJobs(db, w);
    case _ => ExecFrames(m, db, me, w, x);
  }

  lemma OrphanJob(db: Db, p: R.Phase)
    requires p.Judging? && p.jobs != []
    ensures R.JudgeNext(db, p).db.jobs ==
      if p.jobs[0] in db.jobs && R.Judge(db, db.jobs[p.jobs[0]].deps).Orphaned? then WithStatus(db.jobs, p.jobs[0], Dropped) else db.jobs
  {
    hide R.Judge, R.FailPending;
  }

  lemma RecJob(db: Db, me: WorkerId, p: R.Phase, y: RecStep)
    requires RecEnabled(db, p, y)
    ensures RecApply(db, me, p, y).db.jobs ==
      if y.OrphanEval? && p.jobs[0] in db.jobs && R.Judge(db, db.jobs[p.jobs[0]].deps).Orphaned?
      then WithStatus(db.jobs, p.jobs[0], Dropped) else db.jobs
  {
    hide R.Judge, R.FollowUp, R.ReapNext, R.JudgeNext, WithStatus;
    if y.OrphanEval? {
      OrphanJob(db, p);
    } else {
      RecFrames(db, me, p, y);
    }
  }

  /** What `WritesJob` names is written, and a job whose status changed was named. */
  lemma StepWritesJob(m: Mode, s: Sys, l: Label, j: JobId, b: JobStatus)
    requires Inv(s) && PayInv(s) && Enabled(m, s, l) && j in s.db.jobs
    ensures j in Apply(m, s, l).db.jobs
    ensures var b' := Apply(m, s, l).db.jobs[j].status;
      (WritesJob(s, l, j, b) ==> b' == b) && (b' != s.db.jobs[j].status ==> WritesJob(s, l, j, b'))
  {
    hide Sound, Booked, ExecOk, RecOk, ExecBooked, Tracked, EnvEnabled, EnvApply, ExecApply, RecApply, R.Judge;
    match l
    case Env(e) => EnvKeepsStatus(m, s.db, e, j);
    case Exec(w, x) => ExecJob(m, s.db, w, s.execs[w], x);
    case Rec(w, y) => RecJob(s.db, w, s.recs[w], y);
  }

  /** In every mode a DONE or CANCELLED job changes its status exactly when an executor stores a payment for a CANCELLED
      one, or cancels a DONE one because a dependency is open, or a recovery worker cancels a DONE one because a dependency is dead. */
  lemma SettledOverwrittenIff(m: Mode, ss: seq<Sys>, ls: seq<Label>, i: nat, j: JobId)
    requires Trace(m, ss, ls) && i < |ls| && j in ss[i].db.jobs && T.Settled(ss[i].db.jobs[j])
    ensures j in ss[i + 1].db.jobs && T.Settled(ss[i + 1].db.jobs[j])
    ensures var a := ss[i].db.jobs[j].status;
      ss[i + 1].db.jobs[j].status != a <==> WritesJob(ss[i], ls[i], j, if a == Done then Dropped else Done)
  {
    hide Inv, PayInv, Apply, Enabled, WritesJob;
    PayAlways(m, ss, ls, i);
    SettledStep(m, ss[i], ls[i], j);
  }

  lemma SettledStep(m: Mode, s: Sys, l: Label, j: JobId)
    requires Inv(s) && PayInv(s) && Enabled(m, s, l) && j in s.db.jobs && T.Settled(s.db.jobs[j])
    ensures j in Apply(m, s, l).db.jobs && T.Settled(Apply(m, s, l).db.jobs[j])
    ensures var a := s.db.jobs[j].status;
      Apply(m, s, l).db.jobs[j].status != a <==> WritesJob(s, l, j, if a == Done then Dropped else Done)
  {
    hide Inv, PayInv, Apply, Enabled;
    StepWritesJob(m, s, l, j, if s.db.jobs[j].status == Done then Dropped else Done);
  }
}
