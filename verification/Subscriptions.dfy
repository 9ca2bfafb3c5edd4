/** The status of a subscription over whole runs: what changes it, and what an inactive one does not get. */
module Subscriptions {
  import opened Domain
  import opened Tables
  import opened Protocol
  import opened Frames
  import opened Safety
  import opened Schedule
  import opened FailureCounter
  import E = Executor
  import R = Recovery
  import S = Scheduler

  predicate Cancels(l: Label, x: SubId) { l.Env? && l.e.CancelSub? && l.e.sub == x }

  /** The step commits a dead letter of the subscription. */
  ghost predicate DeadLetters(db: Db, db': Db, x: SubId) {
    |db'.dlq| == |db.dlq| + 1 && db'.dlq[|db.dlq|].sub == x
  }

  /** What a step leaves of the status: a dead letter pauses at three failures, and nothing else touches it. */
  ghost predicate PausesAtThree(db: Db, db': Db) {
    forall x :: x in db.subs ==>
      x in db'.subs
      && db'.subs[x].status == (if DeadLetters(db, db', x) && db'.subs[x].failures >= 3 then Paused else db.subs[x].status)
  }

  lemma DlqPauses(db: Db, r: RunId, job: JobId, attempt: Attempt, sub: SubId, keepWorker: bool)
    ensures PausesAtThree(db, MoveToDlq(db, r, job, attempt, sub, keepWorker))
  {
  }

  lemma PersistPauses(db: Db, w: E.Worker)
    requires w.phase.Busy? && w.phase.stage.Persisting?
    ensures PausesAtThree(db, E.PersistSuccess(db, w).db)
  {
    PersistFrame(db, w);
  }

  lemma SamePauses(db: Db, db': Db)
    requires db'.subs == db.subs && db'.dlq == db.dlq
    ensures PausesAtThree(db, db')
  {
  }

  lemma ExecPauses(m: Mode, db: Db, me: WorkerId, w: E.Worker, x: ExecStep)
    requires ExecEnabled(m, db, w, x)
    ensures PausesAtThree(db, ExecApply(m, db, me, w, x).db)
  {
    hide PausesAtThree, E.PersistSuccess, E.ReceiveReply, E.ScheduleRetry, E.ClaimNext, E.MarkDagCancelled, E.Answers, MoveToDlq;
    match x
    case Persist => PersistPauses(db, w);
    case Bury =>
      var t := w.phase.ticket;
      DlqPauses(db, t.run, t.job, t.attempt, t.sub, true);
    case _ =>
      ExecFrames(m, db, me, w, x);
      SamePauses(db, ExecApply(m, db, me, w, x).db);
  }

  lemma FollowUpPauses(db: Db, p: R.Phase, id: RunId)
    requires p.Holding?
    ensures PausesAtThree(db, R.FollowUp(db, p, id).db)
  {
    hide MoveToDlq, InsertRun;
    var s := p.stub;
    var db1 := db.(h := db.h.(resolved := db.h.resolved + {s.run}));
    if s.sub.Some? {
      DlqPauses(db1, s.run, s.job, s.attempt, s.sub.value, false);
      InsertFrame(db1, id, s.job, s.attempt + 1, None);
    }
  }

  lemma RecPauses(db: Db, me: WorkerId, p: R.Phase, y: RecStep)
    requires RecEnabled(db, p, y)
    ensures PausesAtThree(db, RecApply(db, me, p, y).db)
  {
    hide PausesAtThree, R.FollowUp, R.JudgeNext;
    match y
    case Resolve(id) => FollowUpPauses(db, p, id);
    case _ =>
      RecFrames(db, me, p, y);
      SamePauses(db, RecApply(db, me, p, y).db);
  }

  lemma EnvStatus(m: Mode, db: Db, e: EnvStep, x: SubId)
    requires EnvEnabled(m, db, e) && x in db.subs
    ensures var db' := EnvApply(db, e);
      && x in db'.subs && db'.dlq == db.dlq
      && db'.subs[x].status ==
         if Resumes(Env(e), x) && db.subs[x].cron.Some? then Active
         else if Cancels(Env(e), x) then Cancelled
         else if Fires(Env(e), x) && db.subs[x].cron.None? then Paused
         else db.subs[x].status
  {
    hide S.InsertJob;
    EnvFrames(m, db, e);
    match e
    case Schedule(y, _, j, run, epoch) => InsertJobLeavesSubs(db, j, run, JobRow(y, db.subs[y].nextFire.value, [], Ready, epoch));
    case _ =>
  }

  lemma StepStatus(m: Mode, s: Sys, l: Label, x: SubId)
    requires Enabled(m, s, l) && x in s.db.subs
    ensures var db, db' := s.db, Apply(m, s, l).db;
      && x in db'.subs
      && db'.subs[x].status ==
         if Resumes(l, x) && db.subs[x].cron.Some? then Active
         else if Cancels(l, x) then Cancelled
         else if Fires(l, x) && db.subs[x].cron.None? then Paused
         else if DeadLetters(db, db', x) && db'.subs[x].failures >= 3 then Paused
         else db.subs[x].status
  {
    hide EnvApply, EnvEnabled, ExecApply, RecApply, ExecEnabled, RecEnabled;
    match l
    case Env(e) => EnvStatus(m, s.db, e, x);
    case Exec(w, y) => ExecPauses(m, s.db, w, s.execs[w], y);
    case Rec(w, y) => RecPauses(s.db, w, s.recs[w], y);
  }

  /** Everything that can become of a subscription's status in one step of anyone: a resume makes it ACTIVE, the delete route
      CANCELLED, a tick that cannot read its cron expression PAUSED, and so does a dead letter if and only if it is at least the third
      failure since the last success or resume; no other step changes it. */
  lemma StatusChanges(m: Mode, ss: seq<Sys>, ls: seq<Label>, i: nat, x: SubId)
    requires Trace(m, ss, ls) && i < |ls| && x in ss[i].db.subs
    ensures var db, db', l := ss[i].db, ss[i + 1].db, ls[i];
      && x in db'.subs
      && db'.subs[x].status ==
         if Resumes(l, x) && db.subs[x].cron.Some? then Active
         else if Cancels(l, x) then Cancelled
         else if Fires(l, x) && db.subs[x].cron.None? then Paused
         else if DeadLetters(db, db', x) && Streak(db'.h.log, x) >= 3 then Paused
         else db.subs[x].status
  {
    StepStatus(m, ss[i], ls[i], x);
    CounterIsStreak(m, ss, ls, i + 1, x);
    hide Apply, Enabled;
  }

  lemma FiresActive(m: Mode, s: Sys, l: Label, x: SubId)
    requires Enabled(m, s, l) && Fires(l, x)
    ensures x in s.db.subs && s.db.subs[x].status == Active && s.db.subs[x].nextFire.Some?
    ensures s.db.subs[x].nextFire.value <= s.db.now + s.db.cfg.lookahead
  {
  }

  /** A tick processes a subscription only while it is ACTIVE and its next fire time lies within the lookahead. */
  lemma OnlyActiveFire(m: Mode, ss: seq<Sys>, ls: seq<Label>, i: nat, x: SubId)
    requires Trace(m, ss, ls) && i < |ls| && Fires(ls[i], x)
    ensures var db := ss[i].db;
      && x in db.subs && db.subs[x].status == Active && db.subs[x].nextFire.Some?
      && db.subs[x].nextFire.value <= db.now + db.cfg.lookahead
  {
    FiresActive(m, ss[i], ls[i], x);
    hide Apply, Enabled;
  }

  /** A subscription that is not ACTIVE stays so until it is resumed; until then it gets no job and its next fire time stands
      still, whatever schedulers do. */
  lemma {:induction false} InactiveGetsNothing(m: Mode, ss: seq<Sys>, ls: seq<Label>, i: nat, k: nat, x: SubId)
    requires Trace(m, ss, ls) && i <= k < |ss| && x in ss[i].db.subs && ss[i].db.subs[x].status != Active && OnlyTicks(ls, i, k, x)
    ensures var db, db' := ss[i].db, ss[k].db;
      && x in db'.subs && db'.subs[x].status != Active && db'.subs[x].nextFire == db.subs[x].nextFire
      && forall o :: HasJob(db', x, o) <==> HasJob(db, x, o)
    decreases k
  {
    hide Apply, Enabled, HasJob, OnSchedule;
    if i < k {
      var j := k - 1;
      InactiveGetsNothing(m, ss, ls, i, j, x);
      OnScheduleAlways(m, ss, ls, j, x);
      InactiveStep(m, ss[j], ls[j], x);
    }
  }

  lemma InactiveStep(m: Mode, s: Sys, l: Label, x: SubId)
    requires Enabled(m, s, l) && OnSchedule(s.db, x) && s.db.subs[x].status != Active && !Resumes(l, x) && !AddsAny(l, x)
    ensures var db, db' := s.db, Apply(m, s, l).db;
      && x in db'.subs && db'.subs[x].status != Active && db'.subs[x].nextFire == db.subs[x].nextFire
      && forall o :: HasJob(db', x, o) <==> HasJob(db, x, o)
  {
    StepStatus(m, s, l, x);
    StepMovesFire(m, s, l, x);
    if Fires(l, x) {
      FiresActive(m, s, l, x);
    }
    forall o ensures HasJob(Apply(m, s, l).db, x, o) <==> HasJob(s.db, x, o) {
      StepAddsWindow(m, s, l, x, o);
    }
    hide Apply, Enabled;
  }

  // ---------- what is born ----------

  lemma EnvBirth(m: Mode, db: Db, e: EnvStep, x: SubId)
    requires EnvEnabled(m, db, e) && x !in db.subs && x in EnvApply(db, e).subs
    ensures EnvApply(db, e).subs[x].status == Active && EnvApply(db, e).subs[x].failures == 0
  {
    hide S.InsertJob;
    EnvFrames(m, db, e);
    match e
    case AddJob(_, _, _) =>
    case Schedule(y, _, j, run, epoch) => InsertJobLeavesSubs(db, j, run, JobRow(y, db.subs[y].nextFire.value, [], Ready, epoch));
    case _ =>
  }

  /** A subscription is born ACTIVE and without failures. */
  lemma BornActive(m: Mode, ss: seq<Sys>, ls: seq<Label>, i: nat, x: SubId)
    requires Trace(m, ss, ls) && i < |ls| && x !in ss[i].db.subs && x in ss[i + 1].db.subs
    ensures ss[i + 1].db.subs[x].status == Active && ss[i + 1].db.subs[x].failures == 0
  {
    hide EnvApply, EnvEnabled, ExecApply, RecApply, ExecEnabled, RecEnabled;
    match ls[i]
    case Env(e) => EnvBirth(m, ss[i].db, e, x);
    case _ => StepSameSchedule(m, ss[i], ls[i]);
  }

  lemma TickBirth(m: Mode, db: Db, e: EnvStep)
    requires Sound(db) && EnvEnabled(m, db, e) && e.Schedule? && !HasJob(db, e.sub, db.subs[e.sub].nextFire.value)
    ensures var db' := EnvApply(db, e);
      && e.job in db'.jobs && db'.jobs[e.job] == JobRow(e.sub, db.subs[e.sub].nextFire.value, [], Ready, e.epoch)
      && e.run in db'.runs && db'.runs[e.run] == RunRow(e.job, 1, Pending, None, None, None, None)
  {
    NoRunsYet(db, e.job, 1);
    hide Sound;
  }

  /** A job that a tick creates is READY, without dependencies, for the window at which next_fire_at stood and stamped with the epoch;
      its first run is PENDING, unclaimed and due at once. */
  lemma BornOfTick(m: Mode, ss: seq<Sys>, ls: seq<Label>, i: nat)
    requires Trace(m, ss, ls) && i < |ls| && ls[i].Env? && ls[i].e.Schedule?
    requires !HasJob(ss[i].db, ls[i].e.sub, FireAt(ss[i].db, ls[i].e.sub))
    ensures var e, db, db' := ls[i].e, ss[i].db, ss[i + 1].db;
      && e.job in db'.jobs && db'.jobs[e.job] == JobRow(e.sub, FireAt(db, e.sub), [], Ready, e.epoch)
      && e.run in db'.runs && db'.runs[e.run] == RunRow(e.job, 1, Pending, None, None, None, None)
  {
    hide Sound, EnvApply;
    Always(m, ss, ls, i);
    FiresActive(m, ss[i], ls[i], ls[i].e.sub);
    TickBirth(m, ss[i].db, ls[i].e);
  }
}
