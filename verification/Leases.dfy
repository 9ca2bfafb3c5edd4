/** The protocol under the lease assumption: an executor's finishing transaction commits no later than
    the lease of its claim, or never. */
module Leases {
  import opened Domain
  import opened Tables
  import opened Protocol
  import opened Frames
  import opened Safety
  import opened Payments
  import E = Executor
  import R = Recovery
  import S = Scheduler

  // ---------- who may change a row, in every mode ----------

  /** The actor claimed the run (and is still inside its lease, where leases bind), or took it by recovery. */
  predicate Owns(m: Mode, h: History, now: Time, r: RunId, a: Actor) {
    (ClaimedBy(h, r, a) && (m.leases ==> now <= h.claims[r].lease)) || ReapedBy(h, r, a)
  }

  /** Apart from leaving PENDING, a row is changed only by its owner. */
  ghost predicate OwnRows(m: Mode, runs: Runs, runs': Runs, h: History, h': History, now: Time, a: Actor) {
    forall r :: r in runs && r in runs' && runs'[r] != runs[r] ==>
      runs[r].status == Pending || Owns(m, h, now, r, a) || (ReapedBy(h', r, a) && runs[r].status == Running)
  }

  /** A run gets its successor only from its owner. */
  ghost predicate OwnNext(m: Mode, runs: Runs, idx: Index, idx': Index, h: History, now: Time, a: Actor) {
    forall r :: r in runs && (runs[r].job, runs[r].attempt + 1) in idx' && (runs[r].job, runs[r].attempt + 1) !in idx
      ==> Owns(m, h, now, r, a)
  }

  ghost predicate Touches(m: Mode, db: Db, db': Db, a: Actor) {
    && OwnRows(m, db.runs, db'.runs, db.h, db'.h, db.now, a)
    && OwnNext(m, db.runs, db.byAttempt, db'.byAttempt, db.h, db.now, a)
  }

  lemma NextOnlyOf(m: Mode, runs: Runs, idx: Index, idx': Index, r: RunId, h: History, now: Time, a: Actor)
    requires RunIndex(runs, idx) && r in runs && Owns(m, h, now, r, a)
    requires forall k :: k in idx' && k !in idx ==> k == (runs[r].job, runs[r].attempt + 1)
    ensures OwnNext(m, runs, idx, idx', h, now, a)
  {
  }

  lemma ClaimOwnRows(m: Mode, db: Db, me: WorkerId, w: E.Worker, h: History)
    requires w.phase.Idle? && w.batch != []
    ensures OwnRows(m, db.runs, E.ClaimNext(db, me, w).db.runs, db.h, h, db.now, TheExec(me))
  {
  }

  /** A worker that holds a run, inside its lease where leases bind, owns it. */
  lemma HolderOwns(m: Mode, db: Db, me: WorkerId, w: E.Worker, x: ExecStep)
    requires ExecOk(db, me, w) && ExecEnabled(m, db, w, x) && Finishes(x)
    ensures w.phase.Busy? && Owns(m, db.h, db.now, w.phase.ticket.run, TheExec(me))
  {
  }

  lemma OneRowOwned(m: Mode, runs: Runs, runs': Runs, r: RunId, h: History, h': History, now: Time, a: Actor)
    requires Owns(m, h, now, r, a) && forall q :: q in runs && q in runs' && q != r ==> runs'[q] == runs[q]
    ensures OwnRows(m, runs, runs', h, h', now, a)
  {
  }

  lemma DlqOneRow(db: Db, r: RunId, job: JobId, attempt: Attempt, sub: SubId, keepWorker: bool)
    ensures var runs := MoveToDlq(db, r, job, attempt, sub, keepWorker).runs;
      forall q :: q in db.runs && q in runs && q != r ==> runs[q] == db.runs[q]
  {
  }

  lemma PersistOneRow(db: Db, w: E.Worker)
    requires w.phase.Busy? && w.phase.stage.Persisting?
    ensures var runs := E.PersistSuccess(db, w).db.runs;
      forall q :: q in db.runs && q in runs && q != w.phase.ticket.run ==> runs[q] == db.runs[q]
  {
  }

  lemma RetryOneRow(db: Db, w: E.Worker, id: RunId)
    requires w.phase.Busy? && w.phase.stage.Retrying? && id !in db.runs
    ensures var runs := E.ScheduleRetry(db, w, id).db.runs;
      forall q :: q in db.runs && q in runs && q != w.phase.ticket.run ==> runs[q] == db.runs[q]
  {
  }

  lemma FinishOneRow(m: Mode, db: Db, me: WorkerId, w: E.Worker, x: ExecStep)
    requires ExecOk(db, me, w) && ExecEnabled(m, db, w, x) && Finishes(x) && w.phase.Busy?
    ensures var runs := ExecApply(m, db, me, w, x).db.runs;
      forall q :: q in db.runs && q in runs && q != w.phase.ticket.run ==> runs[q] == db.runs[q]
  {
    hide E.PersistSuccess, E.ScheduleRetry, MoveToDlq, ExecOk, E.Answers;
    match x
    case Persist => PersistOneRow(db, w);
    case Retry(id) => RetryOneRow(db, w, id);
    case Bury =>
      var t := w.phase.ticket;
      DlqOneRow(db, t.run, t.job, t.attempt, t.sub, true);
    case DagCancel =>
  }

  lemma ExecTouches(m: Mode, db: Db, me: WorkerId, w: E.Worker, x: ExecStep)
    requires Sound(db) && ExecOk(db, me, w) && ExecEnabled(m, db, w, x)
    ensures Touches(m, db, ExecApply(m, db, me, w, x).db, TheExec(me))
  {
    hide Sound, OwnNext, OwnRows, Owns, ExecApply;
    var db' := ExecApply(m, db, me, w, x).db;
    ExecFrames(m, db, me, w, x);
    if x.Retry? {
      HolderOwns(m, db, me, w, x);
      SoundIndex(db);
      RetryNext(db, w, x.run);
      RetryIs(m, db, me, w, x);
      NextOnlyOf(m, db.runs, db.byAttempt, db'.byAttempt, w.phase.ticket.run, db.h, db.now, TheExec(me));
    } else {
      SameNext(m, db, TheExec(me));
    }
    if x.ClaimNext? {
      ClaimOwnRows(m, db, me, w, db'.h);
      ClaimIs(m, db, me, w);
    } else if Finishes(x) {
      HolderOwns(m, db, me, w, x);
      FinishOneRow(m, db, me, w, x);
      OneRowOwned(m, db.runs, db'.runs, w.phase.ticket.run, db.h, db'.h, db.now, TheExec(me));
    } else {
      SameRows(m, db, db'.h, TheExec(me));
    }
  }

  lemma RetryNext(db: Db, w: E.Worker, id: RunId)
    requires w.phase.Busy? && w.phase.stage.Retrying?
    ensures var idx := E.ScheduleRetry(db, w, id).db.byAttempt;
      forall k :: k in idx && k !in db.byAttempt ==> k == (w.phase.ticket.job, w.phase.ticket.attempt + 1)
  {
    RetryShape(db, w, id);
    hide E.ScheduleRetry;
  }

  lemma RetryIs(m: Mode, db: Db, me: WorkerId, w: E.Worker, x: ExecStep)
    requires ExecEnabled(m, db, w, x) && x.Retry?
    ensures ExecApply(m, db, me, w, x) == E.ScheduleRetry(db, w, x.run)
  {
    hide E.ScheduleRetry;
  }

  lemma ClaimIs(m: Mode, db: Db, me: WorkerId, w: E.Worker)
    requires ExecEnabled(m, db, w, ClaimNext)
    ensures ExecApply(m, db, me, w, ClaimNext) == E.ClaimNext(db, me, w)
  {
    hide E.ClaimNext;
  }

  lemma SameRows(m: Mode, db: Db, h: History, a: Actor)
    ensures OwnRows(m, db.runs, db.runs, db.h, h, db.now, a)
  {
  }

  lemma SameNext(m: Mode, db: Db, a: Actor)
    ensures OwnNext(m, db.runs, db.byAttempt, db.byAttempt, db.h, db.now, a)
  {
  }

  lemma ReapTouches(m: Mode, db: Db, me: WorkerId, p: R.Phase)
    requires Sound(db) && p.Reaping? && p.ids != []
    ensures Touches(m, db, R.ReapNext(db, me, p).db, TheRec(me))
  {
    hide Sound, OwnNext;
    SameNext(m, db, TheRec(me));
  }

  lemma ResolveTouches(m: Mode, db: Db, me: WorkerId, p: R.Phase, id: RunId)
    requires Sound(db) && RecOk(db, me, p) && p.Holding? && id !in db.runs
    ensures Touches(m, db, R.FollowUp(db, p, id).db, TheRec(me))
  {
    hide Sound, OwnNext;
    SoundIndex(db);
    NextOnlyOf(m, db.runs, db.byAttempt, R.FollowUp(db, p, id).db.byAttempt, p.stub.run, db.h, db.now, TheRec(me));
  }

  lemma OrphanTouches(m: Mode, db: Db, me: WorkerId, j: JobId)
    ensures Touches(m, db, R.CancelOrphan(db, j), TheRec(me))
  {
    hide OwnNext;
    SameNext(m, db, TheRec(me));
  }

  lemma SameTouches(m: Mode, db: Db, db': Db, a: Actor)
    requires db'.runs == db.runs && db'.byAttempt == db.byAttempt
    ensures Touches(m, db, db', a)
  {
  }

  lemma RecTouches(m: Mode, db: Db, me: WorkerId, p: R.Phase, y: RecStep)
    requires Sound(db) && RecOk(db, me, p) && RecEnabled(db, p, y)
    ensures Touches(m, db, RecApply(db, me, p, y).db, TheRec(me))
  {
    hide Sound, Touches, DeadRuns, R.CancelOrphan;
    var db' := RecApply(db, me, p, y).db;
    match y
    case Reap => ReapTouches(m, db, me, p);
    case Resolve(run) => ResolveTouches(m, db, me, p, run);
    case OrphanEval =>
      OrphanTouches(m, db, me, p.jobs[0]);
      SameTouches(m, db, db, TheRec(me));
    case _ => SameTouches(m, db, db', TheRec(me));
  }

  lemma InsertJobTouches(m: Mode, db: Db, j: JobId, run: RunId, row: JobRow)
    requires Sound(db) && j !in db.jobs && run !in db.runs
    ensures Touches(m, db, S.InsertJob(db, j, run, row), Nobody)
  {
    hide Sound;
    NoNewSuccessors(db, j);
  }

  lemma EnvTouches(m: Mode, db: Db, e: EnvStep)
    requires Sound(db) && EnvEnabled(m, db, e)
    ensures Touches(m, db, EnvApply(db, e), Nobody)
  {
    hide Sound, Touches;
    match e
    case AddJob(j, run, row) => InsertJobTouches(m, db, j, run, row);
    case Schedule(x, _, j, run, epoch) =>
      var row := JobRow(x, db.subs[x].nextFire.value, [], Ready, epoch);
      InsertJobTouches(m, db, j, run, row);
      SameAs(m, db, S.InsertJob(db, j, run, row), EnvApply(db, e), Nobody);
    case _ => SameTouches(m, db, EnvApply(db, e), Nobody);
  }

  lemma SameAs(m: Mode, db: Db, db': Db, db'': Db, a: Actor)
    requires Touches(m, db, db', a) && db''.runs == db'.runs && db''.byAttempt == db'.byAttempt && db''.h == db'.h
    ensures Touches(m, db, db'', a)
  {
  }

  /** In every mode: a row changes, and a run gets a successor, only by the hand of its owner. */
  lemma StepTouches(m: Mode, s: Sys, l: Label)
    requires Inv(s) && Enabled(m, s, l)
    ensures Touches(m, s.db, Apply(m, s, l).db, ActorOf(l))
  {
    hide Sound, Touches, ExecOk, RecOk, EnvApply, ExecApply, RecApply, EnvEnabled, ExecEnabled, RecEnabled, Tracked;
    match l
    case Env(e) => EnvTouches(m, s.db, e);
    case Exec(w, x) => ExecTouches(m, s.db, w, s.execs[w], x);
    case Rec(w, y) => RecTouches(m, s.db, w, s.recs[w], y);
  }

  // ---------- inside its lease an executor's run stays RUNNING ----------

  ghost predicate InLease(db: Db, w: E.Worker) {
    w.phase.Busy? && w.phase.ticket.run in db.runs && db.now <= w.phase.ticket.lease ==>
      db.runs[w.phase.ticket.run].status == Running
  }

  lemma InLeaseStable(m: Mode, db: Db, db': Db, a: Actor, me: WorkerId, w: E.Worker)
    requires Sound(db) && Sound(db') && ExecOk(db, me, w) && InLease(db, w)
    requires Guarantee(db, db', a) && Touches(m, db, db', a) && a != TheExec(me)
    ensures InLease(db', w)
  {
    hide RunIndex, NoGaps, LiveTop, References, JobIndex, PoliciesOk;
  }

  lemma InLeaseStep(m: Mode, db: Db, me: WorkerId, w: E.Worker, x: ExecStep)
    requires Sound(db) && ExecOk(db, me, w) && InLease(db, w) && ExecEnabled(m, db, w, x)
    ensures var a := ExecApply(m, db, me, w, x); InLease(a.db, a.w)
  {
    hide Sound;
  }

  ghost predicate LeaseInv(s: Sys) {
    forall w :: w in s.execs ==> InLease(s.db, s.execs[w])
  }

  /** Holds in every mode: a run whose claim has not run out is RUNNING until its executor finishes it. */
  lemma LeaseStep(m: Mode, s: Sys, l: Label)
    requires Inv(s) && LeaseInv(s) && Enabled(m, s, l)
    ensures LeaseInv(Apply(m, s, l))
  {
    hide Sound, Guarantee, Touches, InLease, ExecOk, RecOk, EnvApply, ExecApply, RecApply, EnvEnabled, ExecEnabled, RecEnabled, Tracked;
    var s' := Apply(m, s, l);
    Step(m, s, l);
    StepTouches(m, s, l);
    if l.Exec? {
      InLeaseStep(m, s.db, l.w, s.execs[l.w], l.x);
    }
    forall w | w in s.execs && ActorOf(l) != TheExec(w) ensures InLease(s'.db, s.execs[w]) {
      InLeaseStable(m, s.db, s'.db, ActorOf(l), w, s.execs[w]);
    }
  }
}
