/** What the rows record about claims, payments and dead letters, zombies included. */
module Records {
  import opened Domain
  import opened Tables
  import opened Protocol
  import opened Frames
  import opened Safety
  import opened Payments
  import E = Executor
  import R = Recovery
  import S = Scheduler

  /** A row carries a lease exactly while it is RUNNING, and then the lease and the name of the claim. */
  predicate LeaseOk(row: RunRow, r: RunId, claims: map<RunId, Claim>) {
    && (row.lock.Some? <==> row.status == Running)
    && (row.status == Running ==>
          r in claims && row.lock == Some(claims[r].lease) && row.worker == Some(claims[r].worker))
  }

  /** A row names its worker from the claim until recovery takes the run, and names none before and after. */
  predicate WorkerOk(row: RunRow, r: RunId, claims: map<RunId, Claim>, reaped: map<RunId, WorkerId>) {
    row.worker == if r in claims && r !in reaped then Some(claims[r].worker) else None
  }

  ghost predicate WorkersOk(runs: Runs, claims: map<RunId, Claim>, reaped: map<RunId, WorkerId>) {
    forall r :: r in runs ==> WorkerOk(runs[r], r, claims, reaped)
  }

  /** A claim's lease is the lock timeout from the claim. */
  ghost predicate LeaseLengths(claims: map<RunId, Claim>, cfg: Settings) {
    forall r :: r in claims ==> claims[r].lease == claims[r].at + cfg.lockTimeout
  }

  predicate PaymentOk(row: RunRow, r: RunId, keys: KeyMap) {
    row.payment == if ForRun(r, row.attempt) in keys then Some(keys[ForRun(r, row.attempt)]) else None
  }

  predicate EntryOk(runs: Runs, jobs: map<JobId, JobRow>, e: DlqEntry) {
    && e.run in runs && runs[e.run].job == e.job && runs[e.run].attempt == e.attempt
    && e.job in jobs && jobs[e.job].sub == e.sub
  }

  ghost predicate LeasesOk(runs: Runs, claims: map<RunId, Claim>) {
    forall r :: r in runs ==> LeaseOk(runs[r], r, claims)
  }

  ghost predicate PaymentsOk(runs: Runs, keys: KeyMap) { forall r :: r in runs ==> PaymentOk(runs[r], r, keys) }

  ghost predicate EntriesOk(db: Db) { forall n :: 0 <= n < |db.dlq| ==> EntryOk(db.runs, db.jobs, db.dlq[n]) }

  ghost predicate Recorded(db: Db) {
    LeasesOk(db.runs, db.h.claims) && PaymentsOk(db.runs, db.keys) && EntriesOk(db)
  }

  // ---------- leases and payments, transaction by transaction ----------

  /** Every row is as it was, or has no lease and is not RUNNING; no row's payment has changed, and none is new with one. */
  ghost predicate Settles(runs: Runs, runs': Runs) {
    forall r :: r in runs' ==>
      if r in runs then
        runs'[r] == runs[r]
        || (runs'[r].lock.None? && runs'[r].status != Running && runs'[r].payment == runs[r].payment && runs'[r].attempt == runs[r].attempt)
      else runs'[r].lock.None? && runs'[r].status != Running && runs'[r].payment.None?
  }

  lemma SettlesKeeps(db: Db, runs': Runs)
    requires LeasesOk(db.runs, db.h.claims) && PaymentsOk(db.runs, db.keys) && Booked(db) && Settles(db.runs, runs')
    ensures LeasesOk(runs', db.h.claims) && PaymentsOk(runs', db.keys)
  {
  }

  lemma DlqSettles(db: Db, r: RunId, job: JobId, attempt: Attempt, sub: SubId, keepWorker: bool)
    ensures Settles(db.runs, MoveToDlq(db, r, job, attempt, sub, keepWorker).runs)
  {
  }

  lemma FinishSettles(db: Db, r: RunId, status: RunStatus)
    requires status != Running
    ensures Settles(db.runs, FinishRun(db, r, status).runs) && FinishRun(db, r, status).runs.Keys == db.runs.Keys
  {
    if r in db.runs {
      OneSettles(db.runs, r, status);
      hide Settles;
    }
  }

  lemma OneSettles(runs: Runs, r: RunId, status: RunStatus)
    requires status != Running && r in runs
    ensures Settles(runs, runs[r := runs[r].(status := status, lock := None)])
  {
  }

  lemma SettlesTwice(runs: Runs, runs': Runs, runs'': Runs)
    requires Settles(runs, runs') && Settles(runs', runs'') && runs'.Keys == runs.Keys
    ensures Settles(runs, runs'')
  {
  }

  lemma RetrySettles(db: Db, w: E.Worker, id: RunId)
    requires w.phase.Busy? && w.phase.stage.Retrying? && id !in db.runs
    ensures Settles(db.runs, E.ScheduleRetry(db, w, id).db.runs)
  {
    hide Settles, FinishRun, InsertRun;
    var t := w.phase.ticket;
    var db1 := FinishRun(db, t.run, Failed);
    FinishSettles(db, t.run, Failed);
    InsertSettles(db1, id, t.job, t.attempt + 1, Some(w.phase.stage.after));
    SettlesTwice(db.runs, db1.runs, E.ScheduleRetry(db, w, id).db.runs);
  }

  lemma DagSettles(db: Db, w: E.Worker)
    requires w.phase.Busy?
    ensures Settles(db.runs, E.MarkDagCancelled(db, w).db.runs)
  {
    hide Settles, FinishRun, SetJobStatus;
    var db1 := FinishRun(db, w.phase.ticket.run, Failed);
    FinishSettles(db, w.phase.ticket.run, Failed);
    JobFrame(db1, w.phase.ticket.job, Dropped);
  }

  lemma InsertSettles(db: Db, id: RunId, job: JobId, attempt: Attempt, after: Option<Time>)
    requires id !in db.runs
    ensures Settles(db.runs, InsertRun(db, id, job, attempt, after).runs)
  {
  }

  lemma FollowUpSettles(db: Db, p: R.Phase, id: RunId)
    requires p.Holding? && id !in db.runs
    ensures Settles(db.runs, R.FollowUp(db, p, id).db.runs)
  {
    hide MoveToDlq, InsertRun;
    var s := p.stub;
    var db1 := db.(h := db.h.(resolved := db.h.resolved + {s.run}));
    if s.sub.Some? {
      DlqSettles(db1, s.run, s.job, s.attempt, s.sub.value, false);
      InsertSettles(db1, id, s.job, s.attempt + 1, None);
    }
  }

  /** A cancelled job's PENDING runs had no lease to lose. */
  lemma OrphanSettles(db: Db, p: R.Phase)
    requires p.Judging? && p.jobs != [] && LeasesOk(db.runs, db.h.claims)
    ensures Settles(db.runs, R.JudgeNext(db, p).db.runs)
  {
    hide R.Judge;
  }

  lemma ReapSettles(db: Db, me: WorkerId, p: R.Phase)
    requires p.Reaping? && p.ids != []
    ensures Settles(db.runs, R.ReapNext(db, me, p).db.runs)
  {
  }

  lemma RecRecorded(db: Db, me: WorkerId, p: R.Phase, y: RecStep)
    requires Recorded(db) && Booked(db) && RecEnabled(db, p, y)
    ensures var db' := RecApply(db, me, p, y).db; LeasesOk(db'.runs, db'.h.claims) && PaymentsOk(db'.runs, db'.keys)
  {
    hide LeasesOk, PaymentsOk, EntriesOk, Booked, Settles, R.FollowUp, R.JudgeNext, R.ReapNext;
    var db' := RecApply(db, me, p, y).db;
    RecFrames(db, me, p, y);
    match y
    case Reap =>
      ReapSettles(db, me, p);
      SettlesKeeps(db, db'.runs);
    case Resolve(id) =>
      FollowUpSettles(db, p, id);
      SettlesKeeps(db, db'.runs);
    case OrphanEval =>
      OrphanSettles(db, p);
      SettlesKeeps(db, db'.runs);
    case _ =>
  }

  lemma InsertJobSettles(db: Db, j: JobId, run: RunId, row: JobRow)
    requires run !in db.runs
    ensures Settles(db.runs, S.InsertJob(db, j, run, row).runs)
  {
  }

  lemma EnvRecorded(m: Mode, db: Db, e: EnvStep)
    requires Recorded(db) && Booked(db) && EnvEnabled(m, db, e)
    ensures var db' := EnvApply(db, e); LeasesOk(db'.runs, db'.h.claims) && PaymentsOk(db'.runs, db'.keys)
  {
    hide LeasesOk, PaymentsOk, EntriesOk, Booked, Settles, S.InsertJob;
    var db' := EnvApply(db, e);
    EnvFrames(m, db, e);
    match e
    case AddJob(j, run, row) =>
      InsertJobSettles(db, j, run, row);
      SettlesKeeps(db, db'.runs);
    case Schedule(x, _, j, run, epoch) =>
      InsertJobSettles(db, j, run, JobRow(x, db.subs[x].nextFire.value, [], Ready, epoch));
      SettlesKeeps(db, db'.runs);
    case _ =>
  }

  lemma PersistRecorded(db: Db, w: E.Worker)
    requires LeasesOk(db.runs, db.h.claims) && PaymentsOk(db.runs, db.keys) && w.phase.Busy? && w.phase.stage.Persisting?
    requires w.phase.ticket.run in db.runs && db.runs[w.phase.ticket.run].attempt == w.phase.ticket.attempt
    ensures var db' := E.PersistSuccess(db, w).db; LeasesOk(db'.runs, db'.h.claims) && PaymentsOk(db'.runs, db'.keys)
  {
  }

  lemma ClaimRecorded(db: Db, me: WorkerId, w: E.Worker)
    requires Sound(db) && LeasesOk(db.runs, db.h.claims) && PaymentsOk(db.runs, db.keys) && w.phase.Idle? && w.batch != []
    ensures var db' := E.ClaimNext(db, me, w).db; LeasesOk(db'.runs, db'.h.claims) && PaymentsOk(db'.runs, db'.keys)
  {
    hide Sound;
    if w.batch[0] in db.runs && db.runs[w.batch[0]].status == Pending {
      NotYetClaimed(db, w.batch[0]);
    }
  }

  lemma ExecRecorded(m: Mode, db: Db, me: WorkerId, w: E.Worker, x: ExecStep)
    requires Sound(db) && Recorded(db) && Booked(db) && ExecOk(db, me, w) && ExecEnabled(m, db, w, x)
    ensures var db' := ExecApply(m, db, me, w, x).db; LeasesOk(db'.runs, db'.h.claims) && PaymentsOk(db'.runs, db'.keys)
  {
    hide Sound, LeasesOk, PaymentsOk, EntriesOk, Booked, Settles;
    hide E.ClaimNext, E.ReceiveReply, E.PersistSuccess, E.ScheduleRetry, E.MarkDagCancelled, E.Answers, MoveToDlq;
    var db' := ExecApply(m, db, me, w, x).db;
    ExecFrames(m, db, me, w, x);
    match x
    case ClaimNext => ClaimRecorded(db, me, w);
    case Persist => PersistRecorded(db, w);
    case DagCancel =>
      DagSettles(db, w);
      SettlesKeeps(db, db'.runs);
    case Retry(id) =>
      RetrySettles(db, w, id);
      SettlesKeeps(db, db'.runs);
    case Bury =>
      var t := w.phase.ticket;
      DlqSettles(db, t.run, t.job, t.attempt, t.sub, true);
      SettlesKeeps(db, db'.runs);
    case _ =>
  }

  // ---------- dead letters ----------

  lemma EntriesGrow(db: Db, db': Db)
    requires EntriesOk(db) && Grows(db, db') && db'.dlq == db.dlq
    ensures EntriesOk(db')
  {
  }

  lemma EntryAppended(db: Db, db': Db, e: DlqEntry)
    requires EntriesOk(db) && Grows(db, db') && db'.dlq == db.dlq + [e] && EntryOk(db.runs, db.jobs, e)
    ensures EntriesOk(db')
  {
    forall n | 0 <= n < |db'.dlq| ensures EntryOk(db'.runs, db'.jobs, db'.dlq[n]) {
      assert EntryOk(db.runs, db.jobs, if n < |db.dlq| then db.dlq[n] else e);
    }
  }

  lemma DlqAppends(db: Db, r: RunId, job: JobId, attempt: Attempt, sub: SubId, keepWorker: bool)
    requires r in db.runs && sub in db.subs
    ensures MoveToDlq(db, r, job, attempt, sub, keepWorker).dlq == db.dlq + [DlqEntry(r, job, sub, attempt)]
  {
  }

  lemma ExecEntries(m: Mode, db: Db, me: WorkerId, w: E.Worker, x: ExecStep)
    requires EntriesOk(db) && ExecOk(db, me, w) && ExecEnabled(m, db, w, x) && Grows(db, ExecApply(m, db, me, w, x).db)
    ensures EntriesOk(ExecApply(m, db, me, w, x).db)
  {
    hide EntriesOk, Grows, ExecApply;
    var db' := ExecApply(m, db, me, w, x).db;
    ExecFrames(m, db, me, w, x);
    if x.Bury? {
      var t := w.phase.ticket;
      BuryIs(m, db, me, w);
      DlqAppends(db, t.run, t.job, t.attempt, t.sub, true);
      EntryAppended(db, db', DlqEntry(t.run, t.job, t.sub, t.attempt));
    } else {
      EntriesGrow(db, db');
    }
  }

  lemma BuryIs(m: Mode, db: Db, me: WorkerId, w: E.Worker)
    requires ExecEnabled(m, db, w, Bury)
    ensures var t := w.phase.ticket; ExecApply(m, db, me, w, Bury).db == MoveToDlq(db, t.run, t.job, t.attempt, t.sub, true)
  {
    hide MoveToDlq;
  }

  lemma FollowUpEntries(db: Db, me: WorkerId, p: R.Phase, id: RunId)
    requires EntriesOk(db) && RecOk(db, me, p) && p.Holding? && Grows(db, R.FollowUp(db, p, id).db)
    ensures EntriesOk(R.FollowUp(db, p, id).db)
  {
    hide EntriesOk, Grows, MoveToDlq, InsertRun;
    var s := p.stub;
    var db1, db' := db.(h := db.h.(resolved := db.h.resolved + {s.run})), R.FollowUp(db, p, id).db;
    if s.policy.IsExhausted(s.attempt) {
      DlqAppends(db1, s.run, s.job, s.attempt, s.sub.value, false);
      EntryAppended(db, db', DlqEntry(s.run, s.job, s.sub.value, s.attempt));
    } else {
      InsertFrame(db1, id, s.job, s.attempt + 1, None);
      EntriesGrow(db, db');
    }
  }

  lemma RecEntries(db: Db, me: WorkerId, p: R.Phase, y: RecStep)
    requires EntriesOk(db) && RecOk(db, me, p) && RecEnabled(db, p, y) && Grows(db, RecApply(db, me, p, y).db)
    ensures EntriesOk(RecApply(db, me, p, y).db)
  {
    hide EntriesOk, Grows, R.FollowUp, R.JudgeNext;
    if y.Resolve? {
      FollowUpEntries(db, me, p, y.run);
    } else {
      RecFrames(db, me, p, y);
      EntriesGrow(db, RecApply(db, me, p, y).db);
    }
  }

  // ---------- whole runs ----------

  lemma RecordedStep(m: Mode, s: Sys, l: Label)
    requires Inv(s) && PayInv(s) && Recorded(s.db) && Enabled(m, s, l)
    ensures Recorded(Apply(m, s, l).db)
  {
    hide Sound, Booked, Promises, Grows, LeasesOk, PaymentsOk, EntriesOk, ExecOk, RecOk, ExecBooked, Tracked;
    hide EnvApply, ExecApply, RecApply, EnvEnabled, ExecEnabled, RecEnabled;
    Step(m, s, l);
    match l
    case Env(e) =>
      EnvRecorded(m, s.db, e);
      EnvFrames(m, s.db, e);
      EntriesGrow(s.db, Apply(m, s, l).db);
    case Exec(w, x) =>
      ExecRecorded(m, s.db, w, s.execs[w], x);
      ExecEntries(m, s.db, w, s.execs[w], x);
    case Rec(w, y) =>
      RecRecorded(s.db, w, s.recs[w], y);
      RecEntries(s.db, w, s.recs[w], y);
  }

  lemma {:induction false} RecordedAlways(m: Mode, ss: seq<Sys>, ls: seq<Label>, i: nat)
    requires Trace(m, ss, ls) && i < |ss|
    ensures Recorded(ss[i].db)
  {
    hide Inv, PayInv, Apply, Enabled;
    if i > 0 {
      hide Recorded;
      RecordedAlways(m, ss, ls, i - 1);
      PayAlways(m, ss, ls, i - 1);
      RecordedStep(m, ss[i - 1], ls[i - 1]);
    }
  }

  // ---------- workers and lease lengths ----------

  /** No claim or recovery is made, no row changes its worker, and none is new with one. */
  ghost predicate SameWorkers(db: Db, db': Db) {
    && db'.h.claims == db.h.claims && db'.h.reaped == db.h.reaped && db'.cfg == db.cfg
    && forall r :: r in db'.runs ==> db'.runs[r].worker == if r in db.runs then db.runs[r].worker else None
  }

  ghost predicate Owned(db: Db) {
    WorkersOk(db.runs, db.h.claims, db.h.reaped) && LeaseLengths(db.h.claims, db.cfg)
  }

  lemma SameOwned(db: Db, db': Db)
    requires Owned(db) && Sound(db) && SameWorkers(db, db')
    ensures Owned(db')
  {
    hide RunIndex, NoGaps, LiveTop, References, JobIndex, ReapsOk, PoliciesOk;
  }

  lemma SameRunsOwned(db: Db, db': Db)
    requires Owned(db) && db'.runs == db.runs && db'.h.claims == db.h.claims && db'.h.reaped == db.h.reaped && db'.cfg == db.cfg
    ensures Owned(db')
  {
  }

  lemma ClaimOwned(db: Db, me: WorkerId, w: E.Worker)
    requires Owned(db) && Sound(db) && w.phase.Idle? && w.batch != []
    ensures Owned(E.ClaimNext(db, me, w).db)
  {
    hide RunIndex, NoGaps, LiveTop, References, JobIndex, PoliciesOk;
  }

  lemma ReapOwned(db: Db, me: WorkerId, p: R.Phase)
    requires Owned(db) && p.Reaping? && p.ids != []
    ensures Owned(R.ReapNext(db, me, p).db)
  {
  }

  lemma PersistWorkers(db: Db, w: E.Worker)
    requires w.phase.Busy? && w.phase.stage.Persisting?
    ensures SameWorkers(db, E.PersistSuccess(db, w).db)
  {
    hide E.PersistSuccess;
    PersistFrame(db, w);
    PersistRuns(db, w);
  }

  lemma FinishWorkers(db: Db, r: RunId, status: RunStatus)
    ensures SameWorkers(db, FinishRun(db, r, status)) && FinishRun(db, r, status).runs.Keys == db.runs.Keys
  {
  }

  lemma InsertWorkers(db: Db, id: RunId, job: JobId, attempt: Attempt, after: Option<Time>)
    requires id !in db.runs
    ensures SameWorkers(db, InsertRun(db, id, job, attempt, after))
  {
  }

  lemma WorkersTwice(db: Db, db1: Db, db2: Db)
    requires SameWorkers(db, db1) && SameWorkers(db1, db2) && db1.runs.Keys == db.runs.Keys
    ensures SameWorkers(db, db2)
  {
  }

  lemma RetryWorkers(db: Db, w: E.Worker, id: RunId)
    requires w.phase.Busy? && w.phase.stage.Retrying? && id !in db.runs
    ensures SameWorkers(db, E.ScheduleRetry(db, w, id).db)
  {
    hide SameWorkers, FinishRun, InsertRun;
    var t := w.phase.ticket;
    var db1 := FinishRun(db, t.run, Failed);
    FinishWorkers(db, t.run, Failed);
    InsertWorkers(db1, id, t.job, t.attempt + 1, Some(w.phase.stage.after));
    WorkersTwice(db, db1, E.ScheduleRetry(db, w, id).db);
  }

  lemma DagWorkers(db: Db, w: E.Worker)
    requires w.phase.Busy?
    ensures SameWorkers(db, E.MarkDagCancelled(db, w).db)
  {
    hide FinishRun, SetJobStatus;
    FinishWorkers(db, w.phase.ticket.run, Failed);
    JobFrame(FinishRun(db, w.phase.ticket.run, Failed), w.phase.ticket.job, Dropped);
  }

  lemma DlqWorkers(db: Db, r: RunId, job: JobId, attempt: Attempt, sub: SubId, keepWorker: bool)
    requires keepWorker || (r in db.runs && db.runs[r].worker.None?)
    ensures SameWorkers(db, MoveToDlq(db, r, job, attempt, sub, keepWorker))
  {
  }

  lemma ExecOwned(m: Mode, db: Db, me: WorkerId, w: E.Worker, x: ExecStep)
    requires Owned(db) && Sound(db) && ExecEnabled(m, db, w, x)
    ensures Owned(ExecApply(m, db, me, w, x).db)
  {
    hide Sound, Owned, SameWorkers, E.ClaimNext, E.ReceiveReply, E.PersistSuccess, E.ScheduleRetry, E.MarkDagCancelled, E.Answers, MoveToDlq;
    var db' := ExecApply(m, db, me, w, x).db;
    match x
    case ClaimNext => ClaimOwned(db, me, w);
    case Persist =>
      PersistWorkers(db, w);
      SameOwned(db, db');
    case DagCancel =>
      DagWorkers(db, w);
      SameOwned(db, db');
    case Retry(id) =>
      RetryWorkers(db, w, id);
      SameOwned(db, db');
    case Bury =>
      var t := w.phase.ticket;
      DlqWorkers(db, t.run, t.job, t.attempt, t.sub, true);
      SameOwned(db, db');
    case _ =>
      ExecFrames(m, db, me, w, x);
      SameRunsOwned(db, db');
  }

  lemma FollowUpWorkers(db: Db, me: WorkerId, p: R.Phase, id: RunId)
    requires Owned(db) && RecOk(db, me, p) && p.Holding? && id !in db.runs
    ensures SameWorkers(db, R.FollowUp(db, p, id).db)
  {
    hide MoveToDlq, InsertRun;
    var s := p.stub;
    var db1 := db.(h := db.h.(resolved := db.h.resolved + {s.run}));
    assert WorkerOk(db.runs[s.run], s.run, db.h.claims, db.h.reaped);
    DlqWorkers(db1, s.run, s.job, s.attempt, s.sub.value, false);
    InsertWorkers(db1, id, s.job, s.attempt + 1, None);
  }

  lemma FailPendingWorkers(runs: Runs, j: JobId)
    ensures var runs' := R.FailPending(runs, j); runs'.Keys == runs.Keys && forall r :: r in runs ==> runs'[r].worker == runs[r].worker
  {
  }

  lemma JudgeRuns(db: Db, p: R.Phase)
    requires p.Judging? && p.jobs != []
    ensures R.JudgeNext(db, p).db.runs == db.runs || R.JudgeNext(db, p).db.runs == R.FailPending(db.runs, p.jobs[0])
  {
    hide R.Judge, R.FailPending;
  }

  lemma OrphanWorkers(db: Db, p: R.Phase)
    requires p.Judging? && p.jobs != []
    ensures SameWorkers(db, R.JudgeNext(db, p).db)
  {
    hide R.JudgeNext, R.FailPending;
    JudgeFrame(db, p);
    JudgeRuns(db, p);
    FailPendingWorkers(db.runs, p.jobs[0]);
  }

  lemma RecOwned(db: Db, me: WorkerId, p: R.Phase, y: RecStep)
    requires Owned(db) && Sound(db) && RecOk(db, me, p) && RecEnabled(db, p, y)
    ensures Owned(RecApply(db, me, p, y).db)
  {
    hide Sound, Owned, SameWorkers, RecOk, R.FollowUp, R.JudgeNext, R.ReapNext;
    var db' := RecApply(db, me, p, y).db;
    match y
    case Reap => ReapOwned(db, me, p);
    case Resolve(id) =>
      FollowUpWorkers(db, me, p, id);
      SameOwned(db, db');
    case OrphanEval =>
      OrphanWorkers(db, p);
      SameOwned(db, db');
    case _ =>
      RecFrames(db, me, p, y);
      SameRunsOwned(db, db');
  }

  lemma InsertJobWorkers(db: Db, j: JobId, run: RunId, row: JobRow)
    requires run !in db.runs
    ensures forall r :: r in S.InsertJob(db, j, run, row).runs ==>
      S.InsertJob(db, j, run, row).runs[r].worker == if r in db.runs then db.runs[r].worker else None
  {
  }

  lemma EnvOwned(m: Mode, db: Db, e: EnvStep)
    requires Owned(db) && Sound(db) && EnvEnabled(m, db, e)
    ensures Owned(EnvApply(db, e))
  {
    hide Sound, Owned, S.InsertJob;
    EnvFrames(m, db, e);
    match e
    case AddJob(j, run, row) =>
      InsertJobWorkers(db, j, run, row);
      SameOwned(db, EnvApply(db, e));
    case Schedule(x, _, j, run, epoch) =>
      InsertJobWorkers(db, j, run, JobRow(x, db.subs[x].nextFire.value, [], Ready, epoch));
      SameOwned(db, EnvApply(db, e));
    case _ => SameRunsOwned(db, EnvApply(db, e));
  }

  lemma OwnedStep(m: Mode, s: Sys, l: Label)
    requires Inv(s) && Owned(s.db) && Enabled(m, s, l)
    ensures Owned(Apply(m, s, l).db)
  {
    hide Sound, Owned, ExecOk, RecOk, Tracked, EnvApply, ExecApply, RecApply, EnvEnabled, ExecEnabled, RecEnabled;
    match l
    case Env(e) => EnvOwned(m, s.db, e);
    case Exec(w, x) => ExecOwned(m, s.db, w, s.execs[w], x);
    case Rec(w, y) => RecOwned(s.db, w, s.recs[w], y);
  }

  lemma {:induction false} OwnedAlways(m: Mode, ss: seq<Sys>, ls: seq<Label>, i: nat)
    requires Trace(m, ss, ls) && i < |ss|
    ensures Owned(ss[i].db)
  {
    hide Inv, Apply, Enabled;
    if i > 0 {
      hide Owned;
      OwnedAlways(m, ss, ls, i - 1);
      Always(m, ss, ls, i - 1);
      OwnedStep(m, ss[i - 1], ls[i - 1]);
    }
  }

  /** In every reachable state a row names the worker that claimed it, from the claim until recovery takes the run, and no worker
      otherwise; and a lease ends one lock timeout after its claim. */
  lemma RowsNameTheirWorkers(m: Mode, ss: seq<Sys>, ls: seq<Label>, i: nat, r: RunId)
    requires Trace(m, ss, ls) && i < |ss| && r in ss[i].db.runs
    ensures var db := ss[i].db;
      && db.runs[r].worker == (if r in db.h.claims && r !in db.h.reaped then Some(db.h.claims[r].worker) else None)
      && (r in db.h.claims ==> db.h.claims[r].lease == db.h.claims[r].at + db.cfg.lockTimeout)
  {
    hide Apply, Enabled;
    OwnedAlways(m, ss, ls, i);
    assert WorkerOk(ss[i].db.runs[r], r, ss[i].db.h.claims, ss[i].db.h.reaped);
  }

  /** A claim takes the next id of the batch exactly when its run is still PENDING, whoever else had it in a batch; then the run is
      RUNNING under the claiming worker's name until one lock timeout from now. */
  lemma ClaimedIff(m: Mode, ss: seq<Sys>, ls: seq<Label>, i: nat)
    requires Trace(m, ss, ls) && i < |ls| && ls[i].Exec? && ls[i].x.ClaimNext?
    ensures var s, s', w := ss[i], ss[i + 1], ls[i].w;
      && s.execs[w].batch != [] && w in s'.execs && s'.execs[w].batch == s.execs[w].batch[1..]
      && var r := s.execs[w].batch[0];
         if r in s.db.runs && s.db.runs[r].status == Pending then
           && s'.execs[w].phase.Busy? && s'.execs[w].phase.ticket.run == r
           && r in s'.db.runs && s'.db.runs[r].status == Running && s'.db.runs[r].worker == Some(w)
           && s'.db.runs[r].lock == Some(s.db.now + s.db.cfg.lockTimeout)
         else
           s'.db == s.db && s'.execs[w].phase.Idle?
  {
    hide Sound, Apply, ExecOk, RecOk, Tracked;
    Always(m, ss, ls, i);
    ClaimedRow(m, ss[i], ls[i]);
  }

  lemma ClaimedRow(m: Mode, s: Sys, l: Label)
    requires Inv(s) && Enabled(m, s, l) && l.Exec? && l.x.ClaimNext?
    ensures var s', w := Apply(m, s, l), l.w;
      && s.execs[w].batch != [] && w in s'.execs && s'.execs[w].batch == s.execs[w].batch[1..]
      && var r := s.execs[w].batch[0];
         if r in s.db.runs && s.db.runs[r].status == Pending then
           && s'.execs[w].phase.Busy? && s'.execs[w].phase.ticket.run == r
           && r in s'.db.runs && s'.db.runs[r].status == Running && s'.db.runs[r].worker == Some(w)
           && s'.db.runs[r].lock == Some(s.db.now + s.db.cfg.lockTimeout)
         else
           s'.db == s.db && s'.execs[w].phase.Idle?
  {
    hide Sound, ExecOk, RecOk, Tracked;
    var r := s.execs[l.w].batch[0];
    if r in s.db.runs {
      ReferenceOf(s.db, r);
    }
  }

  /** In every reachable state: a row has a lease exactly while it is RUNNING, and then its claim's; a row shows a payment
      exactly when the key of its attempt is stored, and then the stored one, which is the bank's. */
  lemma RowsTellTheTruth(m: Mode, ss: seq<Sys>, ls: seq<Label>, i: nat, r: RunId)
    requires Trace(m, ss, ls) && i < |ss| && r in ss[i].db.runs
    ensures var db, row, key := ss[i].db, ss[i].db.runs[r], KeyOf(ss[i].db, r);
      && LeaseOk(row, r, db.h.claims)
      && (row.payment.Some? <==> key in db.keys)
      && (row.payment.Some? ==> key in db.bank && row.payment == Some(db.keys[key]) && db.keys[key] == db.bank[key])
  {
    hide Inv, Apply, Enabled, ExecBooked, CallsOk, CauseOk;
    RecordedAlways(m, ss, ls, i);
    PayAlways(m, ss, ls, i);
    assert PaymentOk(ss[i].db.runs[r], r, ss[i].db.keys);
  }

  /** In every reachable state a dead letter names a run with its job, its attempt and its subscription. */
  lemma DeadLettersNameTheirRuns(m: Mode, ss: seq<Sys>, ls: seq<Label>, i: nat, n: nat)
    requires Trace(m, ss, ls) && i < |ss| && n < |ss[i].db.dlq|
    ensures EntryOk(ss[i].db.runs, ss[i].db.jobs, ss[i].db.dlq[n])
  {
    RecordedAlways(m, ss, ls, i);
    hide Apply, Enabled;
  }
}
