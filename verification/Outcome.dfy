/** What the tables say about a job when no executor outlives its lease: the rows, the keys and the
    dead-letter queue agree, and every earlier attempt is a closed failure. */
module Outcome {
  import opened Domain
  import opened Tables
  import opened Protocol
  import opened Safety
  import opened Payments
  import opened Leases
  import E = Executor
  import R = Recovery
  import S = Scheduler

  /** Every attempt but the last is FAILED. */
  ghost predicate EarlierFailed(runs: Runs, idx: Index) {
    forall r :: r in runs && (runs[r].job, runs[r].attempt + 1) in idx ==> runs[r].status == Failed
  }

  /** SUCCEEDED rows and stored keys are the same thing. */
  ghost predicate PaidRows(runs: Runs, keys: KeyMap) {
    forall r :: r in runs ==> (runs[r].status == Succeeded <==> ForRun(r, runs[r].attempt) in keys)
  }

  predicate InDlq(dlq: seq<DlqEntry>, r: RunId) { exists i :: 0 <= i < |dlq| && dlq[i].run == r }

  /** DEAD rows and dead-letter entries are in bijection. */
  ghost predicate DeadRows(runs: Runs, dlq: seq<DlqEntry>) {
    && (forall i :: 0 <= i < |dlq| ==> dlq[i].run in runs && runs[dlq[i].run].status == Dead)
    && (forall i, k :: 0 <= i < k < |dlq| ==> dlq[i].run != dlq[k].run)
    && (forall r :: r in runs && runs[r].status == Dead ==> InDlq(dlq, r))
  }

  /** A recovered run that has not been followed up is FAILED and still the last attempt. */
  ghost predicate RecoveringRows(runs: Runs, idx: Index, reaped: map<RunId, WorkerId>, resolved: set<RunId>) {
    forall r :: r in reaped && r !in resolved && r in runs ==>
      runs[r].status == Failed && (runs[r].job, runs[r].attempt + 1) !in idx
  }

  ghost predicate Tidy(db: Db) {
    && EarlierFailed(db.runs, db.byAttempt) && PaidRows(db.runs, db.keys) && DeadRows(db.runs, db.dlq)
    && RecoveringRows(db.runs, db.byAttempt, db.h.reaped, db.h.resolved)
  }

  /** What a finishing transaction finds inside its lease. */
  ghost predicate Fresh(db: Db, t: E.Ticket) {
    && t.run in db.runs && db.runs[t.run].job == t.job && db.runs[t.run].attempt == t.attempt
    && db.runs[t.run].status == Running && IsTop(db, t.run) && t.run !in db.h.reaped
    && ForRun(t.run, t.attempt) !in db.keys
  }

  lemma FreshInLease(db: Db, me: WorkerId, w: E.Worker)
    requires Sound(db) && ExecOk(db, me, w) && ExecBooked(db, w) && InLease(db, w)
    requires w.phase.Busy? && db.now <= w.phase.ticket.lease
    ensures Fresh(db, w.phase.ticket)
  {
    hide RunIndex, NoGaps, References, JobIndex, ClaimsOk, PoliciesOk;
    assert Live(db.runs[w.phase.ticket.run]);
  }

  lemma PersistTidy(db: Db, w: E.Worker)
    requires Tidy(db) && w.phase.Busy? && w.phase.stage.Persisting? && Fresh(db, w.phase.ticket)
    ensures Tidy(E.PersistSuccess(db, w).db)
  {
  }

  lemma FailTidy(db: Db, t: E.Ticket)
    requires Tidy(db) && Fresh(db, t)
    ensures Tidy(FinishRun(db, t.run, Failed))
  {
  }

  lemma DlqAppend(runs: Runs, dlq: seq<DlqEntry>, r: RunId, row: RunRow, e: DlqEntry)
    requires DeadRows(runs, dlq) && r in runs && runs[r].status != Dead && row.status == Dead && e.run == r
    ensures DeadRows(runs[r := row], dlq + [e])
  {
    var dlq' := dlq + [e];
    assert dlq'[|dlq|] == e;
    forall q | q in runs[r := row] && runs[r := row][q].status == Dead ensures InDlq(dlq', q) {
      if q != r {
        var i :| 0 <= i < |dlq| && dlq[i].run == q;
        assert dlq'[i].run == q;
      }
    }
  }

  lemma DlqTidy(db: Db, r: RunId, job: JobId, attempt: Attempt, sub: SubId, keepWorker: bool)
    requires Tidy(db) && r in db.runs && sub in db.subs && IsTop(db, r) && (r in db.h.reaped ==> r in db.h.resolved)
    requires db.runs[r].status == Running || db.runs[r].status == Failed
    requires ForRun(r, db.runs[r].attempt) !in db.keys
    ensures Tidy(MoveToDlq(db, r, job, attempt, sub, keepWorker))
  {
    hide InDlq;
    var row := MoveToDlq(db, r, job, attempt, sub, keepWorker).runs[r];
    DlqAppend(db.runs, db.dlq, r, row, DlqEntry(r, job, sub, attempt));
    hide DeadRows;
  }

  lemma InsertEarlier(runs: Runs, idx: Index, id: RunId, row: RunRow)
    requires EarlierFailed(runs, idx) && RunIndex(runs, idx) && NoGaps(idx) && id !in runs && (row.job, row.attempt) !in idx
    requires row.attempt == 1 || ((row.job, row.attempt - 1) in idx && runs[idx[(row.job, row.attempt - 1)]].status == Failed)
    ensures EarlierFailed(runs[id := row], idx[(row.job, row.attempt) := id])
  {
    assert !HasAttempt(idx, row.job, row.attempt + 1);
  }

  lemma InsertRecovering(runs: Runs, idx: Index, reaped: map<RunId, WorkerId>, resolved: set<RunId>, id: RunId, row: RunRow)
    requires RecoveringRows(runs, idx, reaped, resolved) && RunIndex(runs, idx) && id !in runs && id !in reaped
    requires row.attempt > 1 && (row.job, row.attempt - 1) in idx ==>
               idx[(row.job, row.attempt - 1)] in reaped ==> idx[(row.job, row.attempt - 1)] in resolved
    ensures RecoveringRows(runs[id := row], idx[(row.job, row.attempt) := id], reaped, resolved)
  {
  }

  lemma InsertPaidDead(runs: Runs, keys: KeyMap, bank: KeyMap, called: set<RunId>, dlq: seq<DlqEntry>, id: RunId, row: RunRow)
    requires PaidRows(runs, keys) && DeadRows(runs, dlq) && KeysOk(runs, keys, bank, called) && id !in runs && row.status == Pending
    ensures PaidRows(runs[id := row], keys) && DeadRows(runs[id := row], dlq)
  {
  }

  lemma NotYetReaped(db: Db, id: RunId)
    requires Sound(db) && id !in db.runs
    ensures id !in db.h.reaped
  {
    hide RunIndex, NoGaps, LiveTop, References, JobIndex, ClaimsOk, PoliciesOk;
  }

  lemma InsertTidy(db: Db, id: RunId, job: JobId, attempt: Attempt, after: Option<Time>)
    requires Tidy(db) && Sound(db) && Booked(db) && id !in db.runs
    requires attempt > 1 ==>
      && (job, attempt - 1) in db.byAttempt
      && var p := db.byAttempt[(job, attempt - 1)];
         p in db.runs && db.runs[p].status == Failed && (p in db.h.reaped ==> p in db.h.resolved)
    ensures Tidy(InsertRun(db, id, job, attempt, after))
  {
    hide RunIndex, NoGaps, LiveTop, References, JobIndex, ClaimsOk, ReapsOk, PoliciesOk;
    hide EarlierFailed, PaidRows, DeadRows, RecoveringRows, KeysOk, CallsOk, CauseOk;
    if (job, attempt) !in db.byAttempt {
      var row := RunRow(job, attempt, Pending, None, after, None, None);
      NotYetReaped(db, id);
      InsertEarlier(db.runs, db.byAttempt, id, row);
      InsertRecovering(db.runs, db.byAttempt, db.h.reaped, db.h.resolved, id, row);
      InsertPaidDead(db.runs, db.keys, db.bank, db.h.called, db.dlq, id, row);
    }
  }

  lemma RetryTidy(db: Db, w: E.Worker, id: RunId)
    requires w.phase.Busy? && w.phase.stage.Retrying?
    requires Tidy(db) && Sound(db) && Booked(db) && Fresh(db, w.phase.ticket) && id !in db.runs
    ensures Tidy(E.ScheduleRetry(db, w, id).db)
  {
    hide Sound, Booked, Tidy;
    var t := w.phase.ticket;
    var db1 := FinishRun(db, t.run, Failed);
    FailTidy(db, t);
    FinishRunKeeps(db, t.run, Failed);
    FinishBooked(db, t.run, Failed);
    IndexOf(db, t.run);
    InsertTidy(db1, id, t.job, t.attempt + 1, Some(w.phase.stage.after));
  }

  lemma FinishBooked(db: Db, r: RunId, status: RunStatus)
    requires Booked(db)
    ensures Booked(FinishRun(db, r, status))
  {
  }

  lemma ClaimTidy(db: Db, me: WorkerId, w: E.Worker)
    requires Tidy(db) && Sound(db) && w.phase.Idle? && w.batch != []
    ensures Tidy(E.ClaimNext(db, me, w).db)
  {
    hide Sound, InDlq;
    var r := w.batch[0];
    if r in db.runs && db.runs[r].status == Pending {
      NotYetClaimed(db, r);
    }
  }

  lemma SameTidy(db: Db, db': Db)
    requires Tidy(db) && db'.runs == db.runs && db'.byAttempt == db.byAttempt && db'.keys == db.keys && db'.dlq == db.dlq
    requires db'.h.reaped == db.h.reaped && db'.h.resolved == db.h.resolved
    ensures Tidy(db')
  {
    hide EarlierFailed, PaidRows, DeadRows, RecoveringRows;
  }

  lemma ExecTidy(m: Mode, db: Db, me: WorkerId, w: E.Worker, x: ExecStep)
    requires m.leases && Tidy(db) && Sound(db) && Booked(db)
    requires ExecOk(db, me, w) && ExecBooked(db, w) && InLease(db, w) && ExecEnabled(m, db, w, x)
    ensures Tidy(ExecApply(m, db, me, w, x).db)
  {
    hide Sound, Booked, Tidy, ExecBooked, InLease, TicketOk;
    var db' := ExecApply(m, db, me, w, x).db;
    if Finishes(x) {
      FreshInLease(db, me, w);
      var t := w.phase.ticket;
      match x
      case Persist => PersistTidy(db, w);
      case DagCancel =>
        FailTidy(db, t);
        SameTidy(FinishRun(db, t.run, Failed), db');
      case Retry(run) => RetryTidy(db, w, run);
      case Bury => BuryTidy(db, me, w);
    } else if x.ClaimNext? {
      ClaimTidy(db, me, w);
    } else {
      SameTidy(db, db');
    }
  }

  lemma BuryTidy(db: Db, me: WorkerId, w: E.Worker)
    requires Tidy(db) && w.phase.Busy? && ExecOk(db, me, w) && Fresh(db, w.phase.ticket)
    ensures Tidy(E.BuryRun(db, w).db)
  {
    hide Tidy;
    var t := w.phase.ticket;
    DlqTidy(db, t.run, t.job, t.attempt, t.sub, true);
  }

  lemma ReapTidy(db: Db, me: WorkerId, p: R.Phase)
    requires Tidy(db) && Sound(db) && p.Reaping? && p.ids != []
    ensures Tidy(R.ReapNext(db, me, p).db)
  {
    hide Sound, InDlq;
    if R.Stuck(db, p.ids[0], p.asOf) {
      StuckRun(db, p.ids[0], p.asOf);
    }
  }

  lemma ResolvedTidy(db: Db, r: RunId)
    requires Tidy(db)
    ensures Tidy(db.(h := db.h.(resolved := db.h.resolved + {r})))
  {
    hide EarlierFailed, PaidRows, DeadRows;
  }

  lemma ResolveTidy(db: Db, me: WorkerId, p: R.Phase, id: RunId)
    requires Tidy(db) && Sound(db) && Booked(db) && RecOk(db, me, p) && p.Holding? && id !in db.runs
    ensures Tidy(R.FollowUp(db, p, id).db)
  {
    hide Sound, Booked, EarlierFailed, DeadRows;
    var s := p.stub;
    var db1 := db.(h := db.h.(resolved := db.h.resolved + {s.run}));
    assert db.runs[s.run].status == Failed && IsTop(db, s.run) && ForRun(s.run, s.attempt) !in db.keys;
    hide Tidy;
    ResolvedTidy(db, s.run);
    if s.policy.IsExhausted(s.attempt) {
      DlqTidy(db1, s.run, s.job, s.attempt, s.sub.value, false);
    } else {
      IndexOf(db, s.run);
      SoundResolved(db, s.run);
      InsertTidy(db1, id, s.job, s.attempt + 1, None);
    }
  }

  lemma SoundResolved(db: Db, r: RunId)
    requires Sound(db) && Booked(db) && r in db.h.reaped && r !in db.h.resolved && r !in db.h.stranded
    ensures Sound(db.(h := db.h.(resolved := db.h.resolved + {r})))
    ensures Booked(db.(h := db.h.(resolved := db.h.resolved + {r})))
  {
    hide RunIndex, NoGaps, LiveTop, References, JobIndex, ClaimsOk, ReapsOk, PoliciesOk, KeysOk, CallsOk, CauseOk;
    ResolveReaps(db.runs, db.h.claims, db.h.reaped, db.h.resolved, db.h.stranded, db.now, r);
  }

  lemma OrphanTidy(db: Db, j: JobId)
    requires Tidy(db)
    ensures Tidy(R.CancelOrphan(db, j))
  {
    hide InDlq;
  }

  lemma RecTidy(db: Db, me: WorkerId, p: R.Phase, y: RecStep)
    requires Tidy(db) && Sound(db) && Booked(db) && RecOk(db, me, p) && RecEnabled(db, p, y)
    ensures Tidy(RecApply(db, me, p, y).db)
  {
    hide Sound, Booked, Tidy, StubOk, R.CancelOrphan, DeadRuns;
    var db' := RecApply(db, me, p, y).db;
    match y
    case Reap => ReapTidy(db, me, p);
    case Resolve(run) => ResolveTidy(db, me, p, run);
    case OrphanEval => OrphanTidy(db, p.jobs[0]);
    case _ => SameTidy(db, db');
  }

  lemma InsertJobTidy(db: Db, j: JobId, run: RunId, row: JobRow)
    requires Tidy(db) && Sound(db) && Booked(db) && j !in db.jobs && run !in db.runs
    ensures Tidy(S.InsertJob(db, j, run, row))
  {
    hide RunIndex, NoGaps, LiveTop, References, JobIndex, ClaimsOk, ReapsOk, PoliciesOk;
    hide EarlierFailed, PaidRows, DeadRows, RecoveringRows, KeysOk, CallsOk, CauseOk;
    if ForJob(row.sub, row.window) !in db.byWindow && (j, 1) !in db.byAttempt {
      var first := RunRow(j, 1, Pending, None, None, None, None);
      NotYetReaped(db, run);
      InsertEarlier(db.runs, db.byAttempt, run, first);
      InsertRecovering(db.runs, db.byAttempt, db.h.reaped, db.h.resolved, run, first);
      InsertPaidDead(db.runs, db.keys, db.bank, db.h.called, db.dlq, run, first);
    }
  }

  lemma EnvTidy(m: Mode, db: Db, e: EnvStep)
    requires Tidy(db) && Sound(db) && Booked(db) && EnvEnabled(m, db, e)
    ensures Tidy(EnvApply(db, e))
  {
    hide Sound, Booked, Tidy;
    match e
    case AddJob(j, run, row) => InsertJobTidy(db, j, run, row);
    case Schedule(x, _, j, run, epoch) =>
      var row := JobRow(x, db.subs[x].nextFire.value, [], Ready, epoch);
      InsertJobTidy(db, j, run, row);
      SameTidy(S.InsertJob(db, j, run, row), EnvApply(db, e));
    case _ => SameTidy(db, EnvApply(db, e));
  }

  ghost predicate Leased(s: Sys) { Inv(s) && PayInv(s) && LeaseInv(s) && Tidy(s.db) }

  lemma TidyStep(m: Mode, s: Sys, l: Label)
    requires m.leases && Leased(s) && Enabled(m, s, l)
    ensures Leased(Apply(m, s, l))
  {
    hide Sound, Booked, Tidy, Guarantee, InLease, ExecOk, ExecBooked, RecOk;
    hide EnvApply, ExecApply, RecApply, EnvEnabled, ExecEnabled, RecEnabled, Tracked;
    Step(m, s, l);
    PayStep(m, s, l);
    LeaseStep(m, s, l);
    match l
    case Env(e) => EnvTidy(m, s.db, e);
    case Exec(w, x) => ExecTidy(m, s.db, w, s.execs[w], x);
    case Rec(w, y) => RecTidy(s.db, w, s.recs[w], y);
  }

  lemma InitLeased(s: Sys)
    requires Init(s)
    ensures Leased(s)
  {
    hide Sound;
    InitSound(s.db);
  }

  lemma {:induction false} LeasedAlways(m: Mode, ss: seq<Sys>, ls: seq<Label>, i: nat)
    requires m.leases && Trace(m, ss, ls) && i < |ss|
    ensures Leased(ss[i])
  {
    hide Apply, Enabled, Leased;
    if i == 0 {
      InitLeased(ss[0]);
    } else {
      LeasedAlways(m, ss, ls, i - 1);
      TidyStep(m, ss[i - 1], ls[i - 1]);
    }
  }
}
