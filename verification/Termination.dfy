/** Every step that changes a run of a job uses up some of a fixed stock of work, zombies included. */
module Termination {
  import opened Domain
  import opened Tables
  import opened Protocol
  import opened Frames
  import opened Paths
  import opened Safety
  import E = Executor
  import R = Recovery
  import S = Scheduler
  import T = Settlement

  predicate HeldByExec(s: Sys, r: RunId) {
    && r in s.db.h.claims && s.db.h.claims[r].worker in s.execs
    && var w := s.execs[s.db.h.claims[r].worker];
       w.phase.Busy? && w.phase.ticket.run == r
  }

  predicate HeldByRec(s: Sys, r: RunId) {
    && r in s.db.h.reaped && s.db.h.reaped[r] in s.recs
    && var p := s.recs[s.db.h.reaped[r]];
       p.Holding? && p.stub.run == r
  }

  /** What can still happen to a run: its claim, its recovery, and one write of each worker that holds it. */
  function Work(s: Sys, r: RunId): nat
    requires r in s.db.runs
  {
    match s.db.runs[r].status
    case Pending => 4
    case Running => 2 + (if HeldByExec(s, r) then 1 else 0)
    case _ => (if HeldByExec(s, r) then 1 else 0) + (if HeldByRec(s, r) then 1 else 0)
  }

  /** An attempt that has no row yet counts as a whole one. */
  function Slot(s: Sys, j: JobId, n: Attempt): nat {
    if (j, n) !in s.db.byAttempt then 4
    else var r := s.db.byAttempt[(j, n)]; if r in s.db.runs then Work(s, r) else 0
  }

  function Stock(s: Sys, j: JobId, n: nat): (w: nat)
    ensures w <= 4 * n
  {
    if n == 0 then 0 else (SlotBound(s, j, n); Stock(s, j, n - 1) + Slot(s, j, n))
  }

  lemma SlotBound(s: Sys, j: JobId, n: Attempt)
    ensures Slot(s, j, n) <= 4
  {
  }

  // ---------- one step ----------

  ghost predicate WorkShrinks(s: Sys, s': Sys) {
    && (forall r :: r in s.db.runs ==> r in s'.db.runs && Work(s', r) <= Work(s, r))
    && (forall r :: r in s'.db.runs && r !in s.db.runs ==> s'.db.runs[r].status == Pending)
  }

  ghost predicate UsesUp(s: Sys, s': Sys, q: RunId, j: JobId) {
    q in s.db.runs && q in s'.db.runs && s.db.runs[q].job == j && Work(s', q) < Work(s, q)
  }

  /** The row is new or not what it was. */
  predicate RowChanged(db: Db, db': Db, r: RunId) {
    r in db'.runs && (r in db.runs ==> db.runs[r] != db'.runs[r])
  }

  ghost predicate JobChanged(db: Db, db': Db, j: JobId) {
    exists r :: RowChanged(db, db', r) && db'.runs[r].job == j
  }

  ghost predicate ChangeUsesUp(s: Sys, s': Sys) {
    forall r :: RowChanged(s.db, s'.db, r) && s'.db.runs[r].job in s.db.jobs ==>
      exists q :: UsesUp(s, s', q, s'.db.runs[r].job)
  }

  ghost predicate Spends(s: Sys, s': Sys) { WorkShrinks(s, s') && ChangeUsesUp(s, s') }

  /** Only the row of `q` was written, it is not live now, and the new rows are PENDING attempts of its job. */
  ghost predicate WritesOnly(db: Db, db': Db, q: RunId) {
    && q in db.runs && q in db'.runs && db'.runs[q].job == db.runs[q].job
    && (!Live(db'.runs[q]) || db'.runs[q] == db.runs[q])
    && (forall r :: r in db.runs && r != q ==> r in db'.runs && db'.runs[r] == db.runs[r])
    && (forall r :: r in db'.runs && r !in db.runs ==> db'.runs[r].status == Pending && db'.runs[r].job == db.runs[q].job)
    && db'.h.claims == db.h.claims && db'.h.reaped == db.h.reaped
  }

  /** The worker that held `q` writes its row, and adds attempts, in the step that lets go of it. */
  lemma LetGo(s: Sys, s': Sys, q: RunId)
    requires WritesOnly(s.db, s'.db, q)
    requires s.db.runs[q].status == Running || !Live(s.db.runs[q])
    requires forall r :: HeldByExec(s', r) ==> HeldByExec(s, r)
    requires forall r :: HeldByRec(s', r) ==> HeldByRec(s, r)
    requires (HeldByExec(s, q) && !HeldByExec(s', q)) || (HeldByRec(s, q) && !HeldByRec(s', q) && !Live(s.db.runs[q]))
    ensures Spends(s, s')
  {
    hide HeldByExec, HeldByRec;
    assert UsesUp(s, s', q, s.db.runs[q].job);
  }

  lemma Idles(s: Sys, s': Sys)
    requires s'.db.runs == s.db.runs
    requires forall r :: HeldByExec(s', r) ==> HeldByExec(s, r)
    requires forall r :: HeldByRec(s', r) ==> HeldByRec(s, r)
    ensures Spends(s, s')
  {
    hide HeldByExec, HeldByRec;
  }

  lemma PersistWrites(db: Db, w: E.Worker)
    requires w.phase.Busy? && w.phase.stage.Persisting? && w.phase.ticket.run in db.runs
    ensures WritesOnly(db, E.PersistSuccess(db, w).db, w.phase.ticket.run) && E.PersistSuccess(db, w).w.phase.Idle?
  {
    hide E.PersistSuccess;
    PersistFrame(db, w);
    PersistRuns(db, w);
  }

  lemma RetryWrites(db: Db, w: E.Worker, id: RunId)
    requires w.phase.Busy? && w.phase.stage.Retrying? && w.phase.ticket.run in db.runs && id !in db.runs
    requires db.runs[w.phase.ticket.run].job == w.phase.ticket.job
    ensures WritesOnly(db, E.ScheduleRetry(db, w, id).db, w.phase.ticket.run) && E.ScheduleRetry(db, w, id).w.phase.Idle?
  {
  }

  lemma FinishWrites(m: Mode, db: Db, me: WorkerId, w: E.Worker, x: ExecStep)
    requires ExecOk(db, me, w) && ExecEnabled(m, db, w, x) && Finishes(x)
    ensures WritesOnly(db, ExecApply(m, db, me, w, x).db, w.phase.ticket.run)
    ensures ExecApply(m, db, me, w, x).w.phase.Idle?
  {
    hide E.PersistSuccess, E.ScheduleRetry;
    match x
    case Persist => PersistWrites(db, w);
    case Retry(id) => RetryWrites(db, w, id);
    case _ =>
  }

  lemma ClaimedNotPending(db: Db, r: RunId)
    requires Sound(db) && r in db.h.claims && r in db.runs
    ensures db.runs[r].status == Running || !Live(db.runs[r])
  {
    hide RunIndex, NoGaps, LiveTop, References, JobIndex, ReapsOk, PoliciesOk;
  }

  lemma FinishSpends(m: Mode, s: Sys, w: WorkerId, x: ExecStep)
    requires Inv(s) && Enabled(m, s, Exec(w, x)) && Finishes(x) && s.execs[w].phase.Busy?
    ensures Spends(s, Apply(m, s, Exec(w, x)))
  {
    hide Spends, Sound, Tracked, ExecEnabled, ExecApply;
    var t := s.execs[w].phase.ticket;
    FinishWrites(m, s.db, w, s.execs[w], x);
    ClaimedNotPending(s.db, t.run);
    LetGo(s, Apply(m, s, Exec(w, x)), t.run);
  }

  predicate Forward(row: RunRow, row': RunRow) {
    && row'.job == row.job
    && (row' == row || (row.status == Pending && row'.status in {Running, Failed}) || (row.status == Running && row'.status == Failed))
  }

  /** Rows are only written forward, and none is new. */
  ghost predicate MovesForward(runs: Runs, runs': Runs) {
    && (forall r :: r in runs' ==> r in runs)
    && (forall r :: r in runs ==> r in runs' && Forward(runs[r], runs'[r]))
  }

  lemma ForwardSpends(s: Sys, s': Sys)
    requires MovesForward(s.db.runs, s'.db.runs)
    requires forall r :: r in s.db.runs && HeldByExec(s', r) ==> HeldByExec(s, r) || s.db.runs[r].status == Pending
    requires forall r :: r in s.db.runs && HeldByRec(s', r) ==> HeldByRec(s, r) || s.db.runs[r].status == Running
    requires forall r :: r in s.db.runs && HeldByExec(s', r) && !HeldByExec(s, r) ==> s'.db.runs[r].status == Running
    requires forall r :: r in s.db.runs && HeldByRec(s', r) && !HeldByRec(s, r) ==> s'.db.runs[r].status == Failed
    ensures Spends(s, s')
  {
    hide HeldByExec, HeldByRec;
    forall r | RowChanged(s.db, s'.db, r) ensures UsesUp(s, s', r, s'.db.runs[r].job) {
    }
  }

  lemma ClaimForward(db: Db, me: WorkerId, w: E.Worker)
    requires w.phase.Idle? && w.batch != []
    ensures MovesForward(db.runs, E.ClaimNext(db, me, w).db.runs)
  {
  }

  lemma ClaimSpends(m: Mode, s: Sys, w: WorkerId)
    requires Inv(s) && Enabled(m, s, Exec(w, ClaimNext))
    ensures Spends(s, Apply(m, s, Exec(w, ClaimNext)))
  {
    hide Spends, RunIndex, NoGaps, LiveTop, References, JobIndex, ReapsOk, PoliciesOk, Tracked, MovesForward;
    ClaimForward(s.db, w, s.execs[w]);
    ForwardSpends(s, Apply(m, s, Exec(w, ClaimNext)));
  }

  lemma ReapForward(db: Db, me: WorkerId, p: R.Phase)
    requires p.Reaping? && p.ids != []
    ensures MovesForward(db.runs, R.ReapNext(db, me, p).db.runs)
  {
  }

  lemma ReapSpends(m: Mode, s: Sys, w: WorkerId)
    requires Inv(s) && Enabled(m, s, Rec(w, Reap))
    ensures Spends(s, Apply(m, s, Rec(w, Reap)))
  {
    hide Spends, RunIndex, NoGaps, LiveTop, References, JobIndex, PoliciesOk, Tracked, MovesForward;
    ReapForward(s.db, w, s.recs[w]);
    ForwardSpends(s, Apply(m, s, Rec(w, Reap)));
  }

  lemma OrphanForward(db: Db, p: R.Phase)
    requires p.Judging? && p.jobs != []
    ensures MovesForward(db.runs, R.JudgeNext(db, p).db.runs)
    ensures R.JudgeNext(db, p).db.h == db.h && !R.JudgeNext(db, p).phase.Holding?
  {
    hide R.Judge;
  }

  lemma OrphanSpends(m: Mode, s: Sys, w: WorkerId)
    requires Inv(s) && Enabled(m, s, Rec(w, OrphanEval))
    ensures Spends(s, Apply(m, s, Rec(w, OrphanEval)))
  {
    hide Spends, Inv, MovesForward, R.JudgeNext;
    OrphanForward(s.db, s.recs[w]);
    ForwardSpends(s, Apply(m, s, Rec(w, OrphanEval)));
  }

  lemma DlqWrites(db: Db, r: RunId, job: JobId, attempt: Attempt, sub: SubId, keepWorker: bool)
    requires r in db.runs
    ensures WritesOnly(db, MoveToDlq(db, r, job, attempt, sub, keepWorker), r)
  {
  }

  lemma InsertWrites(db: Db, r: RunId, id: RunId, attempt: Attempt, after: Option<Time>)
    requires r in db.runs && id !in db.runs
    ensures WritesOnly(db, InsertRun(db, id, db.runs[r].job, attempt, after), r)
  {
  }

  lemma ResolveSpends(m: Mode, s: Sys, w: WorkerId, id: RunId)
    requires Inv(s) && Enabled(m, s, Rec(w, Resolve(id))) && s.recs[w].Holding?
    ensures Spends(s, Apply(m, s, Rec(w, Resolve(id))))
  {
    hide Spends, Sound, Tracked, InsertRun, MoveToDlq, WritesOnly;
    var t := s.recs[w].stub;
    var db1 := s.db.(h := s.db.h.(resolved := s.db.h.resolved + {t.run}));
    DlqWrites(db1, t.run, t.job, t.attempt, t.sub.value, false);
    InsertWrites(db1, t.run, id, t.attempt + 1, None);
    SameWrites(s.db, db1, Apply(m, s, Rec(w, Resolve(id))).db, t.run);
    ReapedRun(s.db, t.run);
    LetGo(s, Apply(m, s, Rec(w, Resolve(id))), t.run);
  }

  lemma SameWrites(db: Db, db1: Db, db2: Db, q: RunId)
    requires WritesOnly(db1, db2, q) && db1.runs == db.runs && db1.h.claims == db.h.claims && db1.h.reaped == db.h.reaped
    ensures WritesOnly(db, db2, q)
  {
  }

  /** Old rows are as they were; what is new is PENDING and of a new job. */
  ghost predicate AddsJob(runs: Runs, runs': Runs, j: JobId) {
    && (forall r :: r in runs ==> r in runs' && runs'[r] == runs[r])
    && (forall r :: r in runs' && r !in runs ==> runs'[r].status == Pending && runs'[r].job == j)
  }

  lemma InsertJobAdds(db: Db, j: JobId, run: RunId, row: JobRow)
    requires run !in db.runs
    ensures AddsJob(db.runs, S.InsertJob(db, j, run, row).runs, j)
  {
  }

  lemma AddedSpends(s: Sys, s': Sys, j: JobId)
    requires AddsJob(s.db.runs, s'.db.runs, j) && j !in s.db.jobs
    requires s'.db.h.claims == s.db.h.claims && s'.db.h.reaped == s.db.h.reaped && s'.execs == s.execs && s'.recs == s.recs
    ensures Spends(s, s')
  {
  }

  lemma EnvSpends(m: Mode, s: Sys, e: EnvStep)
    requires Enabled(m, s, Env(e))
    ensures Spends(s, Apply(m, s, Env(e)))
  {
    hide Spends, AddsJob, S.InsertJob;
    var s' := Apply(m, s, Env(e));
    EnvFrames(m, s.db, e);
    match e
    case AddJob(j, run, row) =>
      InsertJobAdds(s.db, j, run, row);
      AddedSpends(s, s', j);
    case Schedule(x, _, j, run, epoch) =>
      InsertJobAdds(s.db, j, run, JobRow(x, s.db.subs[x].nextFire.value, [], Ready, epoch));
      AddedSpends(s, s', j);
    case _ => Idles(s, s');
  }

  lemma ExecSpends(m: Mode, s: Sys, w: WorkerId, x: ExecStep)
    requires Inv(s) && Enabled(m, s, Exec(w, x))
    ensures Spends(s, Apply(m, s, Exec(w, x)))
  {
    hide Sound, Spends, Tracked;
    if x.ClaimNext? {
      ClaimSpends(m, s, w);
    } else if Finishes(x) {
      FinishSpends(m, s, w, x);
    } else {
      Idles(s, Apply(m, s, Exec(w, x)));
    }
  }

  lemma RecSpends(m: Mode, s: Sys, w: WorkerId, y: RecStep)
    requires Inv(s) && Enabled(m, s, Rec(w, y))
    ensures Spends(s, Apply(m, s, Rec(w, y)))
  {
    hide Sound, Spends, Tracked;
    match y
    case Reap => ReapSpends(m, s, w);
    case Resolve(id) => ResolveSpends(m, s, w, id);
    case OrphanEval => OrphanSpends(m, s, w);
    case _ => Idles(s, Apply(m, s, Rec(w, y)));
  }

  // ---------- whole runs ----------

  lemma OldEntry(runs: Runs, idx: Index, runs': Runs, r: RunId)
    requires RunIndex(runs, idx) && RunsGrow(runs, runs') && r in runs'
    ensures r in runs ==> (runs'[r].job, runs'[r].attempt) in idx
  {
  }

  lemma NewEntry(runs: Runs, idx: Index, runs': Runs, idx': Index, k: (JobId, Attempt))
    requires RunIndex(runs, idx) && RunIndex(runs', idx') && RunsGrow(runs, runs') && k in idx' && k !in idx
    ensures idx'[k] !in runs && idx'[k] in runs'
  {
    var r := idx'[k];
    assert (runs'[r].job, runs'[r].attempt) == k;
    OldEntry(runs, idx, runs', r);
  }

  lemma SlotSpends(s: Sys, s': Sys, j: JobId, n: Attempt)
    requires Inv(s) && Inv(s') && WorkShrinks(s, s') && Grows(s.db, s'.db)
    ensures Slot(s', j, n) <= Slot(s, j, n)
  {
    hide NoGaps, LiveTop, References, JobIndex, ClaimsOk, ReapsOk, PoliciesOk, Tracked, HeldByExec, HeldByRec;
    if (j, n) in s'.db.byAttempt && (j, n) !in s.db.byAttempt {
      NewEntry(s.db.runs, s.db.byAttempt, s'.db.runs, s'.db.byAttempt, (j, n));
    }
  }

  lemma {:induction false} StockSpends(s: Sys, s': Sys, j: JobId, n: nat, k: nat)
    requires forall i: Attempt :: Slot(s', j, i) <= Slot(s, j, i)
    requires 1 <= k <= n ==> Slot(s', j, k) < Slot(s, j, k)
    ensures Stock(s', j, n) <= Stock(s, j, n)
    ensures 1 <= k <= n ==> Stock(s', j, n) < Stock(s, j, n)
  {
    hide Slot;
    if n > 0 {
      StockSpends(s, s', j, n - 1, k);
    }
  }

  lemma Spend(m: Mode, s: Sys, l: Label)
    requires Inv(s) && Enabled(m, s, l)
    ensures Spends(s, Apply(m, s, l))
  {
    hide Inv, Spends, Enabled, Apply;
    match l
    case Env(e) => EnvSpends(m, s, e);
    case Exec(w, x) => ExecSpends(m, s, w, x);
    case Rec(w, y) => RecSpends(m, s, w, y);
  }

  /** The attempts the policy of the job's subscription allows. */
  function Allowed(db: Db, j: JobId): nat {
    if j in db.jobs && db.jobs[j].sub in db.subs then db.subs[db.jobs[j].sub].policy.maxAttempts else 0
  }

  lemma AttemptAllowed(db: Db, r: RunId)
    requires Sound(db) && r in db.runs
    ensures db.runs[r].job in db.jobs && 1 <= db.runs[r].attempt <= Allowed(db, db.runs[r].job)
  {
    hide RunIndex, NoGaps, LiveTop, JobIndex, ClaimsOk, ReapsOk;
  }

  lemma SpendStock(m: Mode, s: Sys, l: Label, j: JobId)
    requires Inv(s) && Enabled(m, s, l) && j in s.db.jobs
    ensures var s' := Apply(m, s, l); var n := Allowed(s.db, j);
      && j in s'.db.jobs && Allowed(s'.db, j) == n
      && Stock(s', j, n) <= Stock(s, j, n) - (if JobChanged(s.db, s'.db, j) then 1 else 0)
  {
    hide Sound, Apply, Enabled, Slot, Stock, ExecOk, RecOk, Tracked, WorkShrinks, RunsGrow, Extends, HistoryGrows;
    var s', n := Apply(m, s, l), Allowed(s.db, j);
    Step(m, s, l);
    Spend(m, s, l);
    SameAllowed(s.db, s'.db, j);
    forall i: Attempt ensures Slot(s', j, i) <= Slot(s, j, i) {
      SlotSpends(s, s', j, i);
    }
    if JobChanged(s.db, s'.db, j) {
      var r :| RowChanged(s.db, s'.db, r) && s'.db.runs[r].job == j;
      var q :| UsesUp(s, s', q, j);
      AttemptAllowed(s.db, q);
      SlotOf(s, s', q);
      StockSpends(s, s', j, n, s.db.runs[q].attempt);
    } else {
      StockSpends(s, s', j, n, 0);
    }
  }

  lemma SameAllowed(db: Db, db': Db, j: JobId)
    requires Sound(db) && Grows(db, db') && j in db.jobs
    ensures j in db'.jobs && Allowed(db', j) == Allowed(db, j)
  {
    hide RunIndex, NoGaps, LiveTop, JobIndex, ClaimsOk, ReapsOk, PoliciesOk, RunsGrow, HistoryGrows;
  }

  lemma SlotOf(s: Sys, s': Sys, q: RunId)
    requires Sound(s.db) && q in s.db.runs && Grows(s.db, s'.db)
    ensures q in s'.db.runs
    ensures Slot(s, s.db.runs[q].job, s.db.runs[q].attempt) == Work(s, q)
    ensures Slot(s', s.db.runs[q].job, s.db.runs[q].attempt) == Work(s', q)
  {
    hide NoGaps, LiveTop, References, JobIndex, ClaimsOk, ReapsOk, PoliciesOk, Work;
  }

  /** How many of the steps i .. k - 1 wrote or added a run of the job. */
  ghost function Changes(ss: seq<Sys>, j: JobId, i: nat, k: nat): nat
    requires i <= k < |ss|
    decreases k
  {
    if i == k then 0 else Changes(ss, j, i, k - 1) + (if JobChanged(ss[k - 1].db, ss[k].db, j) then 1 else 0)
  }

  /** A policy of M attempts lets the runs of a job change at most 4 M times after the job is created, in any
      interleaving, and what is left of that stock after k steps bounds what can still come. */
  lemma {:induction false} ChangesBounded(m: Mode, ss: seq<Sys>, ls: seq<Label>, i: nat, k: nat, j: JobId)
    requires Trace(m, ss, ls) && i <= k < |ss| && j in ss[i].db.jobs
    ensures var n := Allowed(ss[i].db, j);
      && j in ss[k].db.jobs && Allowed(ss[k].db, j) == n
      && Changes(ss, j, i, k) + Stock(ss[k], j, n) <= Stock(ss[i], j, n) <= 4 * n
    decreases k
  {
    hide Inv, Apply, Enabled, Stock, Allowed, JobChanged;
    if i < k {
      ChangesBounded(m, ss, ls, i, k - 1, j);
      Always(m, ss, ls, k - 1);
      SpendStock(m, ss[k - 1], ls[k - 1], j);
    }
  }

  /** No attempt beyond the policy's is ever made. */
  lemma AttemptsBounded(m: Mode, ss: seq<Sys>, ls: seq<Label>, i: nat, r: RunId)
    requires Trace(m, ss, ls) && i < |ss| && r in ss[i].db.runs
    ensures 1 <= ss[i].db.runs[r].attempt <= Allowed(ss[i].db, ss[i].db.runs[r].job)
  {
    hide Sound;
    Always(m, ss, ls, i);
    AttemptAllowed(ss[i].db, r);
  }

  // ---------- until it is settled, a job can always be moved on ----------

  lemma Run3(m: Mode, s: Sys, a: Label, b: Label, c: Label)
    requires Enabled(m, s, a) && Enabled(m, Apply(m, s, a), b) && Enabled(m, Apply(m, Apply(m, s, a), b), c)
    ensures CanRun(m, s, [a, b, c]) && RunAll(m, s, [a, b, c]) == Apply(m, Apply(m, Apply(m, s, a), b), c)
  {
    hide Enabled, Apply;
    var s1 := Apply(m, s, a);
    var s2 := Apply(m, s1, b);
    var s3 := Apply(m, s2, c);
    assert [a, b, c][1..] == [b, c] && [b, c][1..] == [c] && [c][1..] == [];
    assert CanRun(m, s3, []) && RunAll(m, s3, []) == s3;
    assert CanRun(m, s2, [c]) && RunAll(m, s2, [c]) == s3;
    assert CanRun(m, s1, [b, c]) && RunAll(m, s1, [b, c]) == s3;
  }

  function Wait(s: Sys, to: Time): Sys { s.(db := s.db.(now := to)) }

  /** An idle executor can claim a PENDING run once its backoff is over. */
  lemma PendingCanMove(m: Mode, s: Sys, r: RunId, w: WorkerId) returns (ls: seq<Label>)
    requires Sound(s.db) && r in s.db.runs && s.db.runs[r].status == Pending && s.db.cfg.batchSize >= 1
    requires w in s.execs && s.execs[w] == E.Worker([], E.Idle)
    ensures |ls| <= 3 && CanRun(m, s, ls) && RowChanged(s.db, RunAll(m, s, ls).db, r) && RunAll(m, s, ls).db.runs[r].job == s.db.runs[r].job
    ensures RunAll(m, s, ls).db.h.stranded == s.db.h.stranded
  {
    hide Sound, CanRun, RunAll, Enabled, Apply;
    var to := WhenDue(s.db, r);
    var s1 := Wait(s, to);
    var s2 := s1.(execs := s1.execs[w := E.Worker([r], E.Idle)]);
    ls := [Env(Advance(to)), Exec(w, Fetch([r])), Exec(w, ClaimNext)];
    WaitEnabled(m, s, to);
    FetchEnabled(m, s1, r, w);
    ReferenceOf(s.db, r);
    ClaimMoves(m, s2, r, w);
    Run3(m, s, ls[0], ls[1], ls[2]);
  }

  lemma WhenDue(db: Db, r: RunId) returns (to: Time)
    requires r in db.runs && db.runs[r].status == Pending
    ensures db.now <= to && E.Due(db.(now := to), r)
  {
    var at := db.runs[r].retryAfter;
    to := if at.Some? && db.now < at.value then at.value else db.now;
  }

  lemma WaitEnabled(m: Mode, s: Sys, to: Time)
    requires s.db.now <= to
    ensures Enabled(m, s, Env(Advance(to))) && Apply(m, s, Env(Advance(to))) == Wait(s, to)
  {
  }

  lemma FetchEnabled(m: Mode, s: Sys, r: RunId, w: WorkerId)
    requires E.Due(s.db, r) && s.db.cfg.batchSize >= 1 && w in s.execs && s.execs[w] == E.Worker([], E.Idle)
    ensures var l := Exec(w, Fetch([r]));
      Enabled(m, s, l) && Apply(m, s, l) == s.(execs := s.execs[w := E.Worker([r], E.Idle)])
  {
  }

  lemma ClaimMoves(m: Mode, s: Sys, r: RunId, w: WorkerId)
    requires r in s.db.runs && s.db.runs[r].status == Pending && s.db.runs[r].job in s.db.jobs
    requires s.db.jobs[s.db.runs[r].job].sub in s.db.subs
    requires w in s.execs && s.execs[w] == E.Worker([r], E.Idle)
    ensures var l := Exec(w, ClaimNext);
      && Enabled(m, s, l) && r in Apply(m, s, l).db.runs
      && Apply(m, s, l).db.runs[r] != s.db.runs[r] && Apply(m, s, l).db.runs[r].job == s.db.runs[r].job
      && Apply(m, s, l).db.h.stranded == s.db.h.stranded
  {
  }

  /** An idle recovery worker can take a RUNNING run once its lease is over. */
  lemma RunningCanMove(m: Mode, s: Sys, r: RunId, w: WorkerId) returns (ls: seq<Label>)
    requires Sound(s.db) && r in s.db.runs && s.db.runs[r].status == Running
    requires w in s.recs && s.recs[w] == R.Idle
    ensures |ls| <= 3 && CanRun(m, s, ls) && RowChanged(s.db, RunAll(m, s, ls).db, r) && RunAll(m, s, ls).db.runs[r].job == s.db.runs[r].job
    ensures RunAll(m, s, ls).db.h.stranded == s.db.h.stranded
  {
    hide RunIndex, NoGaps, LiveTop, JobIndex, References, ReapsOk, PoliciesOk;
    var lease := s.db.runs[r].lock.value;
    var to := if s.db.now <= lease then lease + 1.0 else s.db.now;
    var s1 := Wait(s, to);
    var s2 := s1.(recs := s1.recs[w := R.Reaping([r], to)]);
    ls := [Env(Advance(to)), Rec(w, Scan([r], to)), Rec(w, Reap)];
    hide CanRun, RunAll, Enabled, Apply;
    WaitEnabled(m, s, to);
    ScanEnabled(m, s1, r, w, to);
    ReapMoves(m, s2, r, w, to);
    Run3(m, s, ls[0], ls[1], ls[2]);
  }

  lemma ScanEnabled(m: Mode, s: Sys, r: RunId, w: WorkerId, asOf: Time)
    requires R.Stuck(s.db, r, asOf) && asOf <= s.db.now && w in s.recs && s.recs[w] == R.Idle
    ensures var l := Rec(w, Scan([r], asOf));
      Enabled(m, s, l) && Apply(m, s, l) == s.(recs := s.recs[w := R.Reaping([r], asOf)])
  {
  }

  lemma ReapMoves(m: Mode, s: Sys, r: RunId, w: WorkerId, asOf: Time)
    requires R.Stuck(s.db, r, asOf) && w in s.recs && s.recs[w] == R.Reaping([r], asOf)
    ensures var l := Rec(w, Reap);
      && Enabled(m, s, l) && r in Apply(m, s, l).db.runs
      && Apply(m, s, l).db.runs[r] != s.db.runs[r] && Apply(m, s, l).db.runs[r].job == s.db.runs[r].job
      && Apply(m, s, l).db.h.stranded == s.db.h.stranded
  {
  }

  lemma {:induction false} FreshId(taken: set<RunId>) returns (id: RunId)
    ensures forall r :: r in taken ==> r < id
  {
    if taken == {} {
      id := 0;
    } else {
      var r := SomeElement(taken);
      id := FreshId(taken - {r});
      if id <= r {
        id := r + 1;
      }
      forall q | q in taken ensures q < id {
        assert q == r || q in taken - {r};
      }
    }
  }

  /** The worker that took a last attempt can commit its follow-up: the next attempt, or the dead letter. */
  lemma HeldCanMove(m: Mode, s: Sys, r: RunId, w: WorkerId) returns (ls: seq<Label>)
    requires Inv(s) && w in s.recs && s.recs[w].Holding? && s.recs[w].stub.run == r && r in s.db.runs && IsTop(s.db, r)
    requires s.db.runs[r].status != Dead
    ensures |ls| <= 3 && CanRun(m, s, ls) && JobChanged(s.db, RunAll(m, s, ls).db, s.db.runs[r].job)
    ensures RunAll(m, s, ls).db.h.stranded == s.db.h.stranded
  {
    var id := FreshId(s.db.runs.Keys);
    ls := [Rec(w, Resolve(id))];
    FollowUpMoves(s.db, w, s.recs[w], id);
    assert ls[1..] == [];
    assert CanRun(m, Apply(m, s, ls[0]), ls[1..]);
    hide Inv;
  }

  lemma FollowUpMoves(db: Db, me: WorkerId, p: R.Phase, id: RunId)
    requires RecOk(db, me, p) && p.Holding? && id !in db.runs && IsTop(db, p.stub.run) && db.runs[p.stub.run].status != Dead
    ensures JobChanged(db, R.FollowUp(db, p, id).db, p.stub.job) && R.FollowUp(db, p, id).db.h.stranded == db.h.stranded
  {
    var db' := R.FollowUp(db, p, id).db;
    assert RowChanged(db, db', if p.stub.policy.IsExhausted(p.stub.attempt) then p.stub.run else id);
  }

  /** From every reachable state: unless the job is DONE or CANCELLED, its last run is DEAD, or a recovery
      worker left it behind, an idle executor and an idle recovery worker suffice to change one of its runs. */
  lemma CanMoveOn(m: Mode, ss: seq<Sys>, ls: seq<Label>, i: nat, r: RunId, e: WorkerId, v: WorkerId) returns (more: seq<Label>)
    requires Trace(m, ss, ls) && i < |ss| && r in ss[i].db.runs && IsTop(ss[i].db, r) && ss[i].db.cfg.batchSize >= 1
    requires e in ss[i].execs && ss[i].execs[e] == E.Worker([], E.Idle) && v in ss[i].recs && ss[i].recs[v] == R.Idle
    requires var db := ss[i].db; var row := db.runs[r];
      row.job in db.jobs && !T.Settled(db.jobs[row.job]) && row.status != Dead && r !in db.h.stranded
    ensures CanRun(m, ss[i], more) && JobChanged(ss[i].db, RunAll(m, ss[i], more).db, ss[i].db.runs[r].job)
    ensures RunAll(m, ss[i], more).db.h.stranded == ss[i].db.h.stranded
  {
    hide Inv, T.Kept, Apply, Enabled, CanRun, RunAll;
    Always(m, ss, ls, i);
    T.KeptAlways(m, ss, ls, i);
    more := MoveOn(m, ss[i], r, e, v);
  }

  lemma MoveOn(m: Mode, s: Sys, r: RunId, e: WorkerId, v: WorkerId) returns (more: seq<Label>)
    requires Inv(s) && T.Kept(s.db) && r in s.db.runs && IsTop(s.db, r) && s.db.cfg.batchSize >= 1
    requires e in s.execs && s.execs[e] == E.Worker([], E.Idle) && v in s.recs && s.recs[v] == R.Idle
    requires var row := s.db.runs[r];
      row.job in s.db.jobs && !T.Settled(s.db.jobs[row.job]) && row.status != Dead && r !in s.db.h.stranded
    ensures |more| <= 3 && CanRun(m, s, more) && JobChanged(s.db, RunAll(m, s, more).db, s.db.runs[r].job)
    ensures RunAll(m, s, more).db.h.stranded == s.db.h.stranded
  {
    hide Sound, T.Kept, Apply, Enabled, CanRun, RunAll, Tracked;
    T.NoJobLostIn(s, r);
    if s.db.runs[r].status == Pending {
      more := PendingCanMove(m, s, r, e);
    } else if s.db.runs[r].status == Running {
      more := RunningCanMove(m, s, r, v);
    } else {
      var w :| w in s.recs && s.recs[w].Holding? && s.recs[w].stub.run == r;
      more := HeldCanMove(m, s, r, w);
    }
  }
}
