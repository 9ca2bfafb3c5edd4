/** Backoff: what the delays are, and what they do to the times at which a job's attempts are claimed. */
module Backoff {
  import opened Domain
  import opened Tables
  import opened Protocol
  import opened Frames
  import opened Safety
  import E = Executor
  import R = Recovery
  import S = Scheduler

  // ---------- the delays ----------

  /** The least delay a draw can give. */
  function Least(p: RetryPolicy, n: Attempt): real {
    if p.jitter then p.Backoff(n) / 2.0 else p.Backoff(n)
  }

  lemma BackoffPositive(p: RetryPolicy, n: Attempt)
    requires p.Valid()
    ensures 0.0 < p.Backoff(n) <= p.maxBackoff
  {
    Pow2Positive(n - 1);
    assert p.baseBackoff * Pow2(n - 1) as real >= 1.0 by { Product(p.baseBackoff, Pow2(n - 1) as real); }
  }

  lemma {:induction false} Pow2Positive(n: nat)
    ensures Pow2(n) >= 1 && (n == 0 ==> Pow2(n) == 1)
  {
    if n > 0 {
      Pow2Positive(n - 1);
    }
  }

  lemma Product(a: real, b: real)
    requires 1.0 <= a && 1.0 <= b
    ensures 1.0 <= a * b
  {
    assert (a - 1.0) * b >= 0.0;
  }

  /** What the random generator can return. */
  predicate Draw(u: real) { 0.0 <= u < 1.0 }

  lemma Scaled(d: real, u: real)
    requires 0.0 < d && Draw(u)
    ensures d / 2.0 <= Jittered(d, u) < d
  {
    assert d * (0.5 + u * 0.5) == d * 0.5 + (d * u) * 0.5;
    assert d * u >= 0.0;
    assert d * (1.0 - u) > 0.0;
  }

  /** Every draw gives a delay between the least one and the unjittered one, below it when there is jitter. */
  lemma DelayBounds(p: RetryPolicy, n: Attempt, u: real)
    requires p.Valid() && Draw(u)
    ensures p.Backoff(n) / 2.0 <= Least(p, n) <= p.NextDelay(n, u) <= p.Backoff(n) <= p.maxBackoff
    ensures p.NextDelay(n, u) < p.Backoff(n) <==> p.jitter
    ensures 0.0 < p.NextDelay(n, u)
  {
    hide Jittered, RetryPolicy.Backoff, RetryPolicy.Valid;
    BackoffPositive(p, n);
    Scaled(p.Backoff(n), u);
  }

  /** Whatever is drawn, the delay after attempt n + 1 exceeds the one after attempt n. */
  ghost predicate AlwaysLonger(p: RetryPolicy, n: Attempt) {
    forall u: real, v: real :: Draw(u) && Draw(v) ==> p.NextDelay(n, u) < p.NextDelay(n + 1, v)
  }

  /** The base delay, doubled n times. */
  function Doubled(p: RetryPolicy, n: nat): real { p.baseBackoff * Pow2(n) as real }

  lemma BackoffDoubles(p: RetryPolicy, n: Attempt)
    ensures Doubled(p, n) == Doubled(p, n - 1) * 2.0
    ensures p.Backoff(n) == Min(Doubled(p, n - 1), p.maxBackoff) && p.Backoff(n + 1) == Min(Doubled(p, n), p.maxBackoff)
  {
    assert Pow2(n) as real == 2.0 * Pow2(n - 1) as real;
    assert p.baseBackoff * (2.0 * Pow2(n - 1) as real) == Doubled(p, n - 1) * 2.0;
  }

  lemma Monotone(d: real, q: real)
    requires 0.0 < d
    ensures q < 1.0 ==> d * q < d
    ensures 2.0 <= q ==> d * 2.0 <= d * q
  {
    if q < 1.0 {
      assert d * (1.0 - q) > 0.0;
    } else if 2.0 <= q {
      assert d * (q - 2.0) >= 0.0;
    }
  }

  function Times(a: real, b: real): real { a * b }

  lemma Between(d: real, q: real, e: real)
    requires 0.0 < d <= e < d * 2.0 && Times(d, q) == e
    ensures 1.0 <= q < 2.0
  {
    MonotoneTimes(d, q);
    hide Times;
  }

  lemma MonotoneTimes(d: real, q: real)
    requires 0.0 < d
    ensures q < 1.0 ==> Times(d, q) < d
    ensures 2.0 <= q ==> d * 2.0 <= Times(d, q)
  {
    Monotone(d, q);
  }

  lemma HalfTheCap(d: real, e: real) returns (u: real)
    requires 0.0 < d <= e < d * 2.0
    ensures Draw(u) && Jittered(d, u) == e * 0.5
  {
    u := e / d - 1.0;
    assert Times(d, e / d) == e;
    Between(d, e / d, e);
    assert 0.5 + u * 0.5 == (e / d) * 0.5;
  }

  lemma NoDraw(d: real)
    ensures Draw(0.0) && Jittered(d, 0.0) == d * 0.5
  {
  }

  /** A draw for which the delay after attempt n is half the cap, the least there is after attempt n + 1. */
  lemma TooLong(p: RetryPolicy, n: Attempt) returns (u: real)
    requires p.Valid() && p.jitter && Doubled(p, n) > p.maxBackoff
    ensures Draw(u) && p.NextDelay(n, u) == p.NextDelay(n + 1, 0.0)
  {
    hide Jittered, Doubled, RetryPolicy.Backoff, RetryPolicy.Valid;
    BackoffDoubles(p, n);
    BackoffPositive(p, n);
    NoDraw(p.Backoff(n + 1));
    u := HalfTheCap(p.Backoff(n), p.Backoff(n + 1));
  }

  lemma LongerBelowTheCap(p: RetryPolicy, n: Attempt)
    requires p.Valid() && p.jitter && Doubled(p, n) <= p.maxBackoff
    ensures AlwaysLonger(p, n)
  {
    hide Jittered, Doubled, Least, RetryPolicy.Backoff, RetryPolicy.Valid, RetryPolicy.NextDelay;
    BackoffDoubles(p, n);
    forall u: real, v: real | Draw(u) && Draw(v) ensures p.NextDelay(n, u) < p.NextDelay(n + 1, v) {
      DelayBounds(p, n, u);
      DelayBounds(p, n + 1, v);
    }
  }

  /** Delays grow whatever is drawn exactly as long as the next doubling stays under the cap (with jitter), or
      as the cap is not reached yet (without). */
  lemma DelaysGrow(p: RetryPolicy, n: Attempt)
    requires p.Valid()
    ensures AlwaysLonger(p, n) <==> if p.jitter then Doubled(p, n) <= p.maxBackoff else Doubled(p, n - 1) < p.maxBackoff
  {
    hide Jittered, Doubled, RetryPolicy.Backoff, RetryPolicy.Valid;
    BackoffDoubles(p, n);
    BackoffPositive(p, n);
    NoDraw(0.0);
    if !p.jitter {
      assert p.NextDelay(n, 0.0) == p.Backoff(n) && p.NextDelay(n + 1, 0.0) == p.Backoff(n + 1);
    } else if Doubled(p, n) <= p.maxBackoff {
      LongerBelowTheCap(p, n);
    } else {
      var u := TooLong(p, n);
    }
  }

  function SumBackoff(p: RetryPolicy, k: nat): real {
    if k == 0 then 0.0 else SumBackoff(p, k - 1) + p.Backoff(k)
  }

  function SumLeast(p: RetryPolicy, k: nat): real {
    if k == 0 then 0.0 else SumLeast(p, k - 1) + Least(p, k)
  }

  /** `us` are the draws of the first |us| retries. */
  function SumDelays(p: RetryPolicy, us: seq<real>): real {
    if us == [] then 0.0 else SumDelays(p, us[..|us| - 1]) + p.NextDelay(|us|, us[|us| - 1])
  }

  lemma OneMore(b: real, k: Attempt)
    ensures Times(k as real, b) == Times((k - 1) as real, b) + b && Times(0.0, b) == 0.0
  {
    assert k as real * b == (k - 1) as real * b + b;
  }

  lemma NotDoubled(p: RetryPolicy)
    ensures Doubled(p, 0) == p.baseBackoff
  {
  }

  lemma {:induction false} SumOfDoubles(p: RetryPolicy, k: nat)
    ensures SumBackoff(p, k) <= Doubled(p, k) - p.baseBackoff
    ensures SumBackoff(p, k) <= Times(k as real, p.maxBackoff)
  {
    hide Doubled, RetryPolicy.Backoff, Times;
    if k == 0 {
      NotDoubled(p);
      OneMore(p.maxBackoff, 1);
    } else {
      SumOfDoubles(p, k - 1);
      OneMore(p.maxBackoff, k);
      BackoffDoubles(p, k);
    }
  }

  /** The first k delays sum to at least half, and at most the whole, of the unjittered ones, which are at
      most base * 2^k - base and k * max. */
  lemma {:induction false} DelaySums(p: RetryPolicy, us: seq<real>)
    requires p.Valid() && forall i :: 0 <= i < |us| ==> Draw(us[i])
    ensures var k := |us|;
      && SumBackoff(p, k) / 2.0 <= SumLeast(p, k) <= SumDelays(p, us) <= SumBackoff(p, k)
      && SumBackoff(p, k) <= Doubled(p, k) - p.baseBackoff
      && SumBackoff(p, k) <= Times(k as real, p.maxBackoff)
  {
    hide Jittered, Times, Doubled, RetryPolicy.Backoff, RetryPolicy.Valid, RetryPolicy.NextDelay, Least;
    var k := |us|;
    SumOfDoubles(p, k);
    if k > 0 {
      DelaySums(p, us[..k - 1]);
      DelayBounds(p, k, us[k - 1]);
    }
  }

  // ---------- the protocol keeps them ----------

  function PolicyOf(db: Db, j: JobId): Option<RetryPolicy> {
    if j in db.jobs && db.jobs[j].sub in db.subs then Some(db.subs[db.jobs[j].sub].policy) else None
  }

  /** An executor scheduled this attempt: recovery and the scheduler set no retry time. */
  predicate ByExecutor(row: RunRow) { row.retryAfter.Some? }

  /** The attempt's retry time is the claim of the attempt before it plus at least the least delay. */
  predicate Spaced(db: Db, r: RunId)
    requires r in db.runs
  {
    var row := db.runs[r];
    ByExecutor(row) ==>
      && row.attempt > 1
      && (row.job, row.attempt - 1) in db.byAttempt
      && db.byAttempt[(row.job, row.attempt - 1)] in db.h.claims
      && PolicyOf(db, row.job).Some?
      && db.h.claims[db.byAttempt[(row.job, row.attempt - 1)]].at + Least(PolicyOf(db, row.job).value, row.attempt - 1)
         <= row.retryAfter.value
  }

  ghost predicate AllSpaced(db: Db) { forall r :: r in db.runs ==> Spaced(db, r) }

  ghost predicate ClaimsAfterRetry(runs: Runs, claims: map<RunId, Claim>) {
    forall r :: r in claims && r in runs && runs[r].retryAfter.Some? ==> runs[r].retryAfter.value <= claims[r].at
  }

  predicate Ripe(db: Db, r: RunId) {
    r in db.runs && (db.runs[r].retryAfter.Some? ==> db.runs[r].retryAfter.value <= db.now)
  }

  ghost predicate ExecTimely(db: Db, w: E.Worker) {
    && (forall i :: 0 <= i < |w.batch| ==> Ripe(db, w.batch[i]))
    && (w.phase.Busy? && w.phase.stage.Retrying? ==>
          var t := w.phase.ticket;
          t.run in db.h.claims && db.h.claims[t.run].at + Least(t.policy, t.attempt) <= w.phase.stage.after)
  }

  ghost predicate Timely(s: Sys) {
    && AllSpaced(s.db) && ClaimsAfterRetry(s.db.runs, s.db.h.claims)
    && forall w :: w in s.execs ==> ExecTimely(s.db, s.execs[w])
  }

  lemma SpacedStable(db: Db, db': Db, r: RunId)
    requires Sound(db) && Grows(db, db') && r in db.runs && Spaced(db, r)
    ensures r in db'.runs && Spaced(db', r)
  {
    hide RunIndex, NoGaps, LiveTop, References, JobIndex, ClaimsOk, ReapsOk, PoliciesOk;
  }

  lemma ExecTimelyStable(db: Db, db': Db, w: E.Worker)
    requires Grows(db, db') && ExecTimely(db, w)
    ensures ExecTimely(db', w)
  {
  }

  /** Rows that are not new stay spaced; the new ones carry no retry time. */
  lemma SpacedByOthers(db: Db, db': Db)
    requires Sound(db) && Grows(db, db') && AllSpaced(db)
    requires forall r :: r in db'.runs && r !in db.runs ==> db'.runs[r].retryAfter.None?
    ensures AllSpaced(db')
  {
    hide Sound, Spaced;
    forall r | r in db'.runs ensures Spaced(db', r) {
      if r in db.runs {
        SpacedStable(db, db', r);
      } else {
        UnscheduledSpaced(db', r);
      }
    }
  }

  lemma UnscheduledSpaced(db: Db, r: RunId)
    requires r in db.runs && db.runs[r].retryAfter.None?
    ensures Spaced(db, r)
  {
  }

  lemma RetrySpaced(db: Db, me: WorkerId, w: E.Worker, id: RunId)
    requires Sound(db) && AllSpaced(db) && ExecOk(db, me, w) && ExecTimely(db, w)
    requires w.phase.Busy? && w.phase.stage.Retrying? && id !in db.runs
    requires Grows(db, E.ScheduleRetry(db, w, id).db)
    ensures AllSpaced(E.ScheduleRetry(db, w, id).db)
  {
    hide Sound;
    var db' := E.ScheduleRetry(db, w, id).db;
    IndexOf(db, w.phase.ticket.run);
    forall r | r in db'.runs ensures Spaced(db', r) {
      if r in db.runs {
        SpacedStable(db, db', r);
      }
    }
  }

  lemma CallTimely(db: Db, me: WorkerId, w: E.Worker, reply: E.Reply, u: real)
    requires Sound(db) && ExecOk(db, me, w) && ExecTimely(db, w) && w.phase.Busy? && Draw(u)
    ensures ExecTimely(E.ReceiveReply(db, w, reply, u).db, E.ReceiveReply(db, w, reply, u).w)
  {
    hide RunIndex, NoGaps, LiveTop, References, JobIndex, ReapsOk, Least;
    var t := w.phase.ticket;
    DelayBounds(t.policy, t.attempt, u);
  }

  lemma ClaimTimely(db: Db, me: WorkerId, w: E.Worker)
    requires ClaimsAfterRetry(db.runs, db.h.claims) && ExecTimely(db, w) && w.phase.Idle? && w.batch != []
    ensures var a := E.ClaimNext(db, me, w);
      ClaimsAfterRetry(a.db.runs, a.db.h.claims) && ExecTimely(a.db, a.w)
  {
    assert Ripe(db, w.batch[0]);
    forall i | 0 <= i < |w.batch[1..]| ensures Ripe(db, w.batch[1..][i]) {
      assert Ripe(db, w.batch[i + 1]);
    }
  }

  lemma SameClaims(db: Db, db': Db)
    requires Sound(db) && ClaimsAfterRetry(db.runs, db.h.claims) && Grows(db, db') && db'.h.claims == db.h.claims
    ensures ClaimsAfterRetry(db'.runs, db'.h.claims)
  {
    hide RunIndex, NoGaps, LiveTop, References, JobIndex, ReapsOk, PoliciesOk;
  }

  /** A step that claims and schedules nothing. */
  lemma QuietTimely(db: Db, db': Db)
    requires Sound(db) && AllSpaced(db) && ClaimsAfterRetry(db.runs, db.h.claims) && Grows(db, db') && Unscheduled(db, db')
    ensures AllSpaced(db') && ClaimsAfterRetry(db'.runs, db'.h.claims)
  {
    hide Sound, AllSpaced, ClaimsAfterRetry, Grows;
    SpacedByOthers(db, db');
    SameClaims(db, db');
  }

  lemma PersistUnscheduled(db: Db, w: E.Worker)
    requires w.phase.Busy? && w.phase.stage.Persisting?
    ensures Unscheduled(db, E.PersistSuccess(db, w).db)
  {
  }

  lemma ExecUnscheduled(m: Mode, db: Db, me: WorkerId, w: E.Worker, x: ExecStep)
    requires ExecEnabled(m, db, w, x) && !x.ClaimNext? && !x.Retry?
    ensures Unscheduled(db, ExecApply(m, db, me, w, x).db)
  {
    hide E.PersistSuccess, E.ReceiveReply, E.MarkDagCancelled, E.ClaimNext, E.ScheduleRetry, MoveToDlq, E.Answers;
    match x
    case Persist => PersistUnscheduled(db, w);
    case Bury =>
      var t := w.phase.ticket;
      DlqUnscheduled(db, t.run, t.job, t.attempt, t.sub, true);
    case DagCancel => DagUnscheduled(db, w);
    case Call(reply, u) => CallFrame(db, w, reply, u);
    case _ =>
  }

  lemma DagUnscheduled(db: Db, w: E.Worker)
    requires w.phase.Busy?
    ensures Unscheduled(db, E.MarkDagCancelled(db, w).db)
  {
  }

  lemma QuietBatch(m: Mode, db: Db, me: WorkerId, w: E.Worker, x: ExecStep)
    requires ExecEnabled(m, db, w, x) && !x.ClaimNext? && !x.Call?
    requires ExecTimely(db, w) && Grows(db, ExecApply(m, db, me, w, x).db)
    ensures ExecTimely(ExecApply(m, db, me, w, x).db, ExecApply(m, db, me, w, x).w)
  {
    hide E.PersistSuccess, E.ScheduleRetry, E.MarkDagCancelled, E.BuryRun, Grows;
    if Finishes(x) {
      IdleAfter(m, db, me, w, x);
    }
    var a := ExecApply(m, db, me, w, x);
    forall i | 0 <= i < |a.w.batch| ensures Ripe(db, a.w.batch[i]) {
    }
    assert ExecTimely(db, a.w);
    ExecTimelyStable(db, a.db, a.w);
  }

  lemma IdleAfter(m: Mode, db: Db, me: WorkerId, w: E.Worker, x: ExecStep)
    requires ExecEnabled(m, db, w, x) && Finishes(x)
    ensures ExecApply(m, db, me, w, x).w == w.(phase := E.Idle)
  {
  }

  lemma ExecStepTimely(m: Mode, db: Db, me: WorkerId, w: E.Worker, x: ExecStep)
    requires Sound(db) && ExecOk(db, me, w) && ExecEnabled(m, db, w, x)
    requires AllSpaced(db) && ClaimsAfterRetry(db.runs, db.h.claims) && ExecTimely(db, w)
    requires Grows(db, ExecApply(m, db, me, w, x).db)
    ensures var a := ExecApply(m, db, me, w, x);
      AllSpaced(a.db) && ClaimsAfterRetry(a.db.runs, a.db.h.claims) && ExecTimely(a.db, a.w)
  {
    hide Sound, AllSpaced, ClaimsAfterRetry, Grows, ExecTimely, Unscheduled, ExecOk;
    hide E.ClaimNext, E.ReceiveReply, E.ScheduleRetry, E.PersistSuccess, E.MarkDagCancelled, E.BuryRun;
    var a := ExecApply(m, db, me, w, x);
    match x
    case ClaimNext =>
      ClaimTimely(db, me, w);
      ClaimAddsNoRun(db, me, w);
      SpacedByOthers(db, a.db);
    case Call(reply, u) =>
      CallTimely(db, me, w, reply, u);
      ExecUnscheduled(m, db, me, w, x);
      QuietTimely(db, a.db);
    case Retry(id) =>
      RetrySpaced(db, me, w, id);
      RetryClaims(db, w, id);
      SameClaims(db, a.db);
      QuietBatch(m, db, me, w, x);
    case _ =>
      ExecUnscheduled(m, db, me, w, x);
      QuietTimely(db, a.db);
      QuietBatch(m, db, me, w, x);
  }

  lemma ClaimAddsNoRun(db: Db, me: WorkerId, w: E.Worker)
    requires w.phase.Idle? && w.batch != []
    ensures forall r :: r in E.ClaimNext(db, me, w).db.runs ==> r in db.runs
  {
  }

  lemma RetryClaims(db: Db, w: E.Worker, id: RunId)
    requires w.phase.Busy? && w.phase.stage.Retrying?
    ensures E.ScheduleRetry(db, w, id).db.h == db.h
  {
  }

  /** The step touches no claim and its new rows have no retry time. */
  ghost predicate Unscheduled(db: Db, db': Db) {
    db'.h.claims == db.h.claims && forall r :: r in db'.runs && r !in db.runs ==> db'.runs[r].retryAfter.None?
  }

  lemma DlqUnscheduled(db: Db, r: RunId, job: JobId, attempt: Attempt, sub: SubId, keepWorker: bool)
    ensures Unscheduled(db, MoveToDlq(db, r, job, attempt, sub, keepWorker))
  {
  }

  lemma InsertUnscheduled(db: Db, id: RunId, job: JobId, attempt: Attempt)
    ensures Unscheduled(db, InsertRun(db, id, job, attempt, None))
  {
  }

  lemma FollowUpUnscheduled(db: Db, p: R.Phase, id: RunId)
    requires p.Holding?
    ensures Unscheduled(db, R.FollowUp(db, p, id).db)
  {
    hide MoveToDlq, InsertRun;
    var s := p.stub;
    var db1 := db.(h := db.h.(resolved := db.h.resolved + {s.run}));
    if s.sub.Some? {
      DlqUnscheduled(db1, s.run, s.job, s.attempt, s.sub.value, false);
      InsertUnscheduled(db1, id, s.job, s.attempt + 1);
    }
  }

  lemma InsertJobUnscheduled(db: Db, j: JobId, run: RunId, row: JobRow)
    ensures Unscheduled(db, S.InsertJob(db, j, run, row))
  {
  }

  lemma NewRunsUnscheduled(m: Mode, db: Db, e: EnvStep)
    requires EnvEnabled(m, db, e)
    ensures Unscheduled(db, EnvApply(db, e))
  {
    hide S.InsertJob;
    match e
    case AddJob(j, run, row) => InsertJobUnscheduled(db, j, run, row);
    case Schedule(x, _, j, run, epoch) => InsertJobUnscheduled(db, j, run, JobRow(x, db.subs[x].nextFire.value, [], Ready, epoch));
    case _ =>
  }

  lemma NewRunsByRecovery(db: Db, me: WorkerId, p: R.Phase, y: RecStep)
    requires RecEnabled(db, p, y)
    ensures Unscheduled(db, RecApply(db, me, p, y).db)
  {
    hide R.Judge, R.FollowUp;
    if y.Resolve? {
      FollowUpUnscheduled(db, p, y.run);
    }
  }

  lemma TimelyStep(m: Mode, s: Sys, l: Label)
    requires Inv(s) && Timely(s) && Enabled(m, s, l)
    ensures Timely(Apply(m, s, l))
  {
    hide Sound, Promises, AllSpaced, ClaimsAfterRetry, ExecTimely, Grows, ExecOk, RecOk, Tracked;
    hide EnvApply, ExecApply, RecApply, EnvEnabled, ExecEnabled, RecEnabled;
    var s' := Apply(m, s, l);
    Step(m, s, l);
    match l {
      case Exec(w, x) => ExecStepTimely(m, s.db, w, s.execs[w], x);
      case Env(e) =>
        NewRunsUnscheduled(m, s.db, e);
        SpacedByOthers(s.db, s'.db);
        SameClaims(s.db, s'.db);
      case Rec(w, y) =>
        NewRunsByRecovery(s.db, w, s.recs[w], y);
        SpacedByOthers(s.db, s'.db);
        SameClaims(s.db, s'.db);
    }
    forall w | w in s.execs && ActorOf(l) != TheExec(w) ensures ExecTimely(s'.db, s.execs[w]) {
      ExecTimelyStable(s.db, s'.db, s.execs[w]);
    }
  }

  lemma {:induction false} TimelyAlways(m: Mode, ss: seq<Sys>, ls: seq<Label>, i: nat)
    requires Trace(m, ss, ls) && i < |ss|
    ensures Inv(ss[i]) && Timely(ss[i])
  {
    hide Inv, Apply, Enabled;
    Always(m, ss, ls, i);
    if i > 0 {
      hide Timely;
      TimelyAlways(m, ss, ls, i - 1);
      TimelyStep(m, ss[i - 1], ls[i - 1]);
    }
  }

  /** The run of a job's attempt n, and every one before it back to attempt 2, was scheduled by an executor. */
  ghost predicate ChainOfRetries(db: Db, j: JobId, n: Attempt) {
    forall r :: r in db.runs && db.runs[r].job == j && 1 < db.runs[r].attempt <= n ==> ByExecutor(db.runs[r])
  }

  lemma {:induction false} ChainInState(db: Db, first: RunId, r: RunId, p: RetryPolicy)
    requires Sound(db) && AllSpaced(db) && ClaimsAfterRetry(db.runs, db.h.claims)
    requires first in db.runs && r in db.runs && db.runs[first].job == db.runs[r].job && db.runs[first].attempt == 1
    requires r in db.h.claims && ChainOfRetries(db, db.runs[r].job, db.runs[r].attempt)
    requires PolicyOf(db, db.runs[r].job) == Some(p)
    ensures first in db.h.claims
    ensures db.h.claims[first].at + SumLeast(p, db.runs[r].attempt - 1) <= db.h.claims[r].at
    decreases db.runs[r].attempt
  {
    hide NoGaps, LiveTop, References, JobIndex, ReapsOk, PoliciesOk, Least;
    IndexOf(db, r);
    IndexOf(db, first);
    if db.runs[r].attempt > 1 {
      assert Spaced(db, r);
      var q := db.byAttempt[(db.runs[r].job, db.runs[r].attempt - 1)];
      ChainInState(db, first, q, p);
    }
  }

  /** A chain of executor-scheduled retries claims attempt n no earlier than the claim of attempt 1 plus half
      the sum of the n - 1 unjittered delays, although the claim does not look at the retry time again. */
  lemma RetriesAreSpaced(m: Mode, ss: seq<Sys>, ls: seq<Label>, i: nat, first: RunId, r: RunId, p: RetryPolicy)
    requires Trace(m, ss, ls) && i < |ss|
    requires var db := ss[i].db;
      && first in db.runs && r in db.runs && db.runs[first].job == db.runs[r].job && db.runs[first].attempt == 1
      && r in db.h.claims && ChainOfRetries(db, db.runs[r].job, db.runs[r].attempt)
      && PolicyOf(db, db.runs[r].job) == Some(p)
    ensures var db, n := ss[i].db, ss[i].db.runs[r].attempt;
      && first in db.h.claims
      && db.h.claims[first].at + SumLeast(p, n - 1) <= db.h.claims[r].at
      && db.h.claims[first].at + SumBackoff(p, n - 1) / 2.0 <= db.h.claims[r].at
  {
    hide Sound, AllSpaced, ClaimsAfterRetry, ChainOfRetries, Apply, Enabled;
    TimelyAlways(m, ss, ls, i);
    ChainInState(ss[i].db, first, r, p);
    ValidPolicy(ss[i].db, ss[i].db.runs[r].job);
    DelaySums(p, seq(ss[i].db.runs[r].attempt - 1, k => 0.0));
  }

  lemma ValidPolicy(db: Db, j: JobId)
    requires Sound(db)
    ensures PolicyOf(db, j).Some? ==> PolicyOf(db, j).value.Valid()
  {
    hide RunIndex, NoGaps, LiveTop, References, JobIndex, ClaimsOk, ReapsOk;
  }
}
