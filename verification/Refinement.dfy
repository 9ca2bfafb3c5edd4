/** Under the lease assumption every interleaving walks each job up a sequential ladder of attempts. */
module Refinement {
  import opened Domain
  import opened Tables
  import opened Protocol
  import opened Safety
  import opened Payments
  import opened Leases
  import opened Outcome
  import SM = StateMachine
  import E = Executor
  import R = Recovery
  import S = Scheduler

  datatype Rung =
    | Waits(n: int)
    | Executes(n: int)
    | Recovers(n: int)
    | Pays(n: int)
    | Dies(n: int)
    | Stops(n: int)

  /** Where a run stands; FAILED is Recovers between the compare-and-set and its follow-up, else Stops. */
  function RowRung(row: RunRow, recovering: bool): Rung {
    match row.status
    case Pending => Waits(row.attempt)
    case Running => Executes(row.attempt)
    case Succeeded => Pays(row.attempt)
    case Dead => Dies(row.attempt)
    case Failed => if recovering then Recovers(row.attempt) else Stops(row.attempt)
  }

  function RungOf(db: Db, r: RunId): Rung
    requires r in db.runs
  {
    RowRung(db.runs[r], r in db.h.reaped && r !in db.h.resolved)
  }

  /** The sequential ladder, for a policy that allows `max` attempts. */
  predicate Climbs(max: int, a: Rung, b: Rung) {
    match a
    case Waits(n) => b == Executes(n) || b == Stops(n)
    case Executes(n) =>
      b == Pays(n) || b == Dies(n) || b == Stops(n) || b == Recovers(n) || (n < max && b == Waits(n + 1))
    case Recovers(n) => if n < max then b == Waits(n + 1) else b == Dies(n)
    case _ => false
  }

  function NextOf(db: Db, r: RunId): (JobId, Attempt)
    requires r in db.runs
  {
    (db.runs[r].job, db.runs[r].attempt + 1)
  }

  /** A step that leaves the run on its rung and gives it no successor. */
  ghost predicate Rests(db: Db, db': Db, r: RunId)
    requires r in db.runs
  {
    && r in db'.runs && db'.runs[r].attempt == db.runs[r].attempt && RungOf(db', r) == RungOf(db, r)
    && (NextOf(db, r) in db'.byAttempt <==> NextOf(db, r) in db.byAttempt)
  }

  /** What a step does to one run: nothing, one move on its own rung, or a move that opens the next attempt. */
  ghost predicate Moves(db: Db, db': Db, r: RunId, max: int)
    requires r in db.runs
  {
    var n, next := db.runs[r].attempt, NextOf(db, r);
    || Rests(db, db', r)
    || (r in db'.runs && db'.runs[r].attempt == n
        && next !in db'.byAttempt && next !in db.byAttempt && Climbs(max, RungOf(db, r), RungOf(db', r)))
    || (r in db'.runs && db'.runs[r].attempt == n
        && next !in db.byAttempt && next in db'.byAttempt && db'.byAttempt[next] in db'.runs
        && RungOf(db', db'.byAttempt[next]) == Waits(n + 1)
        && RungOf(db', r) == Stops(n) && Climbs(max, RungOf(db, r), Waits(n + 1)))
  }

  ghost predicate Known(db: Db, r: RunId, max: int) {
    && r in db.runs && db.runs[r].job in db.jobs && db.jobs[db.runs[r].job].sub in db.subs
    && max == db.subs[db.jobs[db.runs[r].job].sub].policy.maxAttempts
  }

  lemma SameMoves(db: Db, db': Db, r: RunId, max: int)
    requires r in db.runs && r in db'.runs && db'.runs[r] == db.runs[r] && db'.byAttempt == db.byAttempt
    requires db'.h.reaped == db.h.reaped && db'.h.resolved == db.h.resolved
    ensures Moves(db, db', r, max)
  {
  }

  lemma FinishMoves(db: Db, db': Db, t: E.Ticket, r: RunId, max: int)
    requires Fresh(db, t) && r in db.runs && db'.byAttempt == db.byAttempt && t.run in db'.runs && r in db'.runs
    requires db'.h.reaped == db.h.reaped && db'.h.resolved == db.h.resolved
    requires r != t.run ==> db'.runs[r] == db.runs[r]
    requires db'.runs[t.run].attempt == t.attempt && db'.runs[t.run].status in {Succeeded, Failed, Dead}
    ensures Moves(db, db', r, max)
  {
  }

  lemma RetryMoves(db: Db, w: E.Worker, id: RunId, r: RunId, max: int)
    requires w.phase.Busy? && w.phase.stage.Retrying?
    requires Sound(db) && Fresh(db, w.phase.ticket) && Known(db, r, max) && id !in db.runs
    requires r == w.phase.ticket.run ==> w.phase.ticket.attempt < max
    ensures Moves(db, E.ScheduleRetry(db, w, id).db, r, max)
  {
    hide NoGaps, LiveTop, References, JobIndex, ClaimsOk, ReapsOk, PoliciesOk;
    NotYetReaped(db, id);
  }

  lemma ClaimMoves(db: Db, me: WorkerId, w: E.Worker, r: RunId, max: int)
    requires Sound(db) && w.phase.Idle? && w.batch != [] && Known(db, r, max)
    ensures Moves(db, E.ClaimNext(db, me, w).db, r, max)
  {
    hide Sound;
    if r == w.batch[0] && db.runs[r].status == Pending {
      NotYetClaimed(db, r);
    }
  }

  lemma ExecMoves(m: Mode, db: Db, me: WorkerId, w: E.Worker, x: ExecStep, r: RunId, max: int)
    requires m.leases && Sound(db) && Known(db, r, max)
    requires ExecOk(db, me, w) && ExecBooked(db, w) && InLease(db, w) && ExecEnabled(m, db, w, x)
    ensures Moves(db, ExecApply(m, db, me, w, x).db, r, max)
  {
    hide Sound, Moves, InLease, ExecBooked;
    var db' := ExecApply(m, db, me, w, x).db;
    if Finishes(x) {
      FreshInLease(db, me, w);
      if x.Retry? {
        RetryMoves(db, w, x.run, r, max);
      } else {
        FinishMoves(db, db', w.phase.ticket, r, max);
      }
    } else if x.ClaimNext? {
      ClaimMoves(db, me, w, r, max);
    } else {
      SameMoves(db, db', r, max);
    }
  }

  lemma ReapMoves(db: Db, me: WorkerId, p: R.Phase, r: RunId, max: int)
    requires Sound(db) && p.Reaping? && p.ids != [] && r in db.runs
    ensures Moves(db, R.ReapNext(db, me, p).db, r, max)
  {
    hide Sound;
    if R.Stuck(db, p.ids[0], p.asOf) {
      StuckRun(db, p.ids[0], p.asOf);
    }
  }

  lemma DiesMoves(db: Db, db': Db, s: RunId, r: RunId)
    requires s in db.runs && r in db.runs && IsTop(db, s) && db.runs[s].status == Failed
    requires s in db.h.reaped && s !in db.h.resolved
    requires db'.byAttempt == db.byAttempt && db'.h.reaped == db.h.reaped && db'.h.resolved == db.h.resolved + {s}
    requires s in db'.runs && r in db'.runs && db'.runs[s].status == Dead && db'.runs[s].attempt == db.runs[s].attempt
    requires r != s ==> db'.runs[r] == db.runs[r]
    ensures if r == s then Moves(db, db', r, db.runs[s].attempt) else Rests(db, db', r)
  {
  }

  lemma NextMoves(db: Db, db': Db, s: RunId, id: RunId, r: RunId, max: int)
    requires RunIndex(db.runs, db.byAttempt) && id !in db.runs && id !in db.h.reaped
    requires s in db.runs && r in db.runs && IsTop(db, s) && db.runs[s].status == Failed && db.runs[s].attempt < max
    requires s in db.h.reaped && s !in db.h.resolved
    requires db' == InsertRun(db.(h := db.h.(resolved := db.h.resolved + {s})), id, db.runs[s].job, db.runs[s].attempt + 1, None)
    ensures if r == s then Moves(db, db', r, max) else Rests(db, db', r)
  {
  }

  lemma ResolveMoves(db: Db, me: WorkerId, p: R.Phase, id: RunId, r: RunId, max: int)
    requires Tidy(db) && Sound(db) && RecOk(db, me, p) && p.Holding? && id !in db.runs && Known(db, r, max)
    ensures Moves(db, R.FollowUp(db, p, id).db, r, max)
  {
    hide Sound, EarlierFailed, PaidRows, DeadRows, Rests;
    var s, db' := p.stub, R.FollowUp(db, p, id).db;
    MaxAttempts(db, s.run);
    if s.policy.IsExhausted(s.attempt) {
      DiesMoves(db, db', s.run, r);
    } else {
      NotYetReaped(db, id);
      SoundIndex(db);
      hide RunIndex;
      NextMoves(db, db', s.run, id, r, s.policy.maxAttempts);
    }
  }

  lemma OrphanMoves(db: Db, j: JobId, r: RunId, max: int)
    requires Sound(db) && r in db.runs
    ensures Moves(db, R.CancelOrphan(db, j), r, max)
  {
    hide Sound;
    if db.runs[r].status == Pending {
      NotYetClaimed(db, r);
      PendingNotReaped(db, r);
    }
  }

  lemma PendingNotReaped(db: Db, r: RunId)
    requires Sound(db) && r in db.runs && db.runs[r].status == Pending
    ensures r !in db.h.reaped
  {
    hide RunIndex, NoGaps, LiveTop, References, JobIndex, ClaimsOk, PoliciesOk;
  }

  lemma RecMoves(db: Db, me: WorkerId, p: R.Phase, y: RecStep, r: RunId, max: int)
    requires Tidy(db) && Sound(db) && RecOk(db, me, p) && RecEnabled(db, p, y) && Known(db, r, max)
    ensures Moves(db, RecApply(db, me, p, y).db, r, max)
  {
    hide Sound, Tidy, Moves, StubOk, R.CancelOrphan, DeadRuns;
    match y
    case Reap => ReapMoves(db, me, p, r, max);
    case Resolve(run) => ResolveMoves(db, me, p, run, r, max);
    case OrphanEval =>
      OrphanMoves(db, p.jobs[0], r, max);
      SameMoves(db, db, r, max);
    case _ => SameMoves(db, RecApply(db, me, p, y).db, r, max);
  }

  lemma InsertJobMoves(db: Db, j: JobId, run: RunId, row: JobRow, r: RunId, max: int)
    requires Sound(db) && j !in db.jobs && run !in db.runs && r in db.runs
    ensures Moves(db, S.InsertJob(db, j, run, row), r, max)
  {
    hide Sound;
    NoNewSuccessors(db, j);
  }

  lemma EnvMoves(m: Mode, db: Db, e: EnvStep, r: RunId, max: int)
    requires Sound(db) && EnvEnabled(m, db, e) && r in db.runs
    ensures Moves(db, EnvApply(db, e), r, max)
  {
    hide Sound, Moves;
    match e
    case AddJob(j, run, row) => InsertJobMoves(db, j, run, row, r, max);
    case Schedule(x, _, j, run, epoch) =>
      var row := JobRow(x, db.subs[x].nextFire.value, [], Ready, epoch);
      InsertJobMoves(db, j, run, row, r, max);
      MovesOnly(db, S.InsertJob(db, j, run, row), EnvApply(db, e), r, max);
    case _ => SameMoves(db, EnvApply(db, e), r, max);
  }

  lemma MovesOnly(db: Db, db': Db, db'': Db, r: RunId, max: int)
    requires r in db.runs && Moves(db, db', r, max)
    requires db''.runs == db'.runs && db''.byAttempt == db'.byAttempt && db''.h == db'.h
    ensures Moves(db, db'', r, max)
  {
  }

  /** Every step moves every run as the ladder allows. */
  lemma StepMoves(m: Mode, s: Sys, l: Label, r: RunId, max: int)
    requires m.leases && Leased(s) && Enabled(m, s, l) && Known(s.db, r, max)
    ensures Moves(s.db, Apply(m, s, l).db, r, max)
  {
    hide Sound, Booked, Tidy, InLease, ExecOk, ExecBooked, RecOk, Moves;
    hide EnvApply, ExecApply, RecApply, EnvEnabled, ExecEnabled, RecEnabled, Tracked;
    match l
    case Env(e) => EnvMoves(m, s.db, e, r, max);
    case Exec(w, x) => ExecMoves(m, s.db, w, s.execs[w], x, r, max);
    case Rec(w, y) => RecMoves(s.db, w, s.recs[w], y, r, max);
  }

  // ---------- over whole runs ----------

  /** `r` is the last run of job `j`. */
  ghost predicate LastRun(db: Db, j: JobId, r: RunId) {
    r in db.runs && db.runs[r].job == j && IsTop(db, r)
  }

  /** Every step leaves a job on its rung or moves it one rung up the sequential ladder. */
  lemma SimulatesLadder(m: Mode, ss: seq<Sys>, ls: seq<Label>, i: nat, j: JobId, r: RunId, r': RunId, max: int)
    requires m.leases && Trace(m, ss, ls) && i < |ls| && Known(ss[i].db, r, max)
    requires LastRun(ss[i].db, j, r) && LastRun(ss[i + 1].db, j, r')
    ensures
      || (r' == r && RungOf(ss[i + 1].db, r') == RungOf(ss[i].db, r))
      || Climbs(max, RungOf(ss[i].db, r), RungOf(ss[i + 1].db, r'))
  {
    LeasedAlways(m, ss, ls, i);
    LeasedAlways(m, ss, ls, i + 1);
    StepMoves(m, ss[i], ls[i], r, max);
    GrowsAlong(m, ss, ls, i, i + 1);
    SameLadder(ss[i].db, ss[i + 1].db, j, r, r', max);
  }

  lemma SameLadder(db: Db, db': Db, j: JobId, r: RunId, r': RunId, max: int)
    requires Sound(db') && Grows(db, db') && LastRun(db, j, r) && LastRun(db', j, r') && Moves(db, db', r, max)
    ensures (r' == r && RungOf(db', r') == RungOf(db, r)) || Climbs(max, RungOf(db, r), RungOf(db', r'))
  {
    hide Sound;
    if IsTop(db', r) {
      OneTop(db', r, r');
    } else {
      var q := db'.byAttempt[NextOf(db, r)];
      SoundIndex(db');
      PendingIsTop(db', q);
      OneTop(db', q, r');
    }
  }

  lemma PendingIsTop(db: Db, r: RunId)
    requires Sound(db) && r in db.runs && db.runs[r].status == Pending
    ensures IsTop(db, r)
  {
    hide RunIndex, NoGaps, References, JobIndex, ClaimsOk, ReapsOk, PoliciesOk;
    assert Live(db.runs[r]);
  }

  lemma MovesAt(m: Mode, ss: seq<Sys>, ls: seq<Label>, i: nat, r: RunId) returns (max: int)
    requires m.leases && Trace(m, ss, ls) && i < |ls| && r in ss[i].db.runs
    ensures Moves(ss[i].db, ss[i + 1].db, r, max) && Grows(ss[i].db, ss[i + 1].db)
  {
    hide Sound, Moves, Rests, Apply, Enabled, Grows, PayInv, LeaseInv, Tidy, Tracked;
    LeasedAlways(m, ss, ls, i);
    var db := ss[i].db;
    MaxAttempts(db, r);
    max := db.subs[db.jobs[db.runs[r].job].sub].policy.maxAttempts;
    StepMoves(m, ss[i], ls[i], r, max);
    GrowsAlong(m, ss, ls, i, i + 1);
  }

  lemma FinalRests(db: Db, db': Db, j: JobId, r: RunId, max: int)
    requires LastRun(db, j, r) && Final(RungOf(db, r)) && Moves(db, db', r, max) && RunsGrow(db.runs, db'.runs)
    ensures LastRun(db', j, r) && RungOf(db', r) == RungOf(db, r)
  {
  }

  predicate Final(g: Rung) { g.Pays? || g.Dies? || g.Stops? }

  /** A job that is paid, dead or stopped stays so: no later run, no later status. */
  lemma {:induction false} OutcomeIsFinal(m: Mode, ss: seq<Sys>, ls: seq<Label>, i: nat, k: nat, j: JobId, r: RunId)
    requires m.leases && Trace(m, ss, ls) && i <= k < |ss| && LastRun(ss[i].db, j, r) && Final(RungOf(ss[i].db, r))
    ensures LastRun(ss[k].db, j, r) && RungOf(ss[k].db, r) == RungOf(ss[i].db, r)
    decreases k - i
  {
    hide Moves, Rests, Apply, Enabled, LastRun, RunsGrow, Final, RungOf;
    if i < k {
      OutcomeIsFinal(m, ss, ls, i, k - 1, j, r);
      LastRunExists(ss[k - 1].db, j, r);
      var max := MovesAt(m, ss, ls, k - 1, r);
      FinalRests(ss[k - 1].db, ss[k].db, j, r, max);
    }
  }

  lemma LastRunExists(db: Db, j: JobId, r: RunId)
    requires LastRun(db, j, r)
    ensures r in db.runs
  {
  }

  /** Every status the workers write to an existing row is one the state machine's table allows. */
  lemma WritesFollowTable(m: Mode, ss: seq<Sys>, ls: seq<Label>, i: nat, r: RunId)
    requires m.leases && Trace(m, ss, ls) && i < |ls| && r in ss[i].db.runs
    ensures r in ss[i + 1].db.runs
    ensures var a, b := ss[i].db.runs[r].status, ss[i + 1].db.runs[r].status;
      a == b || (b in SM.Targets(a) && b != Pending)
  {
    hide Apply, Enabled;
    var max := MovesAt(m, ss, ls, i, r);
  }

  /** How often the row `r` changed its status between states i and k. */
  ghost function Changes(ss: seq<Sys>, r: RunId, i: nat, k: nat): nat
    requires i <= k < |ss|
    decreases k - i
  {
    if i == k then 0
    else Changes(ss, r, i, k - 1)
         + (if r in ss[k - 1].db.runs && r in ss[k].db.runs && ss[k - 1].db.runs[r].status != ss[k].db.runs[r].status
            then 1 else 0)
  }

  /** A row changes its status at most three times in its life. */
  lemma {:induction false} AtMostThreeChanges(m: Mode, ss: seq<Sys>, ls: seq<Label>, r: RunId, i: nat, k: nat)
    requires m.leases && Trace(m, ss, ls) && i <= k < |ss| && r in ss[i].db.runs
    ensures r in ss[k].db.runs
    ensures Changes(ss, r, i, k) <= 3
    ensures Changes(ss, r, i, k) <= SM.Rank(ss[k].db.runs[r].status)
    decreases k - i
  {
    hide Apply, Enabled;
    if i < k {
      AtMostThreeChanges(m, ss, ls, r, i, k - 1);
      WritesFollowTable(m, ss, ls, k - 1, r);
    }
  }
}
