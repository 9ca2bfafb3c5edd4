/** Runs in which something the documentation promises does not happen, and the exact conditions under which it does. */
module Counterexamples {
  import opened Domain
  import opened Tables
  import opened Protocol
  import opened Paths
  import opened Safety
  import opened Payments
  import E = Executor
  import R = Recovery
  import C = Schedule
  import N = Termination

  const STRICT := Mode(true, true)

  const EVERY_TEN: Time -> Time := t => ((t / 10.0).Floor + 1) as real * 10.0

  const CFG := Settings(30.0, 60.0, 10)
  function UpTo(max: nat): RetryPolicy { RetryPolicy(max, 60.0, 3600.0, true) }

  const POLICY := UpTo(3)
  const KEY1 := ForRun(1, 1)
  const KEY2 := ForRun(2, 2)

  /** Equality, component by component. */
  lemma SameSys(s: Sys, s': Sys)
    requires s.db.cfg == s'.db.cfg && s.db.now == s'.db.now && s.db.runs == s'.db.runs && s.db.byAttempt == s'.db.byAttempt
    requires s.db.jobs == s'.db.jobs && s.db.byWindow == s'.db.byWindow && s.db.subs == s'.db.subs && s.db.keys == s'.db.keys
    requires s.db.dlq == s'.db.dlq && s.db.bank == s'.db.bank
    requires s.db.h.claims == s'.db.h.claims && s.db.h.called == s'.db.h.called && s.db.h.unsure == s'.db.h.unsure
    requires s.db.h.reaped == s'.db.h.reaped && s.db.h.resolved == s'.db.h.resolved && s.db.h.stranded == s'.db.h.stranded
    requires s.db.h.log == s'.db.h.log && s.execs == s'.execs && s.recs == s'.recs
    ensures s == s'
  {
  }

  // ---------- one job, two payments ----------

  /** The database of a job 1 of subscription 1, whose runs are 1 and 2. */
  function World(max: nat, now: Time, runs: Runs, idx: Index, keys: KeyMap, bank: KeyMap, done: JobStatus, log: seq<SubEvent>,
    claims: map<RunId, Claim>, called: set<RunId>, reaped: map<RunId, WorkerId>, resolved: set<RunId>): Db
  {
    Db(CFG, now, runs, idx, map[1 := JobRow(1, 10.0, [], done, 1)], map[ForJob(1, 10.0) := 1],
       map[1 := SubRow(Active, Some(10.0), 0, UpTo(max), true, Some(EVERY_TEN))], keys, [], bank,
       History(claims, called, {}, reaped, resolved, {}, log))
  }

  function Blank(): Db {
    Db(CFG, 0.0, map[], map[], map[], map[], map[], map[], [], map[], History(map[], {}, {}, map[], {}, {}, []))
  }

  function Waits(attempt: Attempt): RunRow { RunRow(1, attempt, Pending, None, None, None, None) }

  function Taken(run: RunId, attempt: Attempt, at: Time): RunRow {
    RunRow(1, attempt, Running, Some(at + 30.0), None, Some(run), None)
  }

  function Holder(max: nat, run: RunId, attempt: Attempt, at: Time, stage: E.Stage): E.Worker {
    E.Worker([], E.Busy(E.Ticket(run, 1, attempt, 1, UpTo(max), at + 30.0), stage))
  }

  const REST := E.Worker([], E.Idle)

  function Start(): Sys { Sys(Blank(), map[1 := REST, 2 := REST], map[3 := R.Idle]) }

  /** The job is there, its first run PENDING. */
  function Created(max: nat): Sys {
    Sys(World(max, 0.0, map[1 := Waits(1)], map[(1, 1) := 1], map[], map[], Ready, [], map[], {}, map[], {}),
        map[1 := REST, 2 := REST], map[3 := R.Idle])
  }

  lemma TenIsNext()
    ensures EVERY_TEN(0.0) == 10.0
  {
    assert (0.0 / 10.0).Floor == 0;
  }

  /** An idle executor fetches and claims a run. */
  lemma FetchAndClaim(m: Mode, s: Sys, w: WorkerId, run: RunId) returns (ls: seq<Label>)
    requires w in s.execs && s.execs[w] == REST && s.db.cfg.batchSize >= 1 && E.Due(s.db, run)
    ensures CanRun(m, s, ls)
    ensures var a := E.ClaimNext(s.db, w, E.Worker([run], E.Idle));
      RunAll(m, s, ls) == s.(db := a.db, execs := s.execs[w := a.w])
  {
    hide CanRun, RunAll, E.ClaimNext;
    var s1 := s.(execs := s.execs[w := E.Worker([run], E.Idle)]);
    assert Enabled(m, s, Exec(w, Fetch([run]))) && Apply(m, s, Exec(w, Fetch([run]))) == s1;
    assert Enabled(m, s1, Exec(w, ClaimNext));
    ls := Still(m, s);
    ls := Then(m, s, ls, Exec(w, Fetch([run])));
    ls := Then(m, s, ls, Exec(w, ClaimNext));
  }

  /** Without dependencies and without a stored key, the claimed run goes straight to the bank. */
  lemma LoadAndCall(s: Sys, w: WorkerId, payment: PaymentId) returns (ls: seq<Label>)
    requires w in s.execs && s.execs[w].phase.Busy? && s.execs[w].phase.stage.Claimed?
    requires var t := s.execs[w].phase.ticket;
      && t.run in s.db.runs && t.job in s.db.jobs && t.sub in s.db.subs
      && s.db.subs[t.sub].configOk && s.db.subs[t.sub].policy == t.policy && s.db.jobs[t.job].deps == []
      && ForRun(t.run, t.attempt) !in s.db.keys && ForRun(t.run, t.attempt) !in s.db.bank
    ensures CanRun(STRICT, s, ls)
    ensures var t := s.execs[w].phase.ticket;
      RunAll(STRICT, s, ls) ==
        s.(db := s.db.(bank := s.db.bank[ForRun(t.run, t.attempt) := payment], h := s.db.h.(called := s.db.h.called + {t.run})),
           execs := s.execs[w := s.execs[w].(phase := E.Busy(t, E.Persisting(payment)))])
  {
    hide CanRun, RunAll;
    var t := s.execs[w].phase.ticket;
    var s1 := s.(execs := s.execs[w := s.execs[w].(phase := E.Busy(t, E.NeedKey))]);
    var s2 := s.(execs := s.execs[w := s.execs[w].(phase := E.Busy(t, E.Calling))]);
    assert Enabled(STRICT, s, Exec(w, Load)) && Apply(STRICT, s, Exec(w, Load)) == s1;
    assert Enabled(STRICT, s1, Exec(w, LookUp)) && Apply(STRICT, s1, Exec(w, LookUp)) == s2;
    BankAccepts(STRICT, s2, w, payment);
    ls := Still(STRICT, s);
    ls := Then(STRICT, s, ls, Exec(w, Load));
    ls := Then(STRICT, s, ls, Exec(w, LookUp));
    ls := Then(STRICT, s, ls, Exec(w, Call(E.Accepted(payment), 0.0)));
  }

  lemma BankAccepts(m: Mode, s: Sys, w: WorkerId, payment: PaymentId)
    requires w in s.execs && s.execs[w].phase.Busy? && s.execs[w].phase.stage.Calling?
    requires ForRun(s.execs[w].phase.ticket.run, s.execs[w].phase.ticket.attempt) !in s.db.bank
    ensures var l, t := Exec(w, Call(E.Accepted(payment), 0.0)), s.execs[w].phase.ticket;
      && Enabled(m, s, l)
      && Apply(m, s, l) ==
         s.(db := s.db.(bank := s.db.bank[ForRun(t.run, t.attempt) := payment], h := s.db.h.(called := s.db.h.called + {t.run})),
            execs := s.execs[w := s.execs[w].(phase := E.Busy(t, E.Persisting(payment)))])
  {
  }

  lemma SetupRuns(max: nat) returns (ls: seq<Label>)
    requires max >= 1
    ensures CanRun(STRICT, Start(), ls) && RunAll(STRICT, Start(), ls) == Created(max)
  {
    TenIsNext();
    hide CanRun, RunAll;
    ls := Still(STRICT, Start());
    ls := Then(STRICT, Start(), ls, Env(CreateSub(1, UpTo(max), true, EVERY_TEN)));
    ls := Then(STRICT, Start(), ls, Env(Schedule(1, 60.0, 1, 1, 1)));
  }

  /** The bank has taken the payment of attempt 1, and its executor stops before it can store the key. */
  function Crashed(max: nat): Sys {
    Sys(World(max, 0.0, map[1 := Taken(1, 1, 0.0)], map[(1, 1) := 1], map[], map[KEY1 := 100], Ready, [],
              map[1 := Claim(1, 30.0, 0.0)], {1}, map[], {}),
        map[1 := Holder(max, 1, 1, 0.0, E.Persisting(100)), 2 := REST], map[3 := R.Idle])
  }

  lemma CrashRuns(max: nat) returns (ls: seq<Label>)
    requires max >= 1
    ensures CanRun(STRICT, Created(max), ls) && RunAll(STRICT, Created(max), ls) == Crashed(max)
  {
    hide CanRun, RunAll;
    ls := FetchAndClaim(STRICT, Created(max), 1, 1);
    var s1 := RunAll(STRICT, Created(max), ls);
    assert [1][1..] == [];
    assert s1.db.runs == map[1 := Taken(1, 1, 0.0)] && s1.db.h.claims == map[1 := Claim(1, 30.0, 0.0)];
    var more := LoadAndCall(s1, 1, 100);
    RunThenRun(STRICT, Created(max), ls, more);
    ls := ls + more;
    SameSys(RunAll(STRICT, Created(max), ls), Crashed(max));
  }

  /** Recovery has failed attempt 1 and added attempt 2. */
  function Retried(max: nat): Sys {
    Sys(World(max, 31.0, map[1 := Taken(1, 1, 0.0).(status := Failed, lock := None, worker := None), 2 := Waits(2)],
              map[(1, 1) := 1, (1, 2) := 2], map[], map[KEY1 := 100], Ready, [],
              map[1 := Claim(1, 30.0, 0.0)], {1}, map[1 := 3], {1}),
        map[1 := Holder(max, 1, 1, 0.0, E.Persisting(100)), 2 := REST], map[3 := R.Reaping([], 31.0)])
  }

  function Held(max: nat): Sys {
    var s := Crashed(max);
    s.(db := World(max, 31.0, map[1 := Taken(1, 1, 0.0).(status := Failed, lock := None, worker := None)],
                   map[(1, 1) := 1], map[], map[KEY1 := 100], Ready, [],
                   map[1 := Claim(1, 30.0, 0.0)], {1}, map[1 := 3], {}),
       recs := map[3 := R.Holding(R.Stub(1, 1, 1, Some(1), UpTo(max)), [], 31.0)])
  }

  lemma RecoveryTakes(max: nat) returns (ls: seq<Label>)
    requires max >= 1
    ensures CanRun(STRICT, Crashed(max), ls) && RunAll(STRICT, Crashed(max), ls) == Held(max)
  {
    hide CanRun, RunAll, Enabled, Apply, Crashed, Held;
    var s0 := Crashed(max);
    CrashedIsStuck(max);
    N.WaitEnabled(STRICT, s0, 31.0);
    N.ScanEnabled(STRICT, N.Wait(s0, 31.0), 1, 3, 31.0);
    TakeHolds(max);
    ls := Still(STRICT, s0);
    ls := Then(STRICT, s0, ls, Env(Advance(31.0)));
    ls := Then(STRICT, s0, ls, Rec(3, Scan([1], 31.0)));
    ls := Then(STRICT, s0, ls, Rec(3, Reap));
  }

  lemma CrashedIsStuck(max: nat)
    ensures var s := N.Wait(Crashed(max), 31.0); R.Stuck(s.db, 1, 31.0) && Crashed(max).db.now <= 31.0 <= s.db.now
    ensures 3 in Crashed(max).recs && Crashed(max).recs[3] == R.Idle
  {
  }

  lemma TakeHolds(max: nat)
    ensures var s1 := N.Wait(Crashed(max), 31.0); var s2 := s1.(recs := s1.recs[3 := R.Reaping([1], 31.0)]);
      Enabled(STRICT, s2, Rec(3, Reap)) && Apply(STRICT, s2, Rec(3, Reap)) == Held(max)
  {
    var s1 := N.Wait(Crashed(max), 31.0);
    var s2 := s1.(recs := s1.recs[3 := R.Reaping([1], 31.0)]);
    assert [1][1..] == [];
    SameSys(Apply(STRICT, s2, Rec(3, Reap)), Held(max));
  }

  lemma RecoveryRuns(max: nat) returns (ls: seq<Label>)
    requires max >= 2
    ensures CanRun(STRICT, Crashed(max), ls) && RunAll(STRICT, Crashed(max), ls) == Retried(max)
  {
    hide CanRun, RunAll;
    ls := RecoveryTakes(max);
    assert Enabled(STRICT, Held(max), Rec(3, Resolve(2))) && Apply(STRICT, Held(max), Rec(3, Resolve(2))) == Retried(max) by {
      SameSys(Apply(STRICT, Held(max), Rec(3, Resolve(2))), Retried(max));
    }
    ls := Then(STRICT, Crashed(max), ls, Rec(3, Resolve(2)));
  }

  /** The second executor pays again, under the key of attempt 2, and the job is DONE. */
  lemma SecondPaymentRuns() returns (ls: seq<Label>)
    ensures CanRun(STRICT, Retried(3), ls)
    ensures var db := RunAll(STRICT, Retried(3), ls).db;
      && db.bank == map[KEY1 := 100, KEY2 := 101] && db.keys == map[KEY2 := 101]
      && 1 in db.runs && db.runs[1].job == 1 && 2 in db.runs && db.runs[2].job == 1
      && 1 in db.jobs && db.jobs[1].status == Done
  {
    hide CanRun, RunAll;
    ls := FetchAndClaim(STRICT, Retried(3), 2, 2);
    var s1 := RunAll(STRICT, Retried(3), ls);
    var more := LoadAndCall(s1, 2, 101);
    RunThenRun(STRICT, Retried(3), ls, more);
    ls := ls + more;
    ls := Then(STRICT, Retried(3), ls, Exec(2, Persist));
  }

  /** The documentation's crash between the bank's answer and the success transaction, every lease respected:
      recovery adds attempt 2, whose key is a new one, and the bank makes a second payment for the job. */
  lemma CrashPaysTwice() returns (ss: seq<Sys>, ls: seq<Label>)
    ensures Trace(STRICT, ss, ls) && |PaymentsOf(ss[|ls|].db, 1)| == 2
    ensures 1 in ss[|ls|].db.jobs && ss[|ls|].db.jobs[1].status == Done
  {
    hide CanRun, RunAll, Apply, Enabled;
    ls := SetupRuns(3);
    var b := CrashRuns(3);
    RunThenRun(STRICT, Start(), ls, b);
    var c := RecoveryRuns(3);
    RunThenRun(STRICT, Start(), ls + b, c);
    var d := SecondPaymentRuns();
    RunThenRun(STRICT, Start(), ls + b + c, d);
    ls := ls + b + c + d;
    StatesFollow(STRICT, Start(), ls);
    ss := States(STRICT, Start(), ls);
    assert PaymentsOf(ss[|ls|].db, 1) == {KEY1, KEY2};
  }

  /** A call that makes a payment always makes a further one: it pays the job again exactly when the job has
      been paid already. No key ever stands in the way of a later attempt. */
  lemma CallPaysAnew(m: Mode, ss: seq<Sys>, ls: seq<Label>, i: nat)
    requires Trace(m, ss, ls) && i < |ls| && ls[i].Exec? && ls[i].x.Call?
    ensures var t := ss[i].execs[ls[i].w].phase.ticket; var before := PaymentsOf(ss[i].db, t.job);
      PaymentsOf(ss[i + 1].db, t.job) ==
        if E.MadeBy(ls[i].x.reply).Some? then before + {ForRun(t.run, t.attempt)} else before
    ensures var t := ss[i].execs[ls[i].w].phase.ticket; var before := PaymentsOf(ss[i].db, t.job);
      ForRun(t.run, t.attempt) !in before && (|PaymentsOf(ss[i + 1].db, t.job)| >= 2 <==>
        |before| >= 2 || (E.MadeBy(ls[i].x.reply).Some? && before != {}))
  {
    hide Inv, PayInv, Apply, PaymentsOf;
    PayAlways(m, ss, ls, i);
    CallAdds(m, ss[i], ls[i]);
  }

  lemma CallAdds(m: Mode, s: Sys, l: Label)
    requires Inv(s) && PayInv(s) && Enabled(m, s, l) && l.Exec? && l.x.Call?
    ensures var t := s.execs[l.w].phase.ticket; var before := PaymentsOf(s.db, t.job);
      && ForRun(t.run, t.attempt) !in before
      && PaymentsOf(Apply(m, s, l).db, t.job) ==
         if E.MadeBy(l.x.reply).Some? then before + {ForRun(t.run, t.attempt)} else before
  {
    hide Sound, Tracked;
  }

  // ---------- a job that is lost ----------

  /** Every lease respected: the recovery worker stops after its compare-and-set and the job is lost. */
  lemma CrashStrands() returns (ss: seq<Sys>, ls: seq<Label>)
    ensures Trace(STRICT, ss, ls) && 1 in ss[|ls|].db.h.stranded
  {
    hide CanRun, RunAll;
    ls := SetupRuns(3);
    var b := CrashRuns(3);
    RunThenRun(STRICT, Start(), ls, b);
    var c := RecoveryTakes(3);
    RunThenRun(STRICT, Start(), ls + b, c);
    ls := Then(STRICT, Start(), ls + b + c, Rec(3, GiveUp));
    StatesFollow(STRICT, Start(), ls);
    ss := States(STRICT, Start(), ls);
  }

  // ---------- an executor that outlives its lease ----------

  const LOOSE := Mode(false, true)

  /** What may happen when leases bind may happen when they do not. */
  lemma {:induction false} LooseCanToo(s: Sys, ls: seq<Label>)
    requires CanRun(STRICT, s, ls)
    ensures CanRun(LOOSE, s, ls) && RunAll(LOOSE, s, ls) == RunAll(STRICT, s, ls)
    decreases |ls|
  {
    if ls != [] {
      LooseStep(s, ls[0]);
      LooseCanToo(Apply(STRICT, s, ls[0]), ls[1..]);
    }
    hide Apply, Enabled;
  }

  lemma LooseStep(s: Sys, l: Label)
    requires Enabled(STRICT, s, l)
    ensures Enabled(LOOSE, s, l) && Apply(LOOSE, s, l) == Apply(STRICT, s, l)
  {
    hide EnvApply, RecApply, RecEnabled;
  }

  lemma ZombieWrites()
    ensures var l := Exec(1, Persist);
      && Enabled(LOOSE, Retried(3), l)
      && var db := Apply(LOOSE, Retried(3), l).db;
         && 1 in db.runs && db.runs[1].status == Succeeded && 1 in db.jobs && db.jobs[1].status == Done
         && 2 in db.runs && db.runs[2].job == 1 && db.runs[2].status == Pending
  {
  }

  /** The first executor comes back after recovery has failed its run and added the next attempt: it writes
      SUCCEEDED over FAILED and marks the job DONE while attempt 2 is still PENDING. */
  lemma ZombieOverwrites() returns (ss: seq<Sys>, ls: seq<Label>)
    ensures Trace(LOOSE, ss, ls) && |ls| >= 1
    ensures var db, db' := ss[|ls| - 1].db, ss[|ls|].db;
      && 1 in db.runs && db.runs[1].status == Failed && 1 in db'.runs && db'.runs[1].status == Succeeded
      && 1 in db'.jobs && db'.jobs[1].status == Done && 2 in db'.runs && db'.runs[2].job == 1 && db'.runs[2].status == Pending
  {
    hide CanRun, RunAll, Apply, Enabled;
    var a := SetupRuns(3);
    var b := CrashRuns(3);
    RunThenRun(STRICT, Start(), a, b);
    var c := RecoveryRuns(3);
    RunThenRun(STRICT, Start(), a + b, c);
    LooseCanToo(Start(), a + b + c);
    ZombieWrites();
    ss, ls := OneMore(a + b + c, Exec(1, Persist));
  }

  /** One more step after a run. */
  lemma OneMore(ls: seq<Label>, l: Label) returns (ss: seq<Sys>, all: seq<Label>)
    requires CanRun(LOOSE, Start(), ls) && Enabled(LOOSE, RunAll(LOOSE, Start(), ls), l)
    ensures Trace(LOOSE, ss, all) && |all| == |ls| + 1
    ensures ss[|ls|] == RunAll(LOOSE, Start(), ls) && ss[|ls| + 1] == Apply(LOOSE, RunAll(LOOSE, Start(), ls), l)
  {
    hide CanRun, RunAll, Enabled, Apply;
    StatesFollow(LOOSE, Start(), ls);
    ss := States(LOOSE, Start(), ls) + [Apply(LOOSE, RunAll(LOOSE, Start(), ls), l)];
    all := ls + [l];
  }

  /** Under a policy of one attempt: recovery holds the run, whose executor still has its payment to store. */
  lemma RaceRuns() returns (ls: seq<Label>)
    ensures CanRun(LOOSE, Start(), ls) && RunAll(LOOSE, Start(), ls) == Held(1)
  {
    hide CanRun, RunAll;
    var a := SetupRuns(1);
    var b := CrashRuns(1);
    RunThenRun(STRICT, Start(), a, b);
    var c := RecoveryTakes(1);
    RunThenRun(STRICT, Start(), a + b, c);
    ls := a + b + c;
    LooseCanToo(Start(), ls);
  }

  /** The two steps that race for the held run. */
  const STORE := Exec(1, Persist)
  const BURY := Rec(3, Resolve(2))

  /** What the tables say of run 1, and that job 1 is DONE with its key stored. */
  predicate Shows(s: Sys, status: RunStatus, dlq: seq<DlqEntry>) {
    && 1 in s.db.runs && s.db.runs[1].status == status && s.db.dlq == dlq
    && 1 in s.db.jobs && s.db.jobs[1].status == Done && KEY1 in s.db.keys
  }

  /** The race's state when the executor has come first, and when recovery has. */
  function Stored(): Sys {
    var s := Held(1);
    s.(db := s.db.(runs := s.db.runs[1 := s.db.runs[1].(status := Succeeded, payment := Some(100), lock := None)],
                   keys := map[KEY1 := 100], jobs := map[1 := JobRow(1, 10.0, [], Done, 1)],
                   h := s.db.h.(log := [Paid(1)])),
       execs := s.execs[1 := REST])
  }

  function Buried(): Sys {
    var s := Held(1);
    s.(db := s.db.(runs := s.db.runs[1 := s.db.runs[1].(status := Dead)], dlq := [DlqEntry(1, 1, 1, 1)],
                   subs := map[1 := SubRow(Active, Some(10.0), 1, UpTo(1), true, Some(EVERY_TEN))],
                   h := s.db.h.(log := [SubEvent.Buried(1)], resolved := {1})),
       recs := map[3 := R.Reaping([], 31.0)])
  }

  lemma StoreFirst()
    ensures Enabled(LOOSE, Held(1), STORE) && Apply(LOOSE, Held(1), STORE) == Stored() && Shows(Stored(), Succeeded, [])
  {
    SameSys(Apply(LOOSE, Held(1), STORE), Stored());
  }

  lemma ThenBury()
    ensures Enabled(LOOSE, Stored(), BURY) && Shows(Apply(LOOSE, Stored(), BURY), Dead, [DlqEntry(1, 1, 1, 1)])
  {
  }

  lemma BuryFirst()
    ensures Enabled(LOOSE, Held(1), BURY) && Apply(LOOSE, Held(1), BURY) == Buried()
  {
    SameSys(Apply(LOOSE, Held(1), BURY), Buried());
  }

  lemma ThenStore()
    ensures Enabled(LOOSE, Buried(), STORE) && Shows(Apply(LOOSE, Buried(), STORE), Succeeded, [DlqEntry(1, 1, 1, 1)])
  {
  }

  /** Two more steps after a run. */
  lemma TwoMore(ls: seq<Label>, a: Label, b: Label) returns (ss: seq<Sys>, all: seq<Label>)
    requires CanRun(LOOSE, Start(), ls) && Enabled(LOOSE, RunAll(LOOSE, Start(), ls), a)
    requires Enabled(LOOSE, Apply(LOOSE, RunAll(LOOSE, Start(), ls), a), b)
    ensures Trace(LOOSE, ss, all) && |all| == |ls| + 2 && all[|ls| + 1] == b && all[|ls|] == a
    ensures ss[|ls| + 1] == Apply(LOOSE, RunAll(LOOSE, Start(), ls), a)
    ensures ss[|ls| + 2] == Apply(LOOSE, ss[|ls| + 1], b)
  {
    hide CanRun, RunAll, Enabled, Apply;
    StatesFollow(LOOSE, Start(), ls);
    var s1 := Apply(LOOSE, RunAll(LOOSE, Start(), ls), a);
    ss := States(LOOSE, Start(), ls) + [s1, Apply(LOOSE, s1, b)];
    all := ls + [a, b];
  }

  /** The executor comes back first: recovery's second transaction then writes DEAD over SUCCEEDED, and the job is DONE,
      paid and in the dead-letter queue. */
  lemma RecoveryOverwritesSucceeded() returns (ss: seq<Sys>, ls: seq<Label>)
    ensures Trace(LOOSE, ss, ls) && |ls| >= 1 && ls[|ls| - 1] == BURY
    ensures Shows(ss[|ls| - 1], Succeeded, []) && Shows(ss[|ls|], Dead, [DlqEntry(1, 1, 1, 1)])
  {
    hide CanRun, RunAll, Apply, Enabled;
    var a := RaceRuns();
    StoreFirst();
    ThenBury();
    ss, ls := TwoMore(a, STORE, BURY);
  }

  /** Recovery comes first: the executor then writes SUCCEEDED over DEAD. */
  lemma ZombieOverwritesDead() returns (ss: seq<Sys>, ls: seq<Label>)
    ensures Trace(LOOSE, ss, ls) && |ls| >= 1 && ls[|ls| - 1] == STORE
    ensures var s := ss[|ls| - 1]; 1 in s.db.runs && s.db.runs[1].status == Dead
    ensures Shows(ss[|ls|], Succeeded, [DlqEntry(1, 1, 1, 1)])
  {
    hide CanRun, RunAll, Apply, Enabled;
    var a := RaceRuns();
    BuryFirst();
    ThenStore();
    ss, ls := TwoMore(a, BURY, STORE);
  }

  // ---------- a dependency that does not exist ----------

  const SPARSE := Mode(true, false)

  const LONELY := JobRow(1, 10.0, [99], Ready, 1)

  /** A job that depends on a job without a row, its run claimed. */
  lemma LonelyClaimed() returns (ls: seq<Label>)
    ensures CanRun(SPARSE, Start(), ls)
    ensures var s := RunAll(SPARSE, Start(), ls);
      && s.db.jobs == map[1 := LONELY] && s.db.keys == map[] && 1 in s.db.runs && 1 in s.db.subs && s.db.subs[1].configOk
      && 1 in s.execs && s.execs[1].phase.Busy? && s.execs[1].phase.stage == E.Claimed
      && s.execs[1].phase.ticket.run == 1 && s.execs[1].phase.ticket.job == 1 && s.execs[1].phase.ticket.sub == 1
  {
    hide CanRun, RunAll;
    ls := Still(SPARSE, Start());
    ls := Then(SPARSE, Start(), ls, Env(CreateSub(1, POLICY, true, EVERY_TEN)));
    ls := Then(SPARSE, Start(), ls, Env(AddJob(1, 1, LONELY)));
    var more := FetchAndClaim(SPARSE, RunAll(SPARSE, Start(), ls), 1, 1);
    RunThenRun(SPARSE, Start(), ls, more);
    ls := ls + more;
  }

  /** The dependency check passes over an id without a row: the job goes on to the bank though its dependency
      was never paid. */
  lemma MissingDependencyPasses() returns (ss: seq<Sys>, ls: seq<Label>)
    ensures Trace(SPARSE, ss, ls)
    ensures var s := ss[|ls|];
      && s.db.jobs == map[1 := LONELY] && s.db.keys == map[]
      && 1 in s.execs && s.execs[1].phase.Busy? && s.execs[1].phase.stage == E.NeedKey && s.execs[1].phase.ticket.job == 1
  {
    hide CanRun, RunAll;
    ls := LonelyClaimed();
    hide World, Holder, Taken;
    ls := Then(SPARSE, Start(), ls, Exec(1, Load));
    ls := Then(SPARSE, Start(), ls, Exec(1, CheckDag));
    StatesFollow(SPARSE, Start(), ls);
    ss := States(SPARSE, Start(), ls);
  }

  // ---------- a tick that comes too early ----------

  function Watch(now: Time, jobs: map<JobId, JobRow>, windows: map<Fingerprint, JobId>, runs: Runs, idx: Index, fire: Time): Sys {
    Sys(Db(Settings(30.0, 3.0, 10), now, runs, idx, jobs, windows,
           map[1 := SubRow(Active, Some(fire), 0, POLICY, true, Some(EVERY_TEN))], map[], [], map[],
           History(map[], {}, {}, map[], {}, {}, [])), map[], map[])
  }

  lemma Tens()
    ensures EVERY_TEN(0.0) == 10.0 && EVERY_TEN(8.0) == 10.0 && EVERY_TEN(25.0) == 30.0
    ensures EVERY_TEN(10.0) == 20.0 && EVERY_TEN(20.0) == 30.0
  {
    assert (0.0 / 10.0).Floor == 0 && (8.0 / 10.0).Floor == 0 && (25.0 / 10.0).Floor == 2;
    assert (10.0 / 10.0).Floor == 1 && (20.0 / 10.0).Floor == 2;
  }

  lemma SameTens(a: int, x: real)
    requires a as real <= x < (a + 1) as real
    ensures x.Floor == a
  {
  }

  lemma TensOf(t: Time)
    ensures EVERY_TEN(t) - 10.0 <= t < EVERY_TEN(t)
  {
    var a := (t / 10.0).Floor;
    assert a as real <= t / 10.0 < (a + 1) as real;
  }

  lemma EveryTenIsCron()
    ensures C.Cron(EVERY_TEN)
  {
    forall t: Time ensures t < EVERY_TEN(t) {
      TensOf(t);
    }
    forall t: Time, u: Time | t <= u < EVERY_TEN(t) ensures EVERY_TEN(u) == EVERY_TEN(t) {
      TensOf(t);
      SameTens((t / 10.0).Floor, u / 10.0);
    }
  }

  const JOB10 := JobRow(1, 10.0, [], Ready, 1)

  /** The states of the run below, in order. */
  function Watched(i: nat): Sys {
    if i == 0 then Sys(Blank().(cfg := Settings(30.0, 3.0, 10)), map[], map[])
    else if i == 1 then Watch(0.0, map[], map[], map[], map[], 10.0)
    else if i == 2 then Watch(8.0, map[], map[], map[], map[], 10.0)
    else Watch(if i == 3 then 8.0 else 25.0, map[1 := JOB10], map[ForJob(1, 10.0) := 1], map[1 := Waits(1)],
               map[(1, 1) := 1], if i <= 4 then 10.0 else 30.0)
  }

  ghost predicate Leads(s: Sys, l: Label, s': Sys) { Enabled(STRICT, s, l) && Apply(STRICT, s, l) == s' }

  lemma EarlyTick()
    ensures Leads(Watched(0), Env(CreateSub(1, POLICY, true, EVERY_TEN)), Watched(1))
    ensures Leads(Watched(1), Env(Advance(8.0)), Watched(2))
    ensures Leads(Watched(2), Env(Schedule(1, 11.0, 1, 1, 1)), Watched(3))
  {
    Tens();
  }

  lemma LateTick()
    ensures Leads(Watched(3), Env(Advance(25.0)), Watched(4))
    ensures Leads(Watched(4), Env(Schedule(1, 28.0, 2, 2, 1)), Watched(5))
  {
    Tens();
  }

  /** Occurrences 10, 20, 30 and a lookahead of 3: there is a tick at 8, between 10's entering the lookahead and
      20, and one at 25, between 20's entering it and 30; and 20 gets no job. */
  lemma EarlyTickSkips() returns (ss: seq<Sys>, ls: seq<Label>)
    ensures Trace(STRICT, ss, ls) && |ls| == 5 && ls[2].Env? && ls[2].e.Schedule? && ls[4].Env? && ls[4].e.Schedule?
    ensures ss[2].db.cfg.lookahead == 3.0 && C.Cron(EVERY_TEN)
    ensures 10.0 - 3.0 <= ss[2].db.now < EVERY_TEN(10.0) && EVERY_TEN(10.0) - 3.0 <= ss[4].db.now < EVERY_TEN(20.0)
    ensures var db := ss[5].db;
      && 1 in db.subs && db.subs[1].nextFire == Some(30.0)
      && ForJob(1, 10.0) in db.byWindow && ForJob(1, EVERY_TEN(10.0)) !in db.byWindow
  {
    hide Enabled, Apply, C.Cron;
    EveryTenIsCron();
    Tens();
    EarlyTick();
    LateTick();
    ls := [Env(CreateSub(1, POLICY, true, EVERY_TEN)), Env(Advance(8.0)), Env(Schedule(1, 11.0, 1, 1, 1)),
           Env(Advance(25.0)), Env(Schedule(1, 28.0, 2, 2, 1))];
    ss := [Watched(0), Watched(1), Watched(2), Watched(3), Watched(4), Watched(5)];
  }
}
