/** A run, every lease respected, in which a DONE job is cancelled: its dependency had no row when the job was created. */
module LateCancel {
  import opened Domain
  import opened Tables
  import opened Protocol
  import opened Paths
  import opened Safety
  import opened Payments
  import opened Counterexamples
  import E = Executor
  import R = Recovery

  const EARLY := JobRow(1, 10.0, [2], Ready, 1)
  const LATE := JobRow(2, 10.0, [], Ready, 1)
  const BROKEN := SubRow(Active, Some(10.0), 0, POLICY, false, Some(EVERY_TEN))

  /** Job 1 of subscription 1 waits for job 2 of subscription 2, whose configuration is invalid; the recovery worker has picked
      job 1 as a possible orphan. */
  function Picked(runs: Runs, idx: Index, jobs: map<JobId, JobRow>, windows: map<Fingerprint, JobId>, late: SubRow, keys: KeyMap, bank: KeyMap,
    dlq: seq<DlqEntry>, claims: map<RunId, Claim>, called: set<RunId>, log: seq<SubEvent>, e: E.Worker): Sys
  {
    Sys(Db(CFG, 0.0, runs, idx, jobs, windows, map[1 := SubRow(Active, Some(10.0), 0, POLICY, true, Some(EVERY_TEN)), 2 := late],
           keys, dlq, bank, History(claims, called, {}, map[], {}, {}, log)),
        map[1 := e, 2 := REST], map[3 := R.Judging([1])])
  }

  const ONE := map[ForJob(1, 10.0) := 1]
  const CLAIM1 := map[1 := Claim(1, 30.0, 0.0)]
  const PAID1 := RunRow(1, 1, Succeeded, None, None, Some(1), Some(100))
  const DONE1 := EARLY.(status := Done)

  function Waiting1(): Sys {
    Picked(map[1 := Waits(1)], map[(1, 1) := 1], map[1 := EARLY], ONE, BROKEN, map[], map[], [], map[], {}, [], REST)
  }

  function Busy1(stage: E.Stage): Sys {
    Picked(map[1 := Taken(1, 1, 0.0)], map[(1, 1) := 1], map[1 := EARLY], ONE, BROKEN, map[], map[], [], CLAIM1, {}, [],
           Holder(3, 1, 1, 0.0, stage))
  }

  function Called1(): Sys {
    Picked(map[1 := Taken(1, 1, 0.0)], map[(1, 1) := 1], map[1 := EARLY], ONE, BROKEN, map[], map[KEY1 := 100], [], CLAIM1, {1}, [],
           Holder(3, 1, 1, 0.0, E.Persisting(100)))
  }

  function Done1(): Sys {
    Picked(map[1 := PAID1], map[(1, 1) := 1], map[1 := DONE1], ONE, BROKEN, map[KEY1 := 100], map[KEY1 := 100], [], CLAIM1, {1},
           [Paid(1)], REST)
  }

  const RUN2 := RunRow(2, 1, Pending, None, None, None, None)

  function Added2(): Sys {
    Picked(map[1 := PAID1, 2 := RUN2], map[(1, 1) := 1, (2, 1) := 2], map[1 := DONE1, 2 := LATE], ONE[ForJob(2, 10.0) := 2], BROKEN,
           map[KEY1 := 100], map[KEY1 := 100], [], CLAIM1, {1}, [Paid(1)], REST)
  }

  function Busy2(stage: E.Stage): Sys {
    Picked(map[1 := PAID1, 2 := RUN2.(status := Running, lock := Some(30.0), worker := Some(1))], map[(1, 1) := 1, (2, 1) := 2],
           map[1 := DONE1, 2 := LATE], ONE[ForJob(2, 10.0) := 2], BROKEN, map[KEY1 := 100], map[KEY1 := 100], [],
           CLAIM1[2 := Claim(1, 30.0, 0.0)], {1}, [Paid(1)],
           E.Worker([], E.Busy(E.Ticket(2, 2, 1, 2, POLICY, 30.0), stage)))
  }

  function Dead2(): Sys {
    Picked(map[1 := PAID1, 2 := RUN2.(status := Dead, worker := Some(1))], map[(1, 1) := 1, (2, 1) := 2],
           map[1 := DONE1, 2 := LATE], ONE[ForJob(2, 10.0) := 2], BROKEN.(failures := 1), map[KEY1 := 100], map[KEY1 := 100],
           [DlqEntry(2, 2, 2, 1)], CLAIM1[2 := Claim(1, 30.0, 0.0)], {1}, [Paid(1), SubEvent.Buried(2)], REST)
  }

  lemma PickRuns() returns (ls: seq<Label>)
    ensures CanRun(SPARSE, Start(), ls) && RunAll(SPARSE, Start(), ls) == Waiting1()
  {
    TenIsNext();
    hide CanRun, RunAll;
    ls := Still(SPARSE, Start());
    ls := Then(SPARSE, Start(), ls, Env(CreateSub(1, POLICY, true, EVERY_TEN)));
    ls := Then(SPARSE, Start(), ls, Env(CreateSub(2, POLICY, false, EVERY_TEN)));
    ls := Then(SPARSE, Start(), ls, Env(AddJob(1, 1, EARLY)));
    ls := Then(SPARSE, Start(), ls, Rec(3, OrphanScan([1])));
    SameSys(RunAll(SPARSE, Start(), ls), Waiting1());
  }

  lemma ClaimRuns1() returns (ls: seq<Label>)
    ensures CanRun(SPARSE, Waiting1(), ls) && RunAll(SPARSE, Waiting1(), ls) == Busy1(E.Claimed)
  {
    hide CanRun, RunAll;
    ls := FetchAndClaim(SPARSE, Waiting1(), 1, 1);
    assert [1][1..] == [];
    SameSys(RunAll(SPARSE, Waiting1(), ls), Busy1(E.Claimed));
  }

  lemma PayRuns1() returns (ls: seq<Label>)
    ensures CanRun(SPARSE, Busy1(E.Claimed), ls) && RunAll(SPARSE, Busy1(E.Claimed), ls) == Called1()
  {
    hide CanRun, RunAll, Enabled, Apply, Busy1;
    ls := Still(SPARSE, Busy1(E.Claimed));
    Load1();
    ls := Then(SPARSE, Busy1(E.Claimed), ls, Exec(1, Load));
    Check1();
    ls := Then(SPARSE, Busy1(E.Claimed), ls, Exec(1, CheckDag));
    Look1();
    ls := Then(SPARSE, Busy1(E.Claimed), ls, Exec(1, LookUp));
    Call1();
    ls := Then(SPARSE, Busy1(E.Claimed), ls, Exec(1, Call(E.Accepted(100), 0.0)));
  }

  ghost predicate Leads(s: Sys, l: Label, s': Sys) { Enabled(SPARSE, s, l) && Apply(SPARSE, s, l) == s' }

  lemma Load1()
    ensures Leads(Busy1(E.Claimed), Exec(1, Load), Busy1(E.NeedDag))
  {
    SameSys(Apply(SPARSE, Busy1(E.Claimed), Exec(1, Load)), Busy1(E.NeedDag));
  }

  lemma Check1()
    ensures Leads(Busy1(E.NeedDag), Exec(1, CheckDag), Busy1(E.NeedKey))
  {
    SameSys(Apply(SPARSE, Busy1(E.NeedDag), Exec(1, CheckDag)), Busy1(E.NeedKey));
  }

  lemma Look1()
    ensures Leads(Busy1(E.NeedKey), Exec(1, LookUp), Busy1(E.Calling))
  {
    SameSys(Apply(SPARSE, Busy1(E.NeedKey), Exec(1, LookUp)), Busy1(E.Calling));
  }

  lemma Call1()
    ensures Leads(Busy1(E.Calling), Exec(1, Call(E.Accepted(100), 0.0)), Called1())
  {
    BankAccepts(SPARSE, Busy1(E.Calling), 1, 100);
    SameSys(Apply(SPARSE, Busy1(E.Calling), Exec(1, Call(E.Accepted(100), 0.0))), Called1());
  }

  lemma Store1()
    ensures Leads(Called1(), Exec(1, Persist), Done1())
  {
    SameSys(Apply(SPARSE, Called1(), Exec(1, Persist)), Done1());
  }

  lemma Add2()
    ensures Leads(Done1(), Env(AddJob(2, 2, LATE)), Added2())
  {
    SameSys(Apply(SPARSE, Done1(), Env(AddJob(2, 2, LATE))), Added2());
  }

  lemma ClaimRuns2() returns (ls: seq<Label>)
    ensures CanRun(SPARSE, Added2(), ls) && RunAll(SPARSE, Added2(), ls) == Busy2(E.Claimed)
  {
    hide CanRun, RunAll;
    ls := FetchAndClaim(SPARSE, Added2(), 1, 2);
    assert [2][1..] == [];
    SameSys(RunAll(SPARSE, Added2(), ls), Busy2(E.Claimed));
  }

  lemma Load2()
    ensures Leads(Busy2(E.Claimed), Exec(1, Load), Busy2(E.Burying))
  {
    SameSys(Apply(SPARSE, Busy2(E.Claimed), Exec(1, Load)), Busy2(E.Burying));
  }

  lemma Bury2()
    ensures Leads(Busy2(E.Burying), Exec(1, Bury), Dead2())
  {
    SameSys(Apply(SPARSE, Busy2(E.Burying), Exec(1, Bury)), Dead2());
  }

  lemma Cancel1()
    ensures Enabled(SPARSE, Dead2(), Rec(3, OrphanEval))
    ensures var db := Apply(SPARSE, Dead2(), Rec(3, OrphanEval)).db; 1 in db.jobs && db.jobs[1].status == Dropped && KEY1 in db.keys
  {
    assert DeadRuns(Dead2().db, 2) == {2};
    assert R.Judge(Dead2().db, [2]) == R.Orphaned(2);
  }

  lemma DoneRuns() returns (ls: seq<Label>)
    ensures CanRun(SPARSE, Start(), ls) && RunAll(SPARSE, Start(), ls) == Dead2()
  {
    hide CanRun, RunAll, Enabled, Apply, Start, Waiting1, Busy1, Called1, Done1, Added2, Busy2, Dead2;
    ls := PickRuns();
    var a := ClaimRuns1();
    RunThenRun(SPARSE, Start(), ls, a);
    var b := PayRuns1();
    RunThenRun(SPARSE, Start(), ls + a, b);
    ls := ls + a + b;
    Store1();
    ls := Then(SPARSE, Start(), ls, Exec(1, Persist));
    Add2();
    ls := Then(SPARSE, Start(), ls, Env(AddJob(2, 2, LATE)));
    var c := ClaimRuns2();
    RunThenRun(SPARSE, Start(), ls, c);
    ls := ls + c;
    Load2();
    ls := Then(SPARSE, Start(), ls, Exec(1, Load));
    Bury2();
    ls := Then(SPARSE, Start(), ls, Exec(1, Bury));
  }

  /** Every lease respected: an orphan scan picks a job whose dependency has no row, the job is paid and DONE, the dependency is created
      and dies, and the scan's verdict then cancels the DONE job. */
  lemma DoneIsCancelled() returns (ss: seq<Sys>, ls: seq<Label>)
    ensures Trace(SPARSE, ss, ls) && |ls| >= 1
    ensures 1 in ss[|ls| - 1].db.jobs && ss[|ls| - 1].db.jobs[1].status == Done
    ensures 1 in ss[|ls|].db.jobs && ss[|ls|].db.jobs[1].status == Dropped && KEY1 in ss[|ls|].db.keys
  {
    hide CanRun, RunAll, Enabled, Apply;
    var a := DoneRuns();
    Cancel1();
    StatesFollow(SPARSE, Start(), a);
    ls := a + [Rec(3, OrphanEval)];
    ss := States(SPARSE, Start(), a) + [Apply(SPARSE, Dead2(), Rec(3, OrphanEval))];
  }
}
