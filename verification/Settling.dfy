/** From every reachable state a job can be brought to an end, in a number of steps linear in its attempts. */
module Settling {
  import opened Domain
  import opened Tables
  import opened Protocol
  import opened Paths
  import opened Safety
  import opened Termination
  import A = Attempts
  import T = Settlement
  import E = Executor
  import R = Recovery

  ghost predicate Good(s: Sys) { Inv(s) && T.Kept(s.db) }

  /** The job is DONE or CANCELLED, or its last run is DEAD. */
  ghost predicate Over(db: Db, j: JobId) {
    && j in db.jobs
    && (T.Settled(db.jobs[j]) || exists r :: Ended(db, j, r))
  }

  predicate Ended(db: Db, j: JobId, r: RunId) {
    r in db.runs && db.runs[r].job == j && IsTop(db, r) && db.runs[r].status == Dead
  }

  /** No recovery worker has left the last run of the job behind. */
  ghost predicate NotLeft(db: Db, j: JobId) {
    forall r :: r in db.runs && db.runs[r].job == j && IsTop(db, r) ==> r !in db.h.stranded
  }

  predicate Ready(s: Sys, e: WorkerId, v: WorkerId) {
    e in s.execs && s.execs[e] == E.Worker([], E.Idle) && v in s.recs && s.recs[v] == R.Idle
  }

  /** How many of the steps write or add a run of the job. */
  ghost function ChangesIn(m: Mode, s: Sys, ls: seq<Label>, j: JobId): nat
    requires CanRun(m, s, ls)
    decreases |ls|
  {
    if ls == [] then 0
    else
      var s1 := Apply(m, s, ls[0]);
      (if JobChanged(s.db, s1.db, j) then 1 else 0) + ChangesIn(m, s1, ls[1..], j)
  }

  lemma GoodStep(m: Mode, s: Sys, l: Label)
    requires Good(s) && Enabled(m, s, l)
    ensures Good(Apply(m, s, l)) && Grows(s.db, Apply(m, s, l).db)
  {
    hide Inv, T.Kept, Enabled, Apply, Grows, Promises;
    Step(m, s, l);
    T.KeptStep(m, s, l);
  }

  /** A run of the protocol uses up at least as much of the job's stock as it changes the job's runs. */
  lemma {:induction false} RunSpends(m: Mode, s: Sys, ls: seq<Label>, j: JobId)
    requires Good(s) && CanRun(m, s, ls) && j in s.db.jobs
    ensures var s' := RunAll(m, s, ls); var n := Allowed(s.db, j);
      && Good(s') && Grows(s.db, s'.db) && j in s'.db.jobs && Allowed(s'.db, j) == n
      && ChangesIn(m, s, ls, j) + Stock(s', j, n) <= Stock(s, j, n)
    decreases |ls|
  {
    hide Good, Enabled, Apply, Stock, Allowed, JobChanged, Grows;
    if ls == [] {
      GrowsReflexive(s.db);
    } else {
      GoodStep(m, s, ls[0]);
      GoodSpends(m, s, ls[0], j);
      RunSpends(m, Apply(m, s, ls[0]), ls[1..], j);
      GrowsTransitive(s.db, Apply(m, s, ls[0]).db, RunAll(m, s, ls).db);
    }
  }

  lemma GoodSpends(m: Mode, s: Sys, l: Label, j: JobId)
    requires Good(s) && Enabled(m, s, l) && j in s.db.jobs
    ensures var s' := Apply(m, s, l); var n := Allowed(s.db, j);
      && j in s'.db.jobs && Allowed(s'.db, j) == n
      && Stock(s', j, n) <= Stock(s, j, n) - (if JobChanged(s.db, s'.db, j) then 1 else 0)
  {
    hide Inv, T.Kept, Enabled, Apply;
    SpendStock(m, s, l, j);
  }

  /** A run of the protocol that strands nothing leaves a job that was not left behind so. */
  lemma StaysNotLeft(db: Db, db': Db, j: JobId)
    requires Sound(db) && Grows(db, db') && db'.h.stranded == db.h.stranded && NotLeft(db, j)
    ensures NotLeft(db', j)
  {
    hide RunIndex, NoGaps, LiveTop, References, JobIndex, PoliciesOk;
  }

  lemma ChangedThrough(a: Db, b: Db, c: Db, j: JobId)
    requires JobChanged(a, c, j) && !JobChanged(b, c, j)
    ensures JobChanged(a, b, j)
  {
    var r :| RowChanged(a, c, r) && c.runs[r].job == j;
    assert !RowChanged(b, c, r);
    assert RowChanged(a, b, r);
  }

  lemma {:induction false} ChangeCounts(m: Mode, s: Sys, ls: seq<Label>, j: JobId)
    requires CanRun(m, s, ls) && JobChanged(s.db, RunAll(m, s, ls).db, j)
    ensures ChangesIn(m, s, ls, j) >= 1
    decreases |ls|
  {
    hide Enabled, Apply;
    if ls != [] {
      var s1 := Apply(m, s, ls[0]);
      hide JobChanged;
      if JobChanged(s1.db, RunAll(m, s, ls).db, j) {
        ChangeCounts(m, s1, ls[1..], j);
      } else {
        ChangedThrough(s.db, s1.db, RunAll(m, s, ls).db, j);
      }
    }
  }

  lemma {:induction false} ChangesThenChanges(m: Mode, s: Sys, ls: seq<Label>, more: seq<Label>, j: JobId)
    requires CanRun(m, s, ls) && CanRun(m, RunAll(m, s, ls), more) && CanRun(m, s, ls + more)
    ensures ChangesIn(m, s, ls + more, j) == ChangesIn(m, s, ls, j) + ChangesIn(m, RunAll(m, s, ls), more, j)
    decreases |ls|
  {
    hide Enabled, Apply, JobChanged;
    if ls == [] {
      assert ls + more == more;
    } else {
      assert (ls + more)[1..] == ls[1..] + more;
      ChangesThenChanges(m, Apply(m, s, ls[0]), ls[1..], more, j);
    }
  }

  lemma Finishing(m: Mode, s: Sys, v: WorkerId)
    requires v in s.recs && !s.recs[v].Holding?
    ensures Enabled(m, s, Rec(v, GiveUp)) && Apply(m, s, Rec(v, GiveUp)) == s.(recs := s.recs[v := R.Idle])
  {
  }

  lemma Dropping(m: Mode, s: Sys, e: WorkerId)
    requires e in s.execs
    ensures Enabled(m, s, Exec(e, Abandon([])))
    ensures Apply(m, s, Exec(e, Abandon([]))) == s.(execs := s.execs[e := E.Worker([], E.Idle)])
  {
  }

  lemma Following(m: Mode, s: Sys, v: WorkerId) returns (id: RunId)
    requires v in s.recs && RecOk(s.db, v, s.recs[v]) && s.recs[v].Holding?
    ensures Enabled(m, s, Rec(v, Resolve(id)))
    ensures var s' := Apply(m, s, Rec(v, Resolve(id)));
      s'.execs == s.execs && v in s'.recs && !s'.recs[v].Holding? && s'.db.h.stranded == s.db.h.stranded
  {
    id := FreshId(s.db.runs.Keys);
  }

  /** The two workers let go of what they hold; recovery commits its follow-up first, so nothing is left behind. */
  lemma Release(m: Mode, s: Sys, e: WorkerId, v: WorkerId) returns (ls: seq<Label>)
    requires e in s.execs && v in s.recs && RecOk(s.db, v, s.recs[v])
    ensures |ls| <= 3 && CanRun(m, s, ls) && Ready(RunAll(m, s, ls), e, v)
    ensures RunAll(m, s, ls).db.h.stranded == s.db.h.stranded
  {
    hide CanRun, RunAll, Enabled, Apply;
    ls := Still(m, s);
    if s.recs[v].Holding? {
      var id := Following(m, s, v);
      ls := Then(m, s, ls, Rec(v, Resolve(id)));
    }
    var s1 := RunAll(m, s, ls);
    Finishing(m, s1, v);
    ls := Then(m, s, ls, Rec(v, GiveUp));
    Dropping(m, RunAll(m, s, ls), e);
    ls := Then(m, s, ls, Exec(e, Abandon([])));
  }

  lemma StepKeepsWorkers(m: Mode, s: Sys, l: Label, e: WorkerId, v: WorkerId)
    requires Enabled(m, s, l) && e in s.execs && v in s.recs
    ensures e in Apply(m, s, l).execs && v in Apply(m, s, l).recs
  {
    hide EnvApply, ExecApply, RecApply, EnvEnabled, ExecEnabled, RecEnabled;
  }

  lemma {:induction false} WorkersStay(m: Mode, s: Sys, ls: seq<Label>, e: WorkerId, v: WorkerId)
    requires CanRun(m, s, ls) && e in s.execs && v in s.recs
    ensures e in RunAll(m, s, ls).execs && v in RunAll(m, s, ls).recs
    decreases |ls|
  {
    hide Enabled, Apply;
    if ls != [] {
      StepKeepsWorkers(m, s, ls[0], e, v);
      WorkersStay(m, Apply(m, s, ls[0]), ls[1..], e, v);
    }
  }

  lemma LastRunOf(db: Db, j: JobId) returns (r: RunId)
    requires Sound(db) && j in db.jobs
    ensures r in db.runs && db.runs[r].job == j && IsTop(db, r)
  {
    hide NoGaps, LiveTop, References, JobIndex, ClaimsOk, ReapsOk, PoliciesOk;
    var k := A.TopAttempt(db, j);
    r := db.byAttempt[(j, k)];
  }

  /** One round: a change of the job's runs, and both workers idle again. */
  lemma Round(m: Mode, s: Sys, j: JobId, e: WorkerId, v: WorkerId) returns (ls: seq<Label>)
    requires Good(s) && j in s.db.jobs && !Over(s.db, j) && NotLeft(s.db, j) && Ready(s, e, v) && s.db.cfg.batchSize >= 1
    ensures |ls| <= 6 && CanRun(m, s, ls) && Ready(RunAll(m, s, ls), e, v) && ChangesIn(m, s, ls, j) >= 1
    ensures RunAll(m, s, ls).db.h.stranded == s.db.h.stranded
  {
    hide Sound, T.Kept, CanRun, RunAll, Tracked, JobChanged, ChangesIn;
    var r := LastRunOf(s.db, j);
    assert !Ended(s.db, j, r);
    var a := MoveOn(m, s, r, e, v);
    ChangeCounts(m, s, a, j);
    WorkersStay(m, s, a, e, v);
    RunSpends(m, s, a, j);
    var b := Release(m, RunAll(m, s, a), e, v);
    RunThenRun(m, s, a, b);
    ChangesThenChanges(m, s, a, b, j);
    ls := a + b;
  }

  lemma GoodStaysNotLeft(s: Sys, s': Sys, j: JobId)
    requires Good(s) && Grows(s.db, s'.db) && s'.db.h.stranded == s.db.h.stranded && NotLeft(s.db, j)
    ensures NotLeft(s'.db, j) && s'.db.cfg == s.db.cfg
  {
    hide Sound, NotLeft, RunsGrow, Extends, HistoryGrows;
    StaysNotLeft(s.db, s'.db, j);
  }

  lemma {:induction false} SettleFrom(m: Mode, s: Sys, j: JobId, e: WorkerId, v: WorkerId) returns (more: seq<Label>)
    requires Good(s) && j in s.db.jobs && NotLeft(s.db, j) && Ready(s, e, v) && s.db.cfg.batchSize >= 1
    ensures CanRun(m, s, more) && Over(RunAll(m, s, more).db, j) && RunAll(m, s, more).db.h.stranded == s.db.h.stranded
    ensures |more| <= 6 * Stock(s, j, Allowed(s.db, j))
    decreases Stock(s, j, Allowed(s.db, j))
  {
    hide Good, Over, NotLeft, Ready, CanRun, RunAll, ChangesIn, Stock, Allowed, Grows;
    if Over(s.db, j) {
      more := Still(m, s);
    } else {
      var a := Round(m, s, j, e, v);
      RunSpends(m, s, a, j);
      GoodStaysNotLeft(s, RunAll(m, s, a), j);
      var b := SettleFrom(m, RunAll(m, s, a), j, e, v);
      RunThenRun(m, s, a, b);
      more := a + b;
    }
  }

  /** From every reachable state with an idle executor and an idle recovery worker, a job whose last run was not left behind has
      a continuation that makes it DONE or CANCELLED, or its last run DEAD, and leaves nothing behind: at most 24 steps for
      each attempt its policy allows, at most 4 of which change its runs. */
  lemma CanBeSettled(m: Mode, ss: seq<Sys>, ls: seq<Label>, i: nat, j: JobId, e: WorkerId, v: WorkerId) returns (more: seq<Label>)
    requires Trace(m, ss, ls) && i < |ss| && j in ss[i].db.jobs && NotLeft(ss[i].db, j)
    requires Ready(ss[i], e, v) && ss[i].db.cfg.batchSize >= 1
    ensures CanRun(m, ss[i], more) && Over(RunAll(m, ss[i], more).db, j)
    ensures RunAll(m, ss[i], more).db.h.stranded == ss[i].db.h.stranded
    ensures ChangesIn(m, ss[i], more, j) <= 4 * Allowed(ss[i].db, j) && |more| <= 24 * Allowed(ss[i].db, j)
  {
    hide Inv, T.Kept, CanRun, RunAll, Over, NotLeft, Ready, ChangesIn, Allowed, Apply, Enabled, Grows;
    Always(m, ss, ls, i);
    T.KeptAlways(m, ss, ls, i);
    more := SettleFrom(m, ss[i], j, e, v);
    RunSpends(m, ss[i], more, j);
  }
}
