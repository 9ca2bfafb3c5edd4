/** A job that still may be tried can still be paid, in every mode and from every reachable state. */
module Payable {
  import opened Domain
  import opened Tables
  import opened Protocol
  import opened Paths
  import opened Safety
  import opened Payments
  import opened Termination
  import T = Settlement
  import E = Executor
  import R = Recovery

  ghost predicate Sane(s: Sys) { Inv(s) && PayInv(s) }

  lemma {:induction false} SaneAlong(m: Mode, s: Sys, ls: seq<Label>)
    requires Sane(s) && CanRun(m, s, ls)
    ensures Sane(RunAll(m, s, ls)) && Grows(s.db, RunAll(m, s, ls).db)
    decreases |ls|
  {
    hide Inv, PayInv, Enabled, Apply, Grows, Promises;
    if ls == [] {
      GrowsReflexive(s.db);
    } else {
      Step(m, s, ls[0]);
      PayStep(m, s, ls[0]);
      SaneAlong(m, Apply(m, s, ls[0]), ls[1..]);
      GrowsTransitive(s.db, Apply(m, s, ls[0]).db, RunAll(m, s, ls).db);
    }
  }

  /** The tables a payment needs are as they were. */
  ghost predicate Undisturbed(db: Db, db': Db) {
    && (forall x :: x in db.subs ==> x in db'.subs && db'.subs[x].configOk == db.subs[x].configOk && db'.subs[x].policy == db.subs[x].policy)
    && db'.h.stranded == db.h.stranded && db'.cfg == db.cfg
    && db'.jobs == db.jobs
  }

  /** The payment configuration is valid, and every dependency that has a row is DONE. */
  predicate Unblocked(db: Db, j: JobId) {
    j in db.jobs && db.jobs[j].sub in db.subs && db.subs[db.jobs[j].sub].configOk && E.DependenciesDone(db, db.jobs[j].deps)
  }

  // ---------- the three parts of a successful attempt ----------

  lemma ClaimGives(m: Mode, s: Sys, r: RunId, e: WorkerId)
    requires r in s.db.runs && s.db.runs[r].status == Pending && Unblocked(s.db, s.db.runs[r].job)
    requires e in s.execs && s.execs[e] == E.Worker([r], E.Idle)
    ensures Enabled(m, s, Exec(e, ClaimNext))
    ensures var s', row := Apply(m, s, Exec(e, ClaimNext)), s.db.runs[r];
      && Undisturbed(s.db, s'.db) && s'.db.now == s.db.now && s'.db.keys == s.db.keys && s'.db.bank == s.db.bank
      && r in s'.db.runs && s'.db.runs[r].job == row.job && s'.db.runs[r].attempt == row.attempt && s'.recs == s.recs
      && e in s'.execs && s'.execs[e] ==
         E.Worker([], E.Busy(E.Ticket(r, row.job, row.attempt, s.db.jobs[row.job].sub, s.db.subs[s.db.jobs[row.job].sub].policy,
                                      s.db.now + s.db.cfg.lockTimeout), E.Claimed))
  {
    assert [r][1..] == [];
  }

  /** A ticket that is true of the tables, under a key that is on no books yet. */
  predicate Fit(m: Mode, db: Db, t: E.Ticket) {
    && t.run in db.runs && Unblocked(db, t.job) && t.sub == db.jobs[t.job].sub
    && ForRun(t.run, t.attempt) !in db.keys && ForRun(t.run, t.attempt) !in db.bank
    && (m.leases ==> db.now <= t.lease)
  }

  function At(s: Sys, e: WorkerId, t: E.Ticket, stage: E.Stage): Sys {
    s.(execs := s.execs[e := E.Worker([], E.Busy(t, stage))])
  }

  lemma LoadGives(m: Mode, s: Sys, e: WorkerId, t: E.Ticket)
    requires e in s.execs && s.execs[e] == E.Worker([], E.Busy(t, E.Claimed)) && Fit(m, s.db, t)
    ensures Enabled(m, s, Exec(e, Load))
    ensures Apply(m, s, Exec(e, Load)) ==
      At(s, e, t.(policy := s.db.subs[t.sub].policy), if s.db.jobs[t.job].deps != [] then E.NeedDag else E.NeedKey)
  {
  }

  lemma CheckGives(m: Mode, s: Sys, e: WorkerId, t: E.Ticket)
    requires e in s.execs && s.execs[e] == E.Worker([], E.Busy(t, E.NeedDag)) && Fit(m, s.db, t)
    ensures Enabled(m, s, Exec(e, CheckDag)) && Apply(m, s, Exec(e, CheckDag)) == At(s, e, t, E.NeedKey)
  {
  }

  lemma LookGives(m: Mode, s: Sys, e: WorkerId, t: E.Ticket)
    requires e in s.execs && s.execs[e] == E.Worker([], E.Busy(t, E.NeedKey)) && Fit(m, s.db, t)
    ensures Enabled(m, s, Exec(e, LookUp)) && Apply(m, s, Exec(e, LookUp)) == At(s, e, t, E.Calling)
  {
  }

  const ACCEPT := Call(E.Accepted(0), 0.0)

  lemma CallGives(m: Mode, s: Sys, e: WorkerId, t: E.Ticket)
    requires e in s.execs && s.execs[e] == E.Worker([], E.Busy(t, E.Calling)) && Fit(m, s.db, t)
    ensures Enabled(m, s, Exec(e, ACCEPT))
    ensures var s' := Apply(m, s, Exec(e, ACCEPT));
      && e in s'.execs && s'.execs[e] == E.Worker([], E.Busy(t, E.Persisting(0)))
      && s'.db.runs == s.db.runs && s'.db.jobs == s.db.jobs && s'.db.keys == s.db.keys && s'.db.now == s.db.now
      && s'.db.h.stranded == s.db.h.stranded
  {
  }

  lemma PersistGives(m: Mode, s: Sys, e: WorkerId, t: E.Ticket)
    requires e in s.execs && s.execs[e] == E.Worker([], E.Busy(t, E.Persisting(0)))
    requires t.run in s.db.runs && t.job in s.db.jobs && ForRun(t.run, t.attempt) !in s.db.keys && (m.leases ==> s.db.now <= t.lease)
    ensures Enabled(m, s, Exec(e, Persist))
    ensures var db := Apply(m, s, Exec(e, Persist)).db;
      t.job in db.jobs && db.jobs[t.job].status == Done && db.h.stranded == s.db.h.stranded
  {
  }

  /** From the claim to the success transaction. */
  lemma PayClaimed(m: Mode, s: Sys, e: WorkerId, t: E.Ticket) returns (ls: seq<Label>)
    requires e in s.execs && s.execs[e] == E.Worker([], E.Busy(t, E.Claimed)) && Fit(m, s.db, t)
    ensures |ls| <= 5 && CanRun(m, s, ls)
    ensures var db := RunAll(m, s, ls).db; t.job in db.jobs && db.jobs[t.job].status == Done && db.h.stranded == s.db.h.stranded
  {
    hide CanRun, RunAll, Enabled, Apply;
    var t' := t.(policy := s.db.subs[t.sub].policy);
    ls := Still(m, s);
    LoadGives(m, s, e, t);
    ls := Then(m, s, ls, Exec(e, Load));
    if s.db.jobs[t.job].deps != [] {
      CheckGives(m, At(s, e, t', E.NeedDag), e, t');
      ls := Then(m, s, ls, Exec(e, CheckDag));
    }
    var s1 := At(s, e, t', E.NeedKey);
    SameAt(s, e, t', E.NeedDag, E.NeedKey);
    LookGives(m, s1, e, t');
    ls := Then(m, s, ls, Exec(e, LookUp));
    var s2 := RunAll(m, s, ls);
    CallGives(m, s2, e, t');
    ls := Then(m, s, ls, Exec(e, ACCEPT));
    PersistGives(m, RunAll(m, s, ls), e, t');
    ls := Then(m, s, ls, Exec(e, Persist));
  }

  lemma SameAt(s: Sys, e: WorkerId, t: E.Ticket, a: E.Stage, b: E.Stage)
    ensures At(At(s, e, t, a), e, t, b) == At(s, e, t, b)
  {
  }

  lemma KeyIsNew(db: Db, r: RunId)
    requires Sound(db) && Booked(db) && r in db.runs && db.runs[r].status == Pending
    ensures KeyOf(db, r) !in db.keys && KeyOf(db, r) !in db.bank
  {
    hide Sound, CauseOk;
    NotYetClaimed(db, r);
  }

  /** What an executor needs to take a PENDING run through to its payment. */
  predicate CanTry(m: Mode, s: Sys, j: JobId, e: WorkerId) {
    && Unblocked(s.db, j) && e in s.execs && s.execs[e] == E.Worker([], E.Idle)
    && s.db.cfg.batchSize >= 1 && (m.leases ==> 0.0 <= s.db.cfg.lockTimeout)
  }

  lemma PayPending(m: Mode, s: Sys, r: RunId, e: WorkerId) returns (ls: seq<Label>)
    requires Sane(s) && r in s.db.runs && s.db.runs[r].status == Pending && CanTry(m, s, s.db.runs[r].job, e)
    ensures |ls| <= 8 && CanRun(m, s, ls)
    ensures var db, j := RunAll(m, s, ls).db, s.db.runs[r].job;
      j in db.jobs && db.jobs[j].status == Done && db.h.stranded == s.db.h.stranded
  {
    hide Sound, Booked, CanRun, RunAll, Enabled, Apply, Tracked, E.DependenciesDone;
    KeyIsNew(s.db, r);
    var to := WhenDue(s.db, r);
    var s1 := Wait(s, to);
    var s2 := s1.(execs := s1.execs[e := E.Worker([r], E.Idle)]);
    WaitEnabled(m, s, to);
    FetchEnabled(m, s1, r, e);
    StillUnblocked(s.db, s1.db, s.db.runs[r].job);
    ClaimGives(m, s2, r, e);
    ls := Still(m, s);
    ls := Then(m, s, ls, Env(Advance(to)));
    ls := Then(m, s, ls, Exec(e, Fetch([r])));
    ls := Then(m, s, ls, Exec(e, ClaimNext));
    var s3 := RunAll(m, s, ls);
    StillUnblocked(s2.db, s3.db, s.db.runs[r].job);
    var more := PayClaimed(m, s3, e, s3.execs[e].phase.ticket);
    RunThenRun(m, s, ls, more);
    ls := ls + more;
  }

  lemma StillUnblocked(db: Db, db': Db, j: JobId)
    requires Unblocked(db, j) && Undisturbed(db, db')
    ensures Unblocked(db', j)
  {
  }

  // ---------- from a stalled attempt to the next one ----------

  lemma TakeGives(m: Mode, s: Sys, r: RunId, v: WorkerId, asOf: Time)
    requires R.Stuck(s.db, r, asOf) && v in s.recs && s.recs[v] == R.Reaping([r], asOf)
    ensures Enabled(m, s, Rec(v, Reap))
    ensures var s' := Apply(m, s, Rec(v, Reap));
      && Undisturbed(s.db, s'.db) && s'.db.byAttempt == s.db.byAttempt && s'.execs == s.execs
      && r in s'.db.runs && s'.db.runs[r].job == s.db.runs[r].job && s'.db.runs[r].attempt == s.db.runs[r].attempt
      && v in s'.recs && s'.recs[v].Holding? && s'.recs[v].stub.run == r
  {
  }

  lemma FollowGives(m: Mode, s: Sys, r: RunId, v: WorkerId, id: RunId)
    requires v in s.recs && s.recs[v].Holding? && s.recs[v].stub.run == r && RecOk(s.db, v, s.recs[v]) && id !in s.db.runs
    requires r in s.db.runs && IsTop(s.db, r) && s.db.runs[r].attempt < Allowed(s.db, s.db.runs[r].job)
    ensures Enabled(m, s, Rec(v, Resolve(id)))
    ensures var s' := Apply(m, s, Rec(v, Resolve(id)));
      && Undisturbed(s.db, s'.db) && s'.execs == s.execs
      && id in s'.db.runs && s'.db.runs[id].status == Pending && s'.db.runs[id].job == s.db.runs[r].job
  {
  }

  /** A held run, not the last one allowed: the follow-up, and the next attempt is paid. */
  lemma PayHeld(m: Mode, s: Sys, r: RunId, v: WorkerId, e: WorkerId) returns (ls: seq<Label>)
    requires Sane(s) && v in s.recs && s.recs[v].Holding? && s.recs[v].stub.run == r
    requires r in s.db.runs && IsTop(s.db, r) && s.db.runs[r].attempt < Allowed(s.db, s.db.runs[r].job)
    requires CanTry(m, s, s.db.runs[r].job, e)
    ensures |ls| <= 9 && CanRun(m, s, ls)
    ensures var db, j := RunAll(m, s, ls).db, s.db.runs[r].job;
      j in db.jobs && db.jobs[j].status == Done && db.h.stranded == s.db.h.stranded
  {
    hide Sound, PayInv, CanRun, RunAll, Enabled, Apply, Tracked, E.DependenciesDone, Grows;
    var id := FreshId(s.db.runs.Keys);
    assert RecOk(s.db, v, s.recs[v]);
    FollowGives(m, s, r, v, id);
    One(m, s, Rec(v, Resolve(id)));
    ls := [Rec(v, Resolve(id))];
    var s1 := RunAll(m, s, ls);
    SaneAlong(m, s, ls);
    StillUnblocked(s.db, s1.db, s.db.runs[r].job);
    var more := PayPending(m, s1, id, e);
    RunThenRun(m, s, ls, more);
    ls := ls + more;
  }

  lemma LeaseOver(db: Db, r: RunId) returns (to: Time)
    requires Sound(db) && r in db.runs && db.runs[r].status == Running
    ensures db.now <= to && R.Stuck(db.(now := to), r, to)
  {
    hide RunIndex, NoGaps, LiveTop, JobIndex, References, ReapsOk, PoliciesOk;
    var lease := db.runs[r].lock.value;
    to := if db.now <= lease then lease + 1.0 else db.now;
  }

  lemma PayRunning(m: Mode, s: Sys, r: RunId, v: WorkerId, e: WorkerId) returns (ls: seq<Label>)
    requires Sane(s) && v in s.recs && s.recs[v] == R.Idle && r in s.db.runs && s.db.runs[r].status == Running
    requires IsTop(s.db, r) && s.db.runs[r].attempt < Allowed(s.db, s.db.runs[r].job) && CanTry(m, s, s.db.runs[r].job, e)
    ensures |ls| <= 12 && CanRun(m, s, ls)
    ensures var db, j := RunAll(m, s, ls).db, s.db.runs[r].job;
      j in db.jobs && db.jobs[j].status == Done && db.h.stranded == s.db.h.stranded
  {
    hide Sound, PayInv, CanRun, RunAll, Enabled, Apply, Tracked, E.DependenciesDone, Grows;
    var to := LeaseOver(s.db, r);
    var s1 := Wait(s, to);
    var s2 := s1.(recs := s1.recs[v := R.Reaping([r], to)]);
    WaitEnabled(m, s, to);
    ScanEnabled(m, s1, r, v, to);
    TakeGives(m, s2, r, v, to);
    ls := Still(m, s);
    ls := Then(m, s, ls, Env(Advance(to)));
    ls := Then(m, s, ls, Rec(v, Scan([r], to)));
    ls := Then(m, s, ls, Rec(v, Reap));
    var s3 := RunAll(m, s, ls);
    SaneAlong(m, s, ls);
    StillUnblocked(s.db, s3.db, s.db.runs[r].job);
    var more := PayHeld(m, s3, r, v, e);
    RunThenRun(m, s, ls, more);
    ls := ls + more;
  }

  lemma PayLast(m: Mode, s: Sys, r: RunId, v: WorkerId, e: WorkerId) returns (ls: seq<Label>)
    requires Sane(s) && T.Kept(s.db) && r in s.db.runs && IsTop(s.db, r) && r !in s.db.h.stranded && CanTry(m, s, s.db.runs[r].job, e)
    requires v in s.recs && s.recs[v] == R.Idle && !T.Settled(s.db.jobs[s.db.runs[r].job])
    requires var row := s.db.runs[r]; row.status == Pending || (row.status != Dead && row.attempt < Allowed(s.db, row.job))
    ensures |ls| <= 12 && CanRun(m, s, ls)
    ensures var db, j := RunAll(m, s, ls).db, s.db.runs[r].job;
      j in db.jobs && db.jobs[j].status == Done && db.h.stranded == s.db.h.stranded
  {
    hide Sound, PayInv, T.Kept, CanRun, RunAll, Tracked, CanTry, Allowed;
    T.NoJobLostIn(s, r);
    if s.db.runs[r].status == Pending {
      ls := PayPending(m, s, r, e);
    } else if s.db.runs[r].status == Running {
      ls := PayRunning(m, s, r, v, e);
    } else {
      var w :| w in s.recs && s.recs[w].Holding? && s.recs[w].stub.run == r;
      ls := PayHeld(m, s, r, w, e);
    }
  }

  /** In every mode and from every reachable state: an open job whose last run is PENDING, or may be followed by another attempt and
      was not left behind, whose payment configuration is valid and whose dependencies are DONE where they have a row, has a
      continuation of at most 12 steps that makes it DONE and leaves nothing behind. */
  lemma CanBePaid(m: Mode, ss: seq<Sys>, ls: seq<Label>, i: nat, r: RunId, e: WorkerId, v: WorkerId) returns (more: seq<Label>)
    requires Trace(m, ss, ls) && i < |ss| && r in ss[i].db.runs && IsTop(ss[i].db, r) && r !in ss[i].db.h.stranded
    requires CanTry(m, ss[i], ss[i].db.runs[r].job, e) && v in ss[i].recs && ss[i].recs[v] == R.Idle
    requires !T.Settled(ss[i].db.jobs[ss[i].db.runs[r].job])
    requires var row := ss[i].db.runs[r]; row.status == Pending || (row.status != Dead && row.attempt < Allowed(ss[i].db, row.job))
    ensures |more| <= 12 && CanRun(m, ss[i], more)
    ensures var db, j := RunAll(m, ss[i], more).db, ss[i].db.runs[r].job;
      j in db.jobs && db.jobs[j].status == Done && db.h.stranded == ss[i].db.h.stranded
  {
    hide Inv, PayInv, T.Kept, CanRun, RunAll, Apply, Enabled, Allowed;
    PayAlways(m, ss, ls, i);
    T.KeptAlways(m, ss, ls, i);
    more := PayLast(m, ss[i], r, v, e);
  }
}
