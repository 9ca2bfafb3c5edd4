/** How a job comes to be paid twice, over whole runs. */
module Duplicates {
  import opened Domain
  import opened Tables
  import opened Protocol
  import opened Safety
  import opened Payments
  import N = Termination

  /** A row that a step adds is the last attempt of its job. */
  lemma NewRowIsLast(m: Mode, s: Sys, l: Label, r: RunId)
    requires Inv(s) && Enabled(m, s, l) && r in Apply(m, s, l).db.runs && r !in s.db.runs
    ensures IsTop(Apply(m, s, l).db, r)
  {
    hide Sound, Apply, Enabled, ExecOk, RecOk, Tracked, Guarantee;
    Step(m, s, l);
    N.Spend(m, s, l);
    PendingLast(Apply(m, s, l).db, r);
  }

  lemma PendingLast(db: Db, r: RunId)
    requires Sound(db) && r in db.runs && db.runs[r].status == Pending
    ensures IsTop(db, r)
  {
    hide RunIndex, NoGaps, References, JobIndex, ClaimsOk, ReapsOk, PoliciesOk;
    assert Live(db.runs[r]);
  }

  /** Step t gives the run `r` its successor: the executor's retry, or recovery's follow-up. */
  ghost predicate FollowedAt(ss: seq<Sys>, ls: seq<Label>, t: nat, r: RunId) {
    t < |ls| && t < |ss| && r in ss[t].db.runs && IsTop(ss[t].db, r) && AddsNext(ss[t], ls[t], r)
  }

  /** A run that is not the last attempt of its job was followed up by one such step. */
  lemma {:induction false} SuccessorHasCause(m: Mode, ss: seq<Sys>, ls: seq<Label>, i: nat, r: RunId) returns (t: nat)
    requires Trace(m, ss, ls) && i < |ss| && r in ss[i].db.runs && !IsTop(ss[i].db, r)
    ensures t < i && FollowedAt(ss, ls, t, r)
  {
    hide Inv, Apply, Enabled, AddsNext, IsTop;
    if i == 0 {
      assert false;
    }
    Always(m, ss, ls, i - 1);
    if r !in ss[i - 1].db.runs {
      NewRowIsLast(m, ss[i - 1], ls[i - 1], r);
    } else if IsTop(ss[i - 1].db, r) {
      PaidRunFollowedIff(m, ss, ls, i - 1, r);
      t := i - 1;
    } else {
      t := SuccessorHasCause(m, ss, ls, i - 1, r);
    }
  }

  lemma EarlierPaidRun(db: Db, j: JobId) returns (r: RunId)
    requires Sound(db) && Booked(db) && |PaymentsOf(db, j)| >= 2
    ensures r in db.runs && db.runs[r].job == j && !IsTop(db, r) && KeyOf(db, r) in db.bank
  {
    hide Sound, CallsOk, CauseOk;
    var pays := PaymentsOf(db, j);
    var k := SomeElement(pays);
    assert |pays - {k}| == |pays| - 1;
    var k' := SomeElement(pays - {k});
    if IsTop(db, k.run) {
      if IsTop(db, k'.run) {
        OneTop(db, k.run, k'.run);
      }
      r := k'.run;
    } else {
      r := k.run;
    }
  }

  /** A job that has two payments has a paid run that was followed, by an executor's retry or a recovery worker's follow-up, at
      some step before; whether that run was paid before or after that step. No such step, no second payment. */
  lemma TwicePaidHasCause(m: Mode, ss: seq<Sys>, ls: seq<Label>, i: nat, j: JobId) returns (t: nat, r: RunId)
    requires Trace(m, ss, ls) && i < |ss| && |PaymentsOf(ss[i].db, j)| >= 2
    ensures t < i && FollowedAt(ss, ls, t, r) && ss[t].db.runs[r].job == j
    ensures r in ss[i].db.runs && KeyOf(ss[i].db, r) in ss[i].db.bank
  {
    hide Sound, Booked, Apply, Enabled, AddsNext, Grows;
    PayAlways(m, ss, ls, i);
    r := EarlierPaidRun(ss[i].db, j);
    t := SuccessorHasCause(m, ss, ls, i, r);
    GrowsAlong(m, ss, ls, t, i);
    SameRun(ss[t].db, ss[i].db, r);
  }
}
