/** What each worker's query selects, said of the rows themselves. */
module Scans {
  import opened Domain
  import opened Tables
  import opened Protocol
  import opened Query
  import opened Safety
  import opened Payments
  import opened Leases
  import opened Outcome
  import opened JobOutcome
  import E = Executor
  import R = Recovery

  predicate Waits(db: Db, r: RunId) {
    && r in db.runs && db.runs[r].status == Pending
    && (db.runs[r].retryAfter.Some? ==> db.runs[r].retryAfter.value <= db.now)
  }

  predicate Expired(db: Db, r: RunId, asOf: Time) {
    r in db.runs && db.runs[r].status == Running && db.runs[r].lock.Some? && db.runs[r].lock.value < asOf
  }

  predicate Open(db: Db, j: JobId) {
    j in db.jobs && db.jobs[j].deps != [] && db.jobs[j].status != Done && db.jobs[j].status != Dropped
  }

  /** The executor fetches PENDING runs whose backoff is over, and leaves one out only when the batch is full. */
  lemma FetchSelects(db: Db, order: seq<RunId>, limit: nat)
    ensures var ids := Picked(r => E.Due(db, r), order, limit);
      && |ids| <= limit && (forall r :: r in ids ==> r in order && Waits(db, r))
      && (|ids| < limit ==> forall r :: r in order && Waits(db, r) ==> r in ids)
  {
    PickedIsABatch(r => E.Due(db, r), order, limit);
  }

  /** Recovery's scan finds the RUNNING runs whose lease ended before it, and leaves one out only when it has found its fill. */
  lemma StuckSelects(db: Db, order: seq<RunId>, limit: nat, asOf: Time)
    ensures var ids := Picked(r => R.Stuck(db, r, asOf), order, limit);
      && |ids| <= limit && (forall r :: r in ids ==> r in order && Expired(db, r, asOf))
      && (|ids| < limit ==> forall r :: r in order && Expired(db, r, asOf) ==> r in ids)
  {
    PickedIsABatch(r => R.Stuck(db, r, asOf), order, limit);
  }

  /** The orphan scan finds the jobs that are neither DONE nor CANCELLED and have dependencies. */
  lemma OrphansSelect(db: Db, order: seq<JobId>, limit: nat)
    ensures var jobs := Picked(j => R.MaybeOrphan(db, j), order, limit);
      && |jobs| <= limit && (forall j :: j in jobs ==> j in order && Open(db, j))
      && (|jobs| < limit ==> forall j :: j in order && Open(db, j) ==> j in jobs)
  {
    PickedIsABatch(j => R.MaybeOrphan(db, j), order, limit);
  }

  /** The ids of a fetched batch are PENDING and ripe when they are fetched. */
  lemma FetchedAreRipe(m: Mode, ss: seq<Sys>, ls: seq<Label>, i: nat, r: RunId)
    requires Trace(m, ss, ls) && i < |ls| && ls[i].Exec? && ls[i].x.Fetch? && r in ls[i].x.ids
    ensures Waits(ss[i].db, r)
  {
    hide Apply;
  }

  /** The compare-and-set takes the next candidate exactly when it is still RUNNING under a lease that ended before the scan; then
      the run is FAILED, without lease and worker, and held with its job and attempt. */
  lemma TakenIff(m: Mode, ss: seq<Sys>, ls: seq<Label>, i: nat)
    requires Trace(m, ss, ls) && i < |ls| && ls[i].Rec? && ls[i].y.Reap?
    ensures var s, s', w := ss[i], ss[i + 1], ls[i].w;
      && s.recs[w].Reaping? && s.recs[w].ids != [] && w in s'.recs
      && var r, asOf := s.recs[w].ids[0], s.recs[w].asOf;
         if Expired(s.db, r, asOf) then
           && s'.recs[w].Holding? && s'.recs[w].stub.run == r && s'.recs[w].stub.job == s.db.runs[r].job
           && s'.recs[w].stub.attempt == s.db.runs[r].attempt && s'.recs[w].ids == s.recs[w].ids[1..]
           && r in s'.db.runs && s'.db.runs[r] == s.db.runs[r].(status := Failed, lock := None, worker := None)
         else
           s'.db == s.db && s'.recs[w] == R.Reaping(s.recs[w].ids[1..], asOf)
  {
    TakeIs(m, ss[i], ls[i]);
    hide Apply;
  }

  lemma TakeIs(m: Mode, s: Sys, l: Label)
    requires Enabled(m, s, l) && l.Rec? && l.y.Reap?
    ensures var s', w := Apply(m, s, l), l.w;
      && s.recs[w].Reaping? && s.recs[w].ids != [] && w in s'.recs
      && var r, asOf := s.recs[w].ids[0], s.recs[w].asOf;
         if Expired(s.db, r, asOf) then
           && s'.recs[w].Holding? && s'.recs[w].stub.run == r && s'.recs[w].stub.job == s.db.runs[r].job
           && s'.recs[w].stub.attempt == s.db.runs[r].attempt && s'.recs[w].ids == s.recs[w].ids[1..]
           && r in s'.db.runs && s'.db.runs[r] == s.db.runs[r].(status := Failed, lock := None, worker := None)
         else
           s'.db == s.db && s'.recs[w] == R.Reaping(s.recs[w].ids[1..], asOf)
  {
  }

  // ---------- the verdict on a job's dependencies ----------

  predicate IsDeadRun(db: Db, r: RunId, d: JobId) { r in db.runs && db.runs[r].job == d && db.runs[r].status == Dead }

  /** The dependency has a row and a DEAD run. */
  ghost predicate DiedOut(db: Db, d: JobId) { d in db.jobs && exists r :: IsDeadRun(db, r, d) }

  lemma DiedOutIff(db: Db, d: JobId)
    ensures DiedOut(db, d) <==> d in db.jobs && DeadRuns(db, d) != {}
  {
    if DeadRuns(db, d) != {} {
      var r := SomeElement(DeadRuns(db, d));
      assert IsDeadRun(db, r, d);
    }
    if r :| IsDeadRun(db, r, d) {
      assert r in DeadRuns(db, d);
    }
  }

  /** The verdict is clear exactly when no dependency with a row has a DEAD run, and otherwise names the first one that has, or raises on
      it, which is when it has several. */
  lemma {:induction false} JudgeIff(db: Db, deps: seq<JobId>)
    ensures R.Judge(db, deps).Clear? <==> forall d :: d in deps ==> !DiedOut(db, d)
    ensures !R.Judge(db, deps).Clear? ==>
      exists k :: 0 <= k < |deps| && FirstDead(db, deps, k)
                  && (R.Judge(db, deps) == if |DeadRuns(db, deps[k])| == 1 then R.Orphaned(deps[k]) else R.Raised)
  {
    hide DiedOut;
    if deps != [] {
      DiedOutIff(db, deps[0]);
      JudgeIff(db, deps[1..]);
      assert forall d :: d in deps <==> d == deps[0] || d in deps[1..];
      if DiedOut(db, deps[0]) {
        assert FirstDead(db, deps, 0);
      } else if !R.Judge(db, deps[1..]).Clear? {
        var k :| 0 <= k < |deps[1..]| && FirstDead(db, deps[1..], k)
                 && (R.Judge(db, deps[1..]) == if |DeadRuns(db, deps[1..][k])| == 1 then R.Orphaned(deps[1..][k]) else R.Raised);
        assert FirstDead(db, deps, k + 1) && deps[k + 1] == deps[1..][k];
      }
    }
  }

  ghost predicate FirstDead(db: Db, deps: seq<JobId>, k: nat)
    requires k < |deps|
  {
    DiedOut(db, deps[k]) && forall i :: 0 <= i < k ==> !DiedOut(db, deps[i])
  }

  /** A PENDING run of the job is FAILED; any other row is as it was. */
  function Stopped(row: RunRow, j: JobId): RunRow {
    if row.job == j && row.status == Pending then row.(status := Failed) else row
  }

  /** With leases: recovery's pass over a job cancels it, and fails its PENDING runs, exactly when some dependency has a DEAD run. */
  lemma OrphanCancelledIff(m: Mode, ss: seq<Sys>, ls: seq<Label>, i: nat)
    requires m.leases && Trace(m, ss, ls) && i < |ls| && ls[i].Rec? && ls[i].y.OrphanEval?
    ensures var s, s', w := ss[i], ss[i + 1], ls[i].w;
      && s.recs[w].Judging? && s.recs[w].jobs != [] && w in s'.recs && s'.recs[w] == R.Judging(s.recs[w].jobs[1..])
      && var j := s.recs[w].jobs[0];
         if j in s.db.jobs && exists d :: d in s.db.jobs[j].deps && DiedOut(s.db, d) then
           && j in s'.db.jobs && s'.db.jobs[j] == s.db.jobs[j].(status := Dropped)
           && forall r :: r in s.db.runs ==> r in s'.db.runs && s'.db.runs[r] == Stopped(s.db.runs[r], j)
         else
           s'.db == s.db
  {
    hide Apply, DiedOut;
    var db, p := ss[i].db, ss[i].recs[ls[i].w];
    VerdictIs(m, ss[i], ls[i]);
    var j := p.jobs[0];
    if j in db.jobs {
      NeverRaisesAt(m, ss, ls, i, db.jobs[j].deps);
      JudgeIff(db, db.jobs[j].deps);
    }
  }

  lemma NeverRaisesAt(m: Mode, ss: seq<Sys>, ls: seq<Label>, i: nat, deps: seq<JobId>)
    requires m.leases && Trace(m, ss, ls) && i < |ss|
    ensures !R.Judge(ss[i].db, deps).Raised?
  {
    hide Apply, Enabled, Leased;
    LeasedAlways(m, ss, ls, i);
    LeasedNeverRaises(ss[i], deps);
  }

  lemma LeasedNeverRaises(s: Sys, deps: seq<JobId>)
    requires Leased(s)
    ensures !R.Judge(s.db, deps).Raised?
  {
    hide Sound, PayInv, LeaseInv, Tidy;
    NeverRaises(s.db, deps);
  }

  lemma VerdictIs(m: Mode, s: Sys, l: Label)
    requires Enabled(m, s, l) && l.Rec? && l.y.OrphanEval?
    ensures s.recs[l.w].Judging? && s.recs[l.w].jobs != [] && l.w in Apply(m, s, l).recs
    ensures var j, rest := s.recs[l.w].jobs[0], s.recs[l.w].jobs[1..];
      Apply(m, s, l).recs[l.w] ==
        if j in s.db.jobs && R.Judge(s.db, s.db.jobs[j].deps).Raised? then R.Idle else R.Judging(rest)
    ensures var s', j := Apply(m, s, l), s.recs[l.w].jobs[0];
      if j in s.db.jobs && R.Judge(s.db, s.db.jobs[j].deps).Orphaned? then
        && j in s'.db.jobs && s'.db.jobs[j] == s.db.jobs[j].(status := Dropped)
        && forall r :: r in s.db.runs ==> r in s'.db.runs && s'.db.runs[r] == Stopped(s.db.runs[r], j)
      else
        s'.db == s.db
  {
    hide R.Judge;
  }
}
