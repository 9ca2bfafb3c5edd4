/** The life of a run and the ladder of a job's attempts, over whole runs and with no timing assumption. */
module Attempts {
  import opened Domain
  import opened Tables
  import opened Protocol
  import opened Safety
  import R = Recovery

  /** The attempt numbers of a job's rows. */
  ghost predicate Attempted(db: Db, j: JobId, n: int) {
    exists r :: r in db.runs && db.runs[r].job == j && db.runs[r].attempt == n
  }

  lemma AttemptedIsIndexed(db: Db, j: JobId, n: int)
    requires Sound(db)
    ensures Attempted(db, j, n) <==> n >= 1 && (j, n) in db.byAttempt
  {
    hide NoGaps, LiveTop, References, JobIndex, ClaimsOk, ReapsOk, PoliciesOk;
    if n >= 1 && (j, n) in db.byAttempt {
      var r := db.byAttempt[(j, n)];
    }
  }

  /** An index without gaps that holds attempt n holds n entries. */
  lemma {:induction false} AttemptsFit(idx: Index, j: JobId, n: Attempt) returns (entries: set<(JobId, Attempt)>)
    requires NoGaps(idx) && (j, n) in idx
    ensures entries <= idx.Keys && |entries| == n && forall k :: k in entries ==> k.0 == j && k.1 <= n
  {
    if n == 1 {
      entries := {(j, n)};
    } else {
      DownClosed(idx, j, n, n - 1);
      var below := AttemptsFit(idx, j, n - 1);
      entries := below + {(j, n)};
    }
  }

  lemma {:induction false} Climb(idx: Index, j: JobId, n: Attempt) returns (k: Attempt)
    requires NoGaps(idx) && (j, n) in idx && n <= |idx|
    ensures (j, k) in idx && (j, k + 1) !in idx
    decreases |idx| - n
  {
    if (j, n + 1) in idx {
      var entries := AttemptsFit(idx, j, n + 1);
      SubsetSize(entries, idx.Keys);
      assert |idx.Keys| == |idx|;
      k := Climb(idx, j, n + 1);
    } else {
      k := n;
    }
  }

  lemma {:induction false} SubsetSize<T>(a: set<T>, b: set<T>)
    requires a <= b
    ensures |a| <= |b|
  {
    if a != {} {
      var x :| x in a;
      SubsetSize(a - {x}, b - {x});
    }
  }

  lemma TopAttempt(db: Db, j: JobId) returns (k: Attempt)
    requires Sound(db) && j in db.jobs
    ensures (j, k) in db.byAttempt && (j, k + 1) !in db.byAttempt
  {
    hide RunIndex, LiveTop, JobIndex, ClaimsOk, ReapsOk, PoliciesOk;
    var entries := AttemptsFit(db.byAttempt, j, 1);
    SubsetSize(entries, db.byAttempt.Keys);
    assert |db.byAttempt.Keys| == |db.byAttempt|;
    k := Climb(db.byAttempt, j, 1);
  }

  /** A job's runs carry the attempts 1..k, each once, and only attempt k can be PENDING or RUNNING. */
  lemma AttemptsAreOneToK(m: Mode, ss: seq<Sys>, ls: seq<Label>, i: nat, j: JobId) returns (k: Attempt)
    requires Trace(m, ss, ls) && i < |ss| && j in ss[i].db.jobs
    ensures var db := ss[i].db;
      && (forall n :: Attempted(db, j, n) <==> 1 <= n <= k)
      && (forall r, q ::
            (r in db.runs && q in db.runs && db.runs[r].job == j && db.runs[q].job == j
             && db.runs[r].attempt == db.runs[q].attempt) ==> r == q)
      && (forall r :: r in db.runs && db.runs[r].job == j && Live(db.runs[r]) ==> db.runs[r].attempt == k)
  {
    Always(m, ss, ls, i);
    var db := ss[i].db;
    assert Sound(db);
    k := TopAttempt(db, j);
    forall n ensures Attempted(db, j, n) <==> 1 <= n <= k {
      AttemptRange(db, j, k, n);
    }
    forall r, q | r in db.runs && q in db.runs && db.runs[r].job == j && db.runs[q].job == j
                  && db.runs[r].attempt == db.runs[q].attempt
      ensures r == q
    {
      IndexOf(db, r);
      IndexOf(db, q);
    }
    forall r | r in db.runs && db.runs[r].job == j && Live(db.runs[r]) ensures db.runs[r].attempt == k {
      LiveIsTop(db, r);
      AttemptRange(db, j, k, db.runs[r].attempt);
      AttemptRange(db, j, k, db.runs[r].attempt + 1);
      AttemptedIsIndexed(db, j, db.runs[r].attempt + 1);
    }
    hide Sound;
  }

  lemma LiveIsTop(db: Db, r: RunId)
    requires Sound(db) && r in db.runs && Live(db.runs[r])
    ensures IsTop(db, r)
  {
    hide RunIndex, NoGaps, References, JobIndex, ClaimsOk, ReapsOk, PoliciesOk;
  }

  lemma AttemptRange(db: Db, j: JobId, k: Attempt, n: int)
    requires Sound(db) && (j, k) in db.byAttempt && (j, k + 1) !in db.byAttempt
    ensures Attempted(db, j, n) <==> 1 <= n <= k
  {
    hide RunIndex, LiveTop, References, JobIndex, ClaimsOk, ReapsOk, PoliciesOk;
    AttemptedIsIndexed(db, j, n);
    if 1 <= n <= k {
      DownClosed(db.byAttempt, j, k, n);
    } else if k < n && (j, n) in db.byAttempt {
      DownClosed(db.byAttempt, j, n, k + 1);
    }
  }

  // ---------- claimed once, recovered once ----------

  /** Step i takes the run `r` from PENDING to RUNNING. */
  ghost predicate Claims(ss: seq<Sys>, i: nat, r: RunId) {
    && i + 1 < |ss| && r in ss[i].db.runs && r in ss[i + 1].db.runs
    && ss[i].db.runs[r].status == Pending && ss[i + 1].db.runs[r].status == Running
  }

  /** Once a run has left PENDING it never comes back, so it is claimed at most once. */
  lemma ClaimedAtMostOnce(m: Mode, ss: seq<Sys>, ls: seq<Label>, i: nat, k: nat, r: RunId)
    requires Trace(m, ss, ls) && Claims(ss, i, r) && Claims(ss, k, r)
    ensures i == k
  {
    hide Apply, Enabled;
    if i < k {
      GrowsAlong(m, ss, ls, i + 1, k);
    } else if k < i {
      GrowsAlong(m, ss, ls, k + 1, i);
    }
  }

  /** Step i is a recovery worker's compare-and-set, and it takes the run `r`. */
  ghost predicate Recovers(ss: seq<Sys>, ls: seq<Label>, i: nat, r: RunId)
  {
    && |ss| == |ls| + 1 && i < |ls| && ls[i].Rec? && ls[i].y.Reap? && ls[i].w in ss[i].recs
    && var p := ss[i].recs[ls[i].w];
       p.Reaping? && p.ids != [] && p.ids[0] == r && R.Stuck(ss[i].db, r, p.asOf)
  }

  /** A run is recovered at most once, whatever races, and only after the lease of its claim has ended. */
  lemma RecoveredAtMostOnce(m: Mode, ss: seq<Sys>, ls: seq<Label>, i: nat, k: nat, r: RunId)
    requires Trace(m, ss, ls) && Recovers(ss, ls, i, r) && Recovers(ss, ls, k, r)
    ensures i == k
    ensures r in ss[i].db.h.claims && ss[i].db.h.claims[r].lease < ss[i].db.now
  {
    RecoveryStep(m, ss, ls, i, r);
    hide Apply, Enabled, Recovers;
    if i < k {
      RecoveryStep(m, ss, ls, k, r);
      GrowsAlong(m, ss, ls, i + 1, k);
    } else if k < i {
      RecoveryStep(m, ss, ls, k, r);
      GrowsAlong(m, ss, ls, k + 1, i);
    }
  }

  lemma RecoveryStep(m: Mode, ss: seq<Sys>, ls: seq<Label>, i: nat, r: RunId)
    requires Trace(m, ss, ls) && Recovers(ss, ls, i, r)
    ensures r in ss[i].db.h.claims && ss[i].db.h.claims[r].lease < ss[i].db.now
    ensures r !in ss[i].db.h.reaped && r in ss[i + 1].db.h.reaped
  {
    hide Sound;
    Always(m, ss, ls, i);
    StuckRun(ss[i].db, r, ss[i].recs[ls[i].w].asOf);
  }

  /** Step i is the follow-up transaction of the recovery of `r`. */
  ghost predicate FollowsUp(ss: seq<Sys>, ls: seq<Label>, i: nat, r: RunId)
  {
    && |ss| == |ls| + 1 && i < |ls| && ls[i].Rec? && ls[i].y.Resolve? && ls[i].w in ss[i].recs
    && ss[i].recs[ls[i].w].Holding? && ss[i].recs[ls[i].w].stub.run == r
  }

  /** One DLQ entry and no run when the policy is exhausted; else no entry, at most one run, and the next attempt is there. */
  ghost predicate RoutedOnce(db: Db, db': Db, s: R.Stub, id: RunId) {
    if s.policy.IsExhausted(s.attempt) then
      s.sub.Some? && db'.dlq == db.dlq + [DlqEntry(s.run, s.job, s.sub.value, s.attempt)] && db'.runs.Keys == db.runs.Keys
    else
      db'.dlq == db.dlq && (s.job, s.attempt + 1) in db'.byAttempt && db'.runs.Keys <= db.runs.Keys + {id}
  }

  /** A recovery has at most one follow-up: one DLQ entry and no run when the policy is exhausted, else no
      entry, at most one run, and the next attempt is there afterwards. */
  lemma FollowedUpAtMostOnce(m: Mode, ss: seq<Sys>, ls: seq<Label>, i: nat, k: nat, r: RunId)
    requires Trace(m, ss, ls) && FollowsUp(ss, ls, i, r) && FollowsUp(ss, ls, k, r)
    ensures i == k
    ensures RoutedOnce(ss[i].db, ss[i + 1].db, ss[i].recs[ls[i].w].stub, ls[i].y.run)
  {
    FollowUpStep(m, ss, ls, i, r);
    hide Apply, Enabled, FollowsUp;
    if i < k {
      FollowUpStep(m, ss, ls, k, r);
      GrowsAlong(m, ss, ls, i + 1, k);
    } else if k < i {
      FollowUpStep(m, ss, ls, k, r);
      GrowsAlong(m, ss, ls, k + 1, i);
    }
  }

  lemma FollowUpRoutes(db: Db, me: WorkerId, p: R.Phase, id: RunId)
    requires Sound(db) && RecOk(db, me, p) && p.Holding?
    ensures RoutedOnce(db, R.FollowUp(db, p, id).db, p.stub, id)
    ensures p.stub.run !in db.h.resolved && p.stub.run in R.FollowUp(db, p, id).db.h.resolved
  {
    hide Sound;
    ReapedRun(db, p.stub.run);
  }

  lemma FollowUpStep(m: Mode, ss: seq<Sys>, ls: seq<Label>, i: nat, r: RunId)
    requires Trace(m, ss, ls) && FollowsUp(ss, ls, i, r)
    ensures r !in ss[i].db.h.resolved && r in ss[i + 1].db.h.resolved
    ensures RoutedOnce(ss[i].db, ss[i + 1].db, ss[i].recs[ls[i].w].stub, ls[i].y.run)
  {
    hide Sound, RoutedOnce, R.FollowUp, RecOk;
    Always(m, ss, ls, i);
    FollowUpRoutes(ss[i].db, ls[i].w, ss[i].recs[ls[i].w], ls[i].y.run);
  }
}
