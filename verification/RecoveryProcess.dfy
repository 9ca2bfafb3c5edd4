/** The recovery worker as it is written. */
module RecoveryProcess {
  import opened Domain
  import opened Tables
  import opened Database
  import opened Query
  import opened Protocol
  import R = Recovery

  const SCAN_LIMIT: nat := 50
  const ORPHAN_LIMIT: nat := 100

  datatype Commit = Commit(before: Db, step: RecStep, after: Db)

  /** The worker takes a step of the protocol. */
  ghost predicate Steps(me: WorkerId, p: R.Phase, c: Commit, p': R.Phase) {
    RecEnabled(c.before, p, c.step) && RecApply(c.before, me, p, c.step) == R.After(c.after, p')
  }

  /** `commits` are steps of the protocol, each taken from where the one before left the worker. */
  ghost predicate Drives(me: WorkerId, p: R.Phase, commits: seq<Commit>, p': R.Phase)
    decreases |commits|
  {
    if commits == [] then p == p'
    else
      && RecEnabled(commits[0].before, p, commits[0].step)
      && var a := RecApply(commits[0].before, me, p, commits[0].step);
         a.db == commits[0].after && Drives(me, a.phase, commits[1..], p')
  }

  lemma {:induction false} DriveOn(me: WorkerId, p: R.Phase, commits: seq<Commit>, p1: R.Phase, c: Commit, p2: R.Phase)
    requires Drives(me, p, commits, p1) && Steps(me, p1, c, p2)
    ensures Drives(me, p, commits + [c], p2)
    decreases |commits|
  {
    hide RecEnabled, RecApply;
    if commits == [] {
      assert [c][1..] == [] && Drives(me, p2, [], p2);
    } else {
      DriveOn(me, RecApply(commits[0].before, me, p, commits[0].step).phase, commits[1..], p1, c, p2);
      assert (commits + [c])[1..] == commits[1..] + [c];
    }
  }

  /** What others have made of the tables by the time each of the two transactions begins, and a new id. */
  datatype Turn = Turn(take: Db, follow: Db, newId: RunId)

  predicate Taken(turn: Turn, r: RunId, asOf: Time) { R.Stuck(turn.take, r, asOf) }

  /** How many of the candidates recovery took. */
  function Recovered(ids: seq<RunId>, turns: seq<Turn>, asOf: Time): nat
    requires |turns| == |ids|
  {
    if ids == [] then 0 else (if Taken(turns[0], ids[0], asOf) then 1 else 0) + Recovered(ids[1..], turns[1..], asOf)
  }

  lemma TakeSteps(me: WorkerId, db: Db, r: RunId, rest: seq<RunId>, asOf: Time)
    ensures var a := R.ReapNext(db, me, R.Reaping([r], asOf));
      Steps(me, R.Reaping([r] + rest, asOf), Commit(db, Reap, a.db),
            if a.phase.Holding? then a.phase.(ids := rest) else R.Reaping(rest, asOf))
  {
    assert ([r] + rest)[1..] == rest;
  }

  lemma FollowSteps(me: WorkerId, db: Db, stub: R.Stub, rest: seq<RunId>, asOf: Time, newId: RunId)
    requires newId !in db.runs
    ensures var a := R.FollowUp(db, R.Holding(stub, [], asOf), newId);
      Steps(me, R.Holding(stub, rest, asOf), Commit(db, Resolve(newId), a.db), R.Reaping(rest, asOf))
  {
  }

  class RecoveryWorker {
    const store: Store
    const me: WorkerId

    constructor (store: Store, me: WorkerId)
      ensures this.store == store && this.me == me
    {
      this.store, this.me := store, me;
    }

    /** `order` lists the runs by the end of their lease, oldest first. */
    method FindStuckRuns(order: seq<RunId>, asOf: Time) returns (ids: seq<RunId>)
      ensures var db := store.View(); ids == Picked(r => R.Stuck(db, r, asOf), order, 50)
    {
      ghost var stuck := var db := store.View(); r => R.Stuck(db, r, asOf);
      ids := [];
      var i := 0;
      while i < |order|
        invariant 0 <= i <= |order|
        invariant ids == Picked(stuck, order[..i], SCAN_LIMIT)
      {
        PickedSnoc(stuck, order[..i], order[i], SCAN_LIMIT);
        assert order[..i + 1] == order[..i] + [order[i]];
        var r := order[i];
        if |ids| < SCAN_LIMIT && r in store.runs && store.runs[r].status == Running
           && store.runs[r].lock.Some? && store.runs[r].lock.value < asOf
        {
          ids := ids + [r];
        }
        i := i + 1;
      }
      assert order[..i] == order;
    }

    /** The compare-and-set, and the subscription loaded in the same transaction. */
    method Take(r: RunId, asOf: Time) returns (stub: Option<R.Stub>)
      modifies store
      ensures var a := R.ReapNext(old(store.View()), me, R.Reaping([r], asOf));
        store.View() == a.db && stub == (if a.phase.Holding? then Some(a.phase.stub) else None)
      ensures stub.Some? <==> R.Stuck(old(store.View()), r, asOf)
    {
      if r !in store.runs || store.runs[r].status != Running || store.runs[r].lock.None? || asOf <= store.runs[r].lock.value {
        return None;
      }
      var run := store.runs[r];
      store.runs := store.runs[r := run.(status := Failed, lock := None, worker := None)];
      store.h := store.h.(reaped := store.h.reaped[r := me]);
      var sub, policy := None, R.NO_POLICY;
      if run.job in store.jobs && store.jobs[run.job].sub in store.subs {
        sub := Some(store.jobs[run.job].sub);
        policy := store.subs[sub.value].policy;
      }
      stub := Some(R.Stub(r, run.job, run.attempt, sub, policy));
    }

    /** The second transaction. */
    method FollowUp(stub: R.Stub, newId: RunId)
      modifies store
      ensures store.View() == R.FollowUp(old(store.View()), R.Holding(stub, [], 0.0), newId).db
    {
      if stub.sub.None? {
        store.h := store.h.(stranded := store.h.stranded + {stub.run});
        return;
      }
      store.h := store.h.(resolved := store.h.resolved + {stub.run});
      if stub.policy.IsExhausted(stub.attempt) {
        store.Bury(stub.run, stub.job, stub.attempt, stub.sub.value, false);
      } else {
        store.AddRun(newId, stub.job, stub.attempt + 1, None);
      }
    }

    /** One candidate: False when another worker won the compare-and-set. */
    method RecoverSingleRun(rest: seq<RunId>, r: RunId, asOf: Time, turn: Turn) returns (did: bool, ghost commits: seq<Commit>)
      requires turn.newId !in turn.follow.runs
      modifies store
      ensures did <==> Taken(turn, r, asOf)
      ensures Drives(me, R.Reaping([r] + rest, asOf), commits, R.Reaping(rest, asOf))
      ensures |commits| == (if did then 2 else 1) && commits[0].before == turn.take && commits[|commits| - 1].after == store.View()
      ensures did ==> commits[1].before == turn.follow
    {
      hide Drives, Steps, R.ReapNext, R.FollowUp;
      ghost var p0 := R.Reaping([r] + rest, asOf);
      commits := [];
      StandsStill(me, p0);
      store.Meanwhile(turn.take);
      var stub := Take(r, asOf);
      TakeSteps(me, turn.take, r, rest, asOf);
      ReapPhases(me, turn.take, r, asOf);
      ghost var p1 := if stub.Some? then R.Holding(stub.value, rest, asOf) else R.Reaping(rest, asOf);
      DriveOn(me, p0, commits, p0, Commit(turn.take, Reap, store.View()), p1);
      commits := commits + [Commit(turn.take, Reap, store.View())];
      did := stub.Some?;
      if did {
        store.Meanwhile(turn.follow);
        FollowUp(stub.value, turn.newId);
        FollowSteps(me, turn.follow, stub.value, rest, asOf, turn.newId);
        SameFollowUp(turn.follow, stub.value, asOf, turn.newId);
        DriveOn(me, p0, commits, p1, Commit(turn.follow, Resolve(turn.newId), store.View()), R.Reaping(rest, asOf));
        commits := commits + [Commit(turn.follow, Resolve(turn.newId), store.View())];
      }
    }

    /** All candidates, one after the other, with a count of those it took. */
    method RecoverStuckRuns(ids: seq<RunId>, asOf: Time, turns: seq<Turn>) returns (recovered: nat, ghost commits: seq<Commit>)
      requires |turns| == |ids| && forall i :: 0 <= i < |turns| ==> turns[i].newId !in turns[i].follow.runs
      modifies store
      ensures recovered == Recovered(ids, turns, asOf)
      ensures Drives(me, R.Reaping(ids, asOf), commits, R.Reaping([], asOf))
      ensures |commits| == |ids| + recovered && (commits != [] ==> commits[|commits| - 1].after == store.View())
    {
      hide Drives, Taken;
      recovered, commits := 0, [];
      StandsStill(me, R.Reaping(ids, asOf));
      var i := 0;
      while i < |ids|
        invariant 0 <= i <= |ids|
        invariant recovered + Recovered(ids[i..], turns[i..], asOf) == Recovered(ids, turns, asOf)
        invariant Drives(me, R.Reaping(ids, asOf), commits, R.Reaping(ids[i..], asOf))
        invariant |commits| == i + recovered && (commits != [] ==> commits[|commits| - 1].after == store.View())
      {
        assert [ids[i]] + ids[i + 1..] == ids[i..] && ids[i..][1..] == ids[i + 1..] && turns[i..][1..] == turns[i + 1..];
        ghost var more;
        var did;
        did, more := RecoverSingleRun(ids[i + 1..], ids[i], asOf, turns[i]);
        DriveThrough(me, R.Reaping(ids, asOf), commits, R.Reaping(ids[i..], asOf), more, R.Reaping(ids[i + 1..], asOf));
        commits := commits + more;
        if did {
          recovered := recovered + 1;
        }
        i := i + 1;
      }
      assert ids[i..] == [] && ids[0..] == ids && turns[0..] == turns;
    }

    /** `order` lists the jobs by creation time. */
    method FindOrphans(order: seq<JobId>) returns (jobs: seq<JobId>)
      ensures var db := store.View(); jobs == Picked(j => R.MaybeOrphan(db, j), order, 100)
    {
      ghost var maybe := var db := store.View(); j => R.MaybeOrphan(db, j);
      jobs := [];
      var i := 0;
      while i < |order|
        invariant 0 <= i <= |order|
        invariant jobs == Picked(maybe, order[..i], ORPHAN_LIMIT)
      {
        PickedSnoc(maybe, order[..i], order[i], ORPHAN_LIMIT);
        assert order[..i + 1] == order[..i] + [order[i]];
        var j := order[i];
        if |jobs| < ORPHAN_LIMIT && j in store.jobs && store.jobs[j].deps != []
           && store.jobs[j].status in {Waiting, Ready, Blocked}
        {
          jobs := jobs + [j];
        }
        i := i + 1;
      }
      assert order[..i] == order;
    }

    /** Cancel the job at its first dependency with a DEAD run. Two such rows make the lookup raise. */
    method EvaluateDagJob(j: JobId) returns (raised: bool)
      requires j in store.jobs
      modifies store
      ensures var a := R.JudgeNext(old(store.View()), R.Judging([j])); store.View() == a.db && (raised <==> a.phase.Idle?)
    {
      var deps := store.jobs[j].deps;
      ghost var db := store.View();
      var i := 0;
      while i < |deps|
        invariant 0 <= i <= |deps|
        invariant store.View() == db && R.Judge(db, deps[i..]) == R.Judge(db, deps)
      {
        assert deps[i..][0] == deps[i] && deps[i..][1..] == deps[i + 1..];
        var d := deps[i];
        i := i + 1;
        if d !in store.jobs {
          continue;
        }
        var dead := set r | r in store.runs && store.runs[r].job == d && store.runs[r].status == Dead;
        assert dead == DeadRuns(db, d);
        if dead == {} {
          continue;
        }
        if |dead| > 1 {
          return true;
        }
        OneElement(dead);
        store.MarkJob(j, Dropped);
        store.runs := map r | r in store.runs ::
          if store.runs[r].job == j && store.runs[r].status == Pending then store.runs[r].(status := Failed) else store.runs[r];
        return false;
      }
      assert deps[i..] == [];
      raised := false;
    }

    /** The scan's jobs one after the other; an exception ends the pass. */
    method CancelOrphanedDagJobs(jobs: seq<JobId>, worlds: seq<Db>) returns (raised: bool, ghost commits: seq<Commit>)
      requires |worlds| == |jobs| && forall i :: 0 <= i < |jobs| ==> jobs[i] in worlds[i].jobs
      modifies store
      ensures Drives(me, R.Judging(jobs), commits, if raised then R.Idle else R.Judging([]))
      ensures commits != [] ==> commits[|commits| - 1].after == store.View()
    {
      hide Drives, Steps, R.JudgeNext;
      commits := [];
      StandsStill(me, R.Judging(jobs));
      var i := 0;
      while i < |jobs|
        invariant 0 <= i <= |jobs|
        invariant Drives(me, R.Judging(jobs), commits, R.Judging(jobs[i..]))
        invariant commits != [] ==> commits[|commits| - 1].after == store.View()
      {
        assert [jobs[i]] + jobs[i + 1..] == jobs[i..];
        store.Meanwhile(worlds[i]);
        raised := EvaluateDagJob(jobs[i]);
        JudgeSteps(me, worlds[i], jobs[i], jobs[i + 1..]);
        ghost var c := Commit(worlds[i], OrphanEval, store.View());
        DriveOn(me, R.Judging(jobs), commits, R.Judging(jobs[i..]), c, if raised then R.Idle else R.Judging(jobs[i + 1..]));
        commits := commits + [c];
        if raised {
          return;
        }
        i := i + 1;
      }
      assert jobs[i..] == [];
      raised := false;
    }
  }

  lemma JudgeSteps(me: WorkerId, db: Db, j: JobId, rest: seq<JobId>)
    ensures var a := R.JudgeNext(db, R.Judging([j]));
      Steps(me, R.Judging([j] + rest), Commit(db, OrphanEval, a.db), if a.phase.Idle? then R.Idle else R.Judging(rest))
  {
    hide R.Judge;
    assert ([j] + rest)[1..] == rest;
  }

  lemma OneElement(dead: set<RunId>)
    requires dead != {}
    ensures |dead| >= 1
  {
  }

  lemma {:induction false} DriveThrough(me: WorkerId, p: R.Phase, a: seq<Commit>, p1: R.Phase, b: seq<Commit>, p2: R.Phase)
    requires Drives(me, p, a, p1) && Drives(me, p1, b, p2)
    ensures Drives(me, p, a + b, p2)
    decreases |a|
  {
    hide RecEnabled, RecApply;
    if a == [] {
      assert a + b == b;
    } else {
      DriveThrough(me, RecApply(a[0].before, me, p, a[0].step).phase, a[1..], p1, b, p2);
      assert (a + b)[1..] == a[1..] + b;
    }
  }

  lemma StandsStill(me: WorkerId, p: R.Phase)
    ensures Drives(me, p, [], p)
  {
  }

  lemma ReapPhases(me: WorkerId, db: Db, r: RunId, asOf: Time)
    ensures var p := R.ReapNext(db, me, R.Reaping([r], asOf)).phase; p.Holding? ==> p.asOf == asOf
  {
  }

  lemma SameFollowUp(db: Db, stub: R.Stub, asOf: Time, newId: RunId)
    ensures R.FollowUp(db, R.Holding(stub, [], asOf), newId).db == R.FollowUp(db, R.Holding(stub, [], 0.0), newId).db
  {
    hide MoveToDlq, InsertRun;
  }
}
