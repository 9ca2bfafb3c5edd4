/** The executor as it is written: one method per transaction, and the method that strings them together. */
module ExecutorProcess {
  import opened Domain
  import opened Tables
  import opened Database
  import opened Query
  import opened Protocol
  import E = Executor

  /** One committed transaction of this executor. */
  datatype Commit = Commit(before: Db, step: ExecStep, after: Db)

  /** `commits` are steps of the protocol, each taken from where the one before left the worker. */
  ghost predicate Drives(me: WorkerId, w: E.Worker, commits: seq<Commit>, w': E.Worker)
    decreases |commits|
  {
    if commits == [] then w == w'
    else
      && ExecEnabled(Mode(false, false), commits[0].before, w, commits[0].step)
      && var a := ExecApply(Mode(false, false), commits[0].before, me, w, commits[0].step);
         a.db == commits[0].after && Drives(me, a.w, commits[1..], w')
  }

  lemma {:induction false} DriveOn(me: WorkerId, w: E.Worker, commits: seq<Commit>, w1: E.Worker, before: Db, step: ExecStep, after: Db, w2: E.Worker)
    requires Drives(me, w, commits, w1) && Steps(me, before, w1, step, after, w2)
    ensures Drives(me, w, commits + [Commit(before, step, after)], w2)
    decreases |commits|
  {
    hide ExecEnabled, ExecApply;
    var c := Commit(before, step, after);
    if commits == [] {
      assert [c][1..] == [] && Drives(me, w2, [], w2);
    } else {
      var b := ExecApply(Mode(false, false), commits[0].before, me, w, commits[0].step);
      DriveOn(me, b.w, commits[1..], w1, before, step, after, w2);
      assert (commits + [c])[1..] == commits[1..] + [c];
    }
  }

  /** The worker takes a step of the protocol. */
  ghost predicate Steps(me: WorkerId, before: Db, w: E.Worker, step: ExecStep, after: Db, w': E.Worker) {
    && ExecEnabled(Mode(false, false), before, w, step)
    && ExecApply(Mode(false, false), before, me, w, step) == E.After(after, w')
  }

  lemma LoadSteps(me: WorkerId, db: Db, rest: seq<RunId>, t: E.Ticket)
    ensures Steps(me, db, E.Worker(rest, E.Busy(t, E.Claimed)), ExecStep.Load, db,
                  E.Worker(rest, E.LoadSnapshot(db, E.Worker([], E.Busy(t, E.Claimed))).phase))
  {
  }

  lemma ClaimSteps(me: WorkerId, db: Db, rest: seq<RunId>, r: RunId)
    ensures var a := E.ClaimNext(db, me, E.Worker([r], E.Idle));
      Steps(me, db, E.Worker([r] + rest, E.Idle), ClaimNext, a.db, E.Worker(rest, a.w.phase))
  {
    assert ([r] + rest)[1..] == rest;
  }

  /** The claimed run is the one that was asked for, with the attempt of its row. */
  lemma ClaimedIs(me: WorkerId, db: Db, r: RunId)
    ensures var p := E.ClaimNext(db, me, E.Worker([r], E.Idle)).w.phase;
      p.Busy? ==> p.stage == E.Claimed && p.ticket.run == r && r in db.runs && p.ticket.attempt == db.runs[r].attempt
  {
  }

  lemma {:induction false} DriveThrough(me: WorkerId, w: E.Worker, a: seq<Commit>, w1: E.Worker, b: seq<Commit>, w2: E.Worker)
    requires Drives(me, w, a, w1) && Drives(me, w1, b, w2)
    ensures Drives(me, w, a + b, w2)
    decreases |a|
  {
    hide ExecEnabled, ExecApply;
    if a == [] {
      assert a + b == b;
    } else {
      var s := ExecApply(Mode(false, false), a[0].before, me, w, a[0].step);
      DriveThrough(me, s.w, a[1..], w1, b, w2);
      assert (a + b)[1..] == a[1..] + b;
    }
  }

  lemma NoSteps(me: WorkerId, w: E.Worker)
    ensures Drives(me, w, [], w)
  {
  }

  lemma SnapshotOf(db: Db, t: E.Ticket)
    ensures var phase := E.LoadSnapshot(db, E.Worker([], E.Busy(t, E.Claimed))).phase;
      phase.Idle? || (t.job in db.jobs && phase.ticket == t.(policy := phase.ticket.policy)
                      && (phase.stage.NeedDag? || phase.stage.NeedKey? || phase.stage.Burying?))
  {
  }

  lemma CheckSteps(me: WorkerId, db: Db, rest: seq<RunId>, t: E.Ticket)
    requires t.job in db.jobs
    ensures Steps(me, db, E.Worker(rest, E.Busy(t, E.NeedDag)), CheckDag, db,
                  E.Worker(rest, E.Busy(t, if E.DependenciesDone(db, db.jobs[t.job].deps) then E.NeedKey else E.Cancelling)))
  {
  }

  lemma LookSteps(me: WorkerId, db: Db, rest: seq<RunId>, t: E.Ticket)
    ensures var key := ForRun(t.run, t.attempt);
      Steps(me, db, E.Worker(rest, E.Busy(t, E.NeedKey)), LookUp, db,
            E.Worker(rest, E.Busy(t, if key in db.keys then E.Persisting(db.keys[key]) else E.Calling)))
  {
  }

  lemma CallSteps(me: WorkerId, db: Db, rest: seq<RunId>, t: E.Ticket, reply: E.Reply, u: real)
    requires 0.0 <= u < 1.0 && E.Answers(db, t, reply)
    ensures var a := E.ReceiveReply(db, E.Worker([], E.Busy(t, E.Calling)), reply, u);
      Steps(me, db, E.Worker(rest, E.Busy(t, E.Calling)), Call(reply, u), a.db, E.Worker(rest, a.w.phase))
  {
  }

  /** The transaction of a turn that raises, for a reason of the database's own, if any does. */
  datatype Failure = Never | AtClaim | AtLoad | AtDag | AtKey | AtFinish

  /** What others have made of the tables by the time each of the worker's transactions begins, and what
      comes from outside: the bank's reply, the jitter draw, a new id and a failing transaction. */
  datatype Turn = Turn(claim: Db, load: Db, dag: Db, key: Db, call: Db, finish: Db,
                       reply: E.Reply, u: real, newId: RunId, fails: Failure)

  /** The state a failing transaction finds and, rolled back, leaves. */
  function FailsOn(turn: Turn): Db {
    match turn.fails
    case AtClaim => turn.claim
    case AtLoad => turn.load
    case AtDag => turn.dag
    case AtKey => turn.key
    case _ => turn.finish
  }

  /** The transaction began at its moment of the turn, and used what came from outside. */
  ghost predicate Began(turn: Turn, c: Commit) {
    match c.step
    case ClaimNext => c.before == turn.claim
    case Load => c.before == turn.load
    case CheckDag => c.before == turn.dag
    case LookUp => c.before == turn.key
    case Call(reply, u) => c.before == turn.call && reply == turn.reply && u == turn.u
    case Abandon(_) => turn.fails != Never && c.before == FailsOn(turn)
    case _ => c.before == turn.finish
  }

  ghost predicate Tells(turn: Turn, commits: seq<Commit>) { forall c :: c in commits ==> Began(turn, c) }

  /** The commits left the tables as they are. */
  ghost predicate Leaves(commits: seq<Commit>, now: Db) { commits != [] ==> commits[|commits| - 1].after == now }

  lemma NothingTold(turn: Turn)
    ensures Tells(turn, [])
  {
  }

  lemma TellOn(turn: Turn, commits: seq<Commit>, c: Commit)
    requires Tells(turn, commits) && Began(turn, c)
    ensures Tells(turn, commits + [c]) && Leaves(commits + [c], c.after)
  {
  }

  /** One more transaction of the turn. */
  lemma GoOn(me: WorkerId, turn: Turn, w0: E.Worker, commits: seq<Commit>, at: E.Worker, c: Commit, w: E.Worker)
    requires Drives(me, w0, commits, at) && Tells(turn, commits) && Steps(me, c.before, at, c.step, c.after, w) && Began(turn, c)
    ensures Drives(me, w0, commits + [c], w) && Tells(turn, commits + [c]) && Leaves(commits + [c], c.after)
  {
    hide Drives, Tells, Steps, Began, Leaves;
    DriveOn(me, w0, commits, at, c.before, c.step, c.after, w);
    TellOn(turn, commits, c);
  }

  lemma Moments(turn: Turn)
    ensures Began(turn, Commit(turn.load, ExecStep.Load, turn.load))
    ensures Began(turn, Commit(turn.dag, CheckDag, turn.dag)) && Began(turn, Commit(turn.key, LookUp, turn.key))
    ensures forall after :: Began(turn, Commit(turn.call, Call(turn.reply, turn.u), after))
    ensures forall step, after :: Finishes(step) ==> Began(turn, Commit(turn.finish, step, after))
  {
  }

  lemma TellThrough(turn: Turn, a: seq<Commit>, b: seq<Commit>)
    requires Tells(turn, a) && Tells(turn, b)
    ensures Tells(turn, a + b)
  {
  }

  lemma LeaveThrough(a: seq<Commit>, b: seq<Commit>, now: Db)
    ensures b != [] && Leaves(b, now) ==> Leaves(a + b, now)
  {
  }

  lemma LeaveOne(c: Commit)
    ensures Leaves([c], c.after)
  {
  }

  lemma FetchSteps(me: WorkerId, db: Db, order: seq<RunId>, ids: seq<RunId>)
    requires ids == Picked(r => E.Due(db, r), order, db.cfg.batchSize)
    ensures Steps(me, db, E.Worker([], E.Idle), Fetch(ids), db, E.Worker(ids, E.Idle))
  {
    PickedIsABatch(r => E.Due(db, r), order, db.cfg.batchSize);
    assert forall i :: 0 <= i < |ids| ==> ids[i] in ids;
  }

  /** What is left of the batch after an exception. */
  lemma AbandonSteps(me: WorkerId, db: Db, w: E.Worker, rest: seq<RunId>)
    requires forall i :: 0 <= i < |rest| ==> rest[i] in w.batch
    ensures Steps(me, db, w, Abandon(rest), db, E.Worker(rest, E.Idle))
  {
  }

  /** The bank keeps to its keys, the id is fresh, and dependencies do not change once a job exists. */
  ghost predicate Possible(turn: Turn, key: IdempotencyKey) {
    && 0.0 <= turn.u < 1.0 && turn.newId !in turn.finish.runs
    && (turn.reply.Accepted? && key in turn.call.bank ==> turn.reply.payment == turn.call.bank[key])
    && (forall j :: j in turn.load.jobs ==> j in turn.dag.jobs && turn.dag.jobs[j].deps == turn.load.jobs[j].deps)
  }

  /** How a success transaction ends. */
  datatype Outcome = Stored | Conflict | Raised

  class ExecutorWorker {
    const store: Store
    const me: WorkerId

    constructor (store: Store, me: WorkerId)
      ensures this.store == store && this.me == me
    {
      this.store, this.me := store, me;
    }

    /** `order` lists the rows by creation time, without those another worker has locked. */
    method FetchPendingRunIds(order: seq<RunId>) returns (ids: seq<RunId>)
      ensures var db := store.View(); ids == Picked(r => E.Due(db, r), order, store.cfg.batchSize)
    {
      ghost var due := var db := store.View(); r => E.Due(db, r);
      ids := [];
      var i := 0;
      while i < |order|
        invariant 0 <= i <= |order|
        invariant ids == Picked(due, order[..i], store.cfg.batchSize)
      {
        PickedSnoc(due, order[..i], order[i], store.cfg.batchSize);
        assert order[..i + 1] == order[..i] + [order[i]];
        var r := order[i];
        if |ids| < store.cfg.batchSize && r in store.runs && store.runs[r].status == Pending
           && (store.runs[r].retryAfter.None? || store.runs[r].retryAfter.value <= store.now)
        {
          ids := ids + [r];
        }
        i := i + 1;
      }
      assert order[..i] == order;
    }

    /** The claim transaction of one run. */
    method Claim(r: RunId) returns (t: Option<E.Ticket>)
      modifies store
      ensures var a := E.ClaimNext(old(store.View()), me, E.Worker([r], E.Idle));
        store.View() == a.db && t == if a.w.phase.Busy? then Some(a.w.phase.ticket) else None
    {
      if r !in store.runs || store.runs[r].status != Pending {
        return None;
      }
      var run := store.runs[r];
      if run.job !in store.jobs {
        return None;
      }
      var job := store.jobs[run.job];
      if job.sub !in store.subs {
        return None;
      }
      var lease := store.now + store.cfg.lockTimeout;
      store.runs := store.runs[r := run.(status := Running, worker := Some(me), lock := Some(lease))];
      store.h := store.h.(claims := store.h.claims[r := Tables.Claim(me, lease, store.now)]);
      t := Some(E.Ticket(r, run.job, run.attempt, job.sub, store.subs[job.sub].policy, lease));
    }

    /** The snapshot of run, job and subscription, and what it says to do next. */
    method Load(t: E.Ticket) returns (phase: E.Phase)
      ensures phase == E.LoadSnapshot(store.View(), E.Worker([], E.Busy(t, E.Claimed))).phase
    {
      if t.run !in store.runs || t.job !in store.jobs || t.sub !in store.subs {
        return E.Idle;
      }
      var sub, job := store.subs[t.sub], store.jobs[t.job];
      var snapshot := t.(policy := sub.policy);
      if !sub.configOk {
        phase := E.Busy(snapshot, E.Burying);
      } else if job.deps != [] {
        phase := E.Busy(snapshot, E.NeedDag);
      } else {
        phase := E.Busy(snapshot, E.NeedKey);
      }
    }

    /** All dependencies that have a row are DONE. */
    method CheckDagDependencies(deps: seq<JobId>) returns (done: bool)
      ensures done == E.DependenciesDone(store.View(), deps)
    {
      done := true;
      var i := 0;
      while i < |deps| && done
        invariant 0 <= i <= |deps|
        invariant done == E.DependenciesDone(store.View(), deps[..i])
        invariant !done ==> !E.DependenciesDone(store.View(), deps)
      {
        assert deps[..i + 1] == deps[..i] + [deps[i]];
        assert forall d :: d in deps[..i + 1] <==> d in deps[..i] || d == deps[i];
        done := deps[i] !in store.jobs || store.jobs[deps[i]].status == Done;
        i := i + 1;
      }
      assert done ==> deps[..i] == deps;
    }

    method FindIdempotencyKey(run: RunId, attempt: Attempt) returns (payment: Option<PaymentId>)
      ensures payment == if ForRun(run, attempt) in store.keys then Some(store.keys[ForRun(run, attempt)]) else None
    {
      var key := ForRun(run, attempt);
      if key in store.keys {
        return Some(store.keys[key]);
      }
      return None;
    }

    /** The key is inserted first. A stored one is a conflict, and the source answers False; a run without a row
        violates the key's foreign key, and the source raises. Neither changes anything. */
    method PersistSuccess(t: E.Ticket, payment: PaymentId) returns (outcome: Outcome)
      modifies store
      ensures store.View() == E.PersistSuccess(old(store.View()), E.Worker([], E.Busy(t, E.Persisting(payment)))).db
      ensures outcome.Conflict? <==> ForRun(t.run, t.attempt) in old(store.keys)
      ensures outcome.Stored? <==> ForRun(t.run, t.attempt) !in old(store.keys) && ForRun(t.run, t.attempt) in store.keys
    {
      var key := ForRun(t.run, t.attempt);
      if key in store.keys {
        return Conflict;
      }
      if t.run !in store.runs {
        return Raised;
      }
      store.keys := store.keys[key := payment];
      store.runs := store.runs[t.run := store.runs[t.run].(status := Succeeded, payment := Some(payment), lock := None)];
      store.MarkJob(t.job, Done);
      if t.sub in store.subs {
        store.subs := store.subs[t.sub := store.subs[t.sub].(failures := 0)];
      }
      store.h := store.h.(log := store.h.log + [Paid(t.sub)]);
      outcome := Stored;
    }

    method MarkDagCancelled(t: E.Ticket)
      modifies store
      ensures store.View() == E.MarkDagCancelled(old(store.View()), E.Worker([], E.Busy(t, E.Cancelling))).db
    {
      store.CloseRun(t.run, Failed);
      store.MarkJob(t.job, Dropped);
    }

    /** The retry half of the failure handler. */
    method ScheduleRetry(t: E.Ticket, after: Time, id: RunId)
      modifies store
      ensures store.View() == E.ScheduleRetry(old(store.View()), E.Worker([], E.Busy(t, E.Retrying(after))), id).db
    {
      store.CloseRun(t.run, Failed);
      store.AddRun(id, t.job, t.attempt + 1, Some(after));
    }

    method MoveToDlq(t: E.Ticket)
      modifies store
      ensures store.View() == E.BuryRun(old(store.View()), E.Worker([], E.Busy(t, E.Burying))).db
    {
      store.Bury(t.run, t.job, t.attempt, t.sub, true);
    }

    /** The failure handler decides before its transaction begins: retry with backoff, or the dead-letter queue. */
    method Decide(t: E.Ticket, retryable: bool, u: real) returns (next: E.Stage)
      ensures next == E.AfterFailure(store.View(), t, retryable, u)
    {
      if retryable && t.attempt < t.policy.maxAttempts {
        next := E.Retrying(store.now + t.policy.NextDelay(t.attempt, u));
      } else {
        next := E.Burying;
      }
    }

    /** The bank call: whatever the bank did is on its books, and the reply is sorted into what to do next. */
    method Dispatch(t: E.Ticket, reply: E.Reply, u: real) returns (next: E.Stage)
      modifies store
      ensures var a := E.ReceiveReply(old(store.View()), E.Worker([], E.Busy(t, E.Calling)), reply, u);
        store.View() == a.db && a.w == E.Worker([], E.Busy(t, next))
      ensures next.Persisting? || next.Retrying? || next.Burying?
    {
      var key, made := ForRun(t.run, t.attempt), E.MadeBy(reply);
      if made.Some? && key !in store.bank {
        store.bank := store.bank[key := made.value];
      }
      store.h := store.h.(called := store.h.called + {t.run},
                          unsure := if E.IsUnsure(reply) then store.h.unsure + {t.run} else store.h.unsure);
      match reply
      case Accepted(p) => next := E.Persisting(p);
      case Permanent => next := Decide(t, false, u);
      case _ => next := Decide(t, true, u);
    }

    /** One finishing transaction, whichever the stage calls for. */
    method Finish(rest: seq<RunId>, t: E.Ticket, stage: E.Stage, newId: RunId) returns (ghost step: ExecStep)
      requires stage.Persisting? || stage.Cancelling? || stage.Retrying? || stage.Burying?
      requires newId !in store.runs
      modifies store
      ensures Steps(me, old(store.View()), E.Worker(rest, E.Busy(t, stage)), step, store.View(), E.Worker(rest, E.Idle))
      ensures Finishes(step)
    {
      match stage {
        case Persisting(payment) =>
          step := Persist;
          var _ := PersistSuccess(t, payment);
        case Cancelling =>
          step := DagCancel;
          MarkDagCancelled(t);
        case Retrying(after) =>
          step := Retry(newId);
          ScheduleRetry(t, after, newId);
        case Burying =>
          step := ExecStep.Bury;
          MoveToDlq(t);
      }
    }

    /** From the claimed run to its finishing transaction, along every branch, or to the transaction that raises; `at` is where
        the worker then is. */
    method ExecuteRun(rest: seq<RunId>, t: E.Ticket, turn: Turn) returns (raised: bool, ghost commits: seq<Commit>, ghost at: E.Worker)
      requires Possible(turn, ForRun(t.run, t.attempt))
      modifies store
      ensures Drives(me, E.Worker(rest, E.Busy(t, E.Claimed)), commits, at) && Tells(turn, commits) && at.batch == rest
      ensures raised ==> turn.fails != Never && store.View() == FailsOn(turn)
      ensures !raised ==> at == E.Worker(rest, E.Idle) && commits != [] && Leaves(commits, store.View())
    {
      hide Steps, Drives, Tells, Leaves, Began, Finishes, E.LoadSnapshot, E.ReceiveReply, E.DependenciesDone;
      ghost var w0 := E.Worker(rest, E.Busy(t, E.Claimed));
      raised, commits, at := true, [], w0;
      NoSteps(me, w0);
      NothingTold(turn);
      Moments(turn);
      store.Meanwhile(turn.load);
      if turn.fails == AtLoad {
        return;
      }
      var phase := Load(t);
      LoadSteps(me, turn.load, rest, t);
      GoOn(me, turn, w0, commits, at, Commit(turn.load, ExecStep.Load, turn.load), E.Worker(rest, phase));
      commits, at := commits + [Commit(turn.load, ExecStep.Load, turn.load)], E.Worker(rest, phase);
      SnapshotOf(turn.load, t);
      if phase.Idle? {
        raised := false;
        return;
      }
      var snapshot, stage := phase.ticket, phase.stage;
      var deps := store.jobs[t.job].deps;
      if stage.NeedDag? {
        store.Meanwhile(turn.dag);
        if turn.fails == AtDag {
          return;
        }
        var done := CheckDagDependencies(deps);
        CheckSteps(me, turn.dag, rest, snapshot);
        stage := if done then E.NeedKey else E.Cancelling;
        GoOn(me, turn, w0, commits, at, Commit(turn.dag, CheckDag, turn.dag), E.Worker(rest, E.Busy(snapshot, stage)));
        commits, at := commits + [Commit(turn.dag, CheckDag, turn.dag)], E.Worker(rest, E.Busy(snapshot, stage));
      }
      if stage.NeedKey? {
        store.Meanwhile(turn.key);
        if turn.fails == AtKey {
          return;
        }
        var stored := FindIdempotencyKey(t.run, t.attempt);
        LookSteps(me, turn.key, rest, snapshot);
        stage := if stored.Some? then E.Persisting(stored.value) else E.Calling;
        GoOn(me, turn, w0, commits, at, Commit(turn.key, LookUp, turn.key), E.Worker(rest, E.Busy(snapshot, stage)));
        commits, at := commits + [Commit(turn.key, LookUp, turn.key)], E.Worker(rest, E.Busy(snapshot, stage));
      }
      if stage.Calling? {
        store.Meanwhile(turn.call);
        CallSteps(me, turn.call, rest, snapshot, turn.reply, turn.u);
        stage := Dispatch(snapshot, turn.reply, turn.u);
        ghost var call := Commit(turn.call, Call(turn.reply, turn.u), store.View());
        GoOn(me, turn, w0, commits, at, call, E.Worker(rest, E.Busy(snapshot, stage)));
        commits, at := commits + [call], E.Worker(rest, E.Busy(snapshot, stage));
      }
      store.Meanwhile(turn.finish);
      if turn.fails == AtFinish {
        return;
      }
      ghost var step := Finish(rest, snapshot, stage, turn.newId);
      GoOn(me, turn, w0, commits, at, Commit(turn.finish, step, store.View()), E.Worker(rest, E.Idle));
      raised, commits, at := false, commits + [Commit(turn.finish, step, store.View())], E.Worker(rest, E.Idle);
    }

    /** One id of the batch: the claim, and everything after it. */
    method ProcessRun(rest: seq<RunId>, r: RunId, turn: Turn) returns (raised: bool, ghost commits: seq<Commit>, ghost at: E.Worker)
      requires r in turn.claim.runs ==> Possible(turn, ForRun(r, turn.claim.runs[r].attempt))
      modifies store
      ensures Drives(me, E.Worker([r] + rest, E.Idle), commits, at) && Tells(turn, commits) && (at.batch == rest || at.batch == [r] + rest)
      ensures raised ==> turn.fails != Never && store.View() == FailsOn(turn)
      ensures !raised ==> at == E.Worker(rest, E.Idle) && commits != [] && Leaves(commits, store.View())
    {
      hide Steps, Drives, Tells, Leaves, E.ClaimNext;
      ghost var w0 := E.Worker([r] + rest, E.Idle);
      raised, commits, at := true, [], w0;
      NoSteps(me, w0);
      NothingTold(turn);
      store.Meanwhile(turn.claim);
      if turn.fails == AtClaim {
        return;
      }
      var t := Claim(r);
      ClaimSteps(me, turn.claim, rest, r);
      ClaimedIs(me, turn.claim, r);
      at := E.Worker(rest, E.ClaimNext(turn.claim, me, E.Worker([r], E.Idle)).w.phase);
      DriveOn(me, w0, [], w0, turn.claim, ClaimNext, store.View(), at);
      TellOn(turn, [], Commit(turn.claim, ClaimNext, store.View()));
      raised, commits := false, [] + [Commit(turn.claim, ClaimNext, store.View())];
      if t.Some? {
        ghost var more, w1 := [], at;
        raised, more, at := ExecuteRun(rest, t.value, turn);
        DriveThrough(me, w0, commits, w1, more, at);
        TellThrough(turn, commits, more);
        LeaveThrough(commits, more, store.View());
        commits := commits + more;
      }
    }

    /** The body of the batch loop: an exception is caught, and what is left of the batch is kept. */
    method TryRun(rest: seq<RunId>, r: RunId, turn: Turn) returns (ghost commits: seq<Commit>)
      requires r in turn.claim.runs ==> Possible(turn, ForRun(r, turn.claim.runs[r].attempt))
      modifies store
      ensures Drives(me, E.Worker([r] + rest, E.Idle), commits, E.Worker(rest, E.Idle))
      ensures commits != [] && Tells(turn, commits) && Leaves(commits, store.View())
    {
      hide Steps, Drives, Tells, Leaves, Possible;
      ghost var at;
      var raised;
      raised, commits, at := ProcessRun(rest, r, turn);
      if raised {
        AbandonSteps(me, store.View(), at, rest);
        ghost var c := Commit(store.View(), Abandon(rest), store.View());
        DriveOn(me, E.Worker([r] + rest, E.Idle), commits, at, c.before, c.step, c.after, E.Worker(rest, E.Idle));
        TellOn(turn, commits, c);
        commits := commits + [c];
      }
    }

    /** The fetch and the whole batch: one id after the other, an exception in one of them keeping none of the others from being
        processed. From an empty batch to an empty batch by protocol steps only, whatever others commit in between. */
    method ProcessBatch(order: seq<RunId>, fetched: Db, turns: seq<Turn>) returns (ghost commits: seq<Commit>)
      requires var ids := Picked(r => E.Due(fetched, r), order, fetched.cfg.batchSize);
        && |turns| == |ids|
        && forall i :: 0 <= i < |ids| && ids[i] in turns[i].claim.runs ==>
             Possible(turns[i], ForRun(ids[i], turns[i].claim.runs[ids[i]].attempt))
      modifies store
      ensures Drives(me, E.Worker([], E.Idle), commits, E.Worker([], E.Idle))
      ensures Leaves(commits, store.View())
      ensures commits != [] && commits[0] == Commit(fetched, Fetch(Picked(r => E.Due(fetched, r), order, fetched.cfg.batchSize)), fetched)
      ensures forall c :: c in commits[1..] ==> exists i :: 0 <= i < |turns| && Began(turns[i], c)
    {
      hide Steps, Drives, Possible, Leaves, Began;
      store.Meanwhile(fetched);
      var ids := FetchPendingRunIds(order);
      FetchSteps(me, fetched, order, ids);
      ghost var w0 := E.Worker([], E.Idle);
      NoSteps(me, w0);
      DriveOn(me, w0, [], w0, fetched, Fetch(ids), fetched, E.Worker(ids, E.Idle));
      commits := [Commit(fetched, Fetch(ids), fetched)];
      assert [] + commits == commits;
      LeaveOne(commits[0]);
      var i := 0;
      while i < |ids|
        invariant 0 <= i <= |ids|
        invariant Drives(me, w0, commits, E.Worker(ids[i..], E.Idle))
        invariant Leaves(commits, store.View())
        invariant commits != [] && commits[0] == Commit(fetched, Fetch(ids), fetched)
        invariant forall c :: c in commits[1..] ==> exists k :: 0 <= k < |turns| && Began(turns[k], c)
      {
        assert [ids[i]] + ids[i + 1..] == ids[i..];
        ghost var more := TryRun(ids[i + 1..], ids[i], turns[i]);
        DriveThrough(me, w0, commits, E.Worker(ids[i..], E.Idle), more, E.Worker(ids[i + 1..], E.Idle));
        LeaveThrough(commits, more, store.View());
        assert (commits + more)[1..] == commits[1..] + more;
        commits := commits + more;
        i := i + 1;
      }
      assert ids[i..] == [];
    }
  }
}
