/** Money: which runs reach the bank, which keys are stored, and how often one job can be paid. */
module Payments {
  import opened Domain
  import opened Tables
  import opened Protocol
  import opened Frames
  import opened Safety
  import E = Executor
  import R = Recovery
  import S = Scheduler

  type KeyMap = map<IdempotencyKey, PaymentId>

  /** A stored key names a payment the bank made under it; a payment belongs to a run that was called once. */
  ghost predicate KeysOk(runs: Runs, keys: KeyMap, bank: KeyMap, called: set<RunId>) {
    && (forall k :: k in keys ==> k in bank && bank[k] == keys[k])
    && (forall k :: k in bank ==> k.run in runs && runs[k.run].attempt == k.attempt && k.run in called)
  }

  ghost predicate CallsOk(claims: map<RunId, Claim>, called: set<RunId>, unsure: set<RunId>) {
    (forall r :: r in called ==> r in claims) && (forall r :: r in unsure ==> r in called)
  }

  /** A paid run got a successor only because its call was unsure or because recovery took it. */
  ghost predicate CauseOk(runs: Runs, idx: Index, bank: KeyMap, unsure: set<RunId>, reaped: map<RunId, WorkerId>) {
    forall k :: k in bank && k.run in runs && (runs[k.run].job, runs[k.run].attempt + 1) in idx ==>
      k.run in unsure || k.run in reaped
  }

  ghost predicate Booked(db: Db) {
    && KeysOk(db.runs, db.keys, db.bank, db.h.called)
    && CallsOk(db.h.claims, db.h.called, db.h.unsure)
    && CauseOk(db.runs, db.byAttempt, db.bank, db.h.unsure, db.h.reaped)
  }

  predicate BeforeCall(st: E.Stage) { st.Claimed? || st.NeedDag? || st.NeedKey? || st.Calling? }

  ghost predicate ExecBooked(db: Db, w: E.Worker) {
    w.phase.Busy? ==>
      var t, st := w.phase.ticket, w.phase.stage;
      var key := ForRun(t.run, t.attempt);
      && key !in db.keys
      && (BeforeCall(st) ==> t.run !in db.h.called)
      && (st.Persisting? ==> key in db.bank && db.bank[key] == st.payment)
      && (st.Retrying? && key in db.bank ==> t.run in db.h.unsure)
  }

  ghost predicate PayInv(s: Sys) {
    Booked(s.db) && forall w :: w in s.execs ==> ExecBooked(s.db, s.execs[w])
  }

  lemma ExecBookedStable(db: Db, db': Db, a: Actor, me: WorkerId, w: E.Worker)
    requires ExecOk(db, me, w) && ExecBooked(db, w) && Guarantee(db, db', a) && a != TheExec(me)
    ensures ExecBooked(db', w)
  {
  }

  lemma CausesStay(db: Db, db': Db, a: Actor)
    requires Booked(db) && RunIndex(db'.runs, db'.byAttempt) && Guarantee(db, db', a) && !a.TheExec? && db'.bank == db.bank
    ensures CauseOk(db'.runs, db'.byAttempt, db'.bank, db'.h.unsure, db'.h.reaped)
  {
    hide CallsOk, JobsGrow, SubsGrow, OwnKeys, OwnEvents;
  }

  lemma NoNewPayments(db: Db, db': Db, a: Actor)
    requires Guarantee(db, db', a) && !a.TheExec?
    ensures db'.bank == db.bank && db'.keys == db.keys && db'.h.called == db.h.called && db'.h.unsure == db.h.unsure
  {
    hide RunsGrow, JobsGrow, SubsGrow, OwnSuccessors;
    assert forall k :: k in db'.bank ==> k in db.bank;
    assert forall k :: k in db'.keys ==> k in db.keys;
    assert forall r :: r in db'.h.called ==> r in db.h.called;
    assert forall r :: r in db'.h.unsure ==> r in db.h.unsure;
    assert db'.bank.Keys == db.bank.Keys && db'.keys.Keys == db.keys.Keys;
  }

  /** Whatever is not an executor adds no key, no payment and no call. */
  lemma BookedByOthers(db: Db, db': Db, a: Actor)
    requires Booked(db) && RunIndex(db'.runs, db'.byAttempt) && Guarantee(db, db', a) && !a.TheExec?
    ensures Booked(db')
  {
    hide CauseOk, Promises, JobsGrow, SubsGrow;
    NoNewPayments(db, db', a);
    CausesStay(db, db', a);
  }

  lemma BookedQuiet(db: Db, db': Db, me: WorkerId)
    requires Booked(db) && Guarantee(db, db', TheExec(me))
    requires db'.keys == db.keys && db'.bank == db.bank && db'.byAttempt == db.byAttempt
    requires db'.h.called == db.h.called && db'.h.unsure == db.h.unsure
    ensures Booked(db')
  {
  }

  lemma CallBooked(db: Db, me: WorkerId, w: E.Worker, reply: E.Reply, u: real)
    requires Booked(db) && ExecOk(db, me, w) && ExecBooked(db, w)
    requires w.phase.Busy? && w.phase.stage.Calling? && E.Answers(db, w.phase.ticket, reply)
    ensures var a := E.ReceiveReply(db, w, reply, u); Booked(a.db) && ExecBooked(a.db, a.w)
  {
  }

  lemma PersistBooked(db: Db, me: WorkerId, w: E.Worker)
    requires Booked(db) && ExecOk(db, me, w) && ExecBooked(db, w) && w.phase.Busy? && w.phase.stage.Persisting?
    requires Guarantee(db, E.PersistSuccess(db, w).db, TheExec(me))
    ensures Booked(E.PersistSuccess(db, w).db)
  {
  }

  lemma InsertShape(db: Db, id: RunId, job: JobId, attempt: Attempt, after: Option<Time>)
    ensures var db' := InsertRun(db, id, job, attempt, after);
      && db'.keys == db.keys && db'.bank == db.bank && db'.h == db.h
      && forall k :: k in db'.byAttempt && k !in db.byAttempt ==> k == (job, attempt)
  {
  }

  lemma FinishShape(db: Db, r: RunId, status: RunStatus)
    ensures var db' := FinishRun(db, r, status);
      db'.keys == db.keys && db'.bank == db.bank && db'.h == db.h && db'.byAttempt == db.byAttempt
  {
  }

  /** The retry transaction touches neither keys nor bank, and gives a successor to its own run only. */
  lemma RetryShape(db: Db, w: E.Worker, id: RunId)
    requires w.phase.Busy? && w.phase.stage.Retrying?
    ensures var db', t := E.ScheduleRetry(db, w, id).db, w.phase.ticket;
      && db'.keys == db.keys && db'.bank == db.bank && db'.h == db.h
      && forall k :: k in db'.byAttempt && k !in db.byAttempt ==> k == (t.job, t.attempt + 1)
  {
    hide InsertRun, FinishRun;
    var t := w.phase.ticket;
    FinishShape(db, t.run, Failed);
    InsertShape(FinishRun(db, t.run, Failed), id, t.job, t.attempt + 1, Some(w.phase.stage.after));
  }

  lemma OnlyOneRun(runs: Runs, idx: Index, r: RunId, q: RunId)
    requires RunIndex(runs, idx) && r in runs && q in runs && runs[r].job == runs[q].job && runs[r].attempt == runs[q].attempt
    ensures r == q
  {
  }

  lemma RetryBooked(db: Db, me: WorkerId, w: E.Worker, id: RunId)
    requires Booked(db) && ExecOk(db, me, w) && ExecBooked(db, w) && w.phase.Busy? && w.phase.stage.Retrying?
    requires Sound(db)
    requires Guarantee(db, E.ScheduleRetry(db, w, id).db, TheExec(me))
    ensures Booked(E.ScheduleRetry(db, w, id).db)
  {
    hide Sound, E.ScheduleRetry, Promises;
    var db', t := E.ScheduleRetry(db, w, id).db, w.phase.ticket;
    RetryShape(db, w, id);
    forall k | k in db'.bank && k.run in db'.runs && (db'.runs[k.run].job, db'.runs[k.run].attempt + 1) in db'.byAttempt
      ensures k.run in db'.h.unsure || k.run in db'.h.reaped
    {
      if (db.runs[k.run].job, db.runs[k.run].attempt + 1) !in db.byAttempt {
        SoundIndex(db);
        OnlyOneRun(db.runs, db.byAttempt, k.run, t.run);
      }
    }
  }

  lemma ExecStepBooked(m: Mode, db: Db, me: WorkerId, w: E.Worker, x: ExecStep)
    requires Sound(db) && Booked(db) && ExecOk(db, me, w) && ExecBooked(db, w) && ExecEnabled(m, db, w, x)
    requires Guarantee(db, ExecApply(m, db, me, w, x).db, TheExec(me))
    ensures var a := ExecApply(m, db, me, w, x); Booked(a.db) && ExecBooked(a.db, a.w)
  {
    hide Sound, Guarantee, Booked;
    var a := ExecApply(m, db, me, w, x);
    match x
    case ClaimNext => ClaimBooked(db, me, w);
    case Call(reply, u) => CallBooked(db, me, w, reply, u);
    case Persist => PersistBooked(db, me, w);
    case Retry(run) => RetryBooked(db, me, w, run);
    case _ => BookedQuiet(db, a.db, me);
  }

  lemma ClaimBooked(db: Db, me: WorkerId, w: E.Worker)
    requires Sound(db) && Booked(db) && w.phase.Idle? && w.batch != []
    requires Guarantee(db, E.ClaimNext(db, me, w).db, TheExec(me))
    ensures var a := E.ClaimNext(db, me, w); Booked(a.db) && ExecBooked(a.db, a.w)
  {
    hide Sound, Guarantee;
    var r := w.batch[0];
    if r in db.runs && db.runs[r].status == Pending {
      NotYetClaimed(db, r);
    }
  }

  lemma PayStep(m: Mode, s: Sys, l: Label)
    requires Inv(s) && PayInv(s) && Enabled(m, s, l)
    ensures PayInv(Apply(m, s, l))
  {
    hide Sound, Guarantee, Booked, ExecOk, RecOk, ExecBooked, EnvApply, ExecApply, RecApply, EnvEnabled, ExecEnabled, RecEnabled, Tracked;
    var s' := Apply(m, s, l);
    Step(m, s, l);
    if l.Exec? {
      ExecStepBooked(m, s.db, l.w, s.execs[l.w], l.x);
    } else {
      SoundIndex(s'.db);
      BookedByOthers(s.db, s'.db, ActorOf(l));
    }
    forall w | w in s.execs && ActorOf(l) != TheExec(w) ensures ExecBooked(s'.db, s.execs[w]) {
      ExecBookedStable(s.db, s'.db, ActorOf(l), w, s.execs[w]);
    }
  }

  lemma SoundIndex(db: Db)
    requires Sound(db)
    ensures RunIndex(db.runs, db.byAttempt)
  {
  }

  lemma {:induction false} PayAlways(m: Mode, ss: seq<Sys>, ls: seq<Label>, i: nat)
    requires Trace(m, ss, ls) && i < |ss|
    ensures Inv(ss[i]) && PayInv(ss[i])
  {
    hide Inv, Apply, Enabled;
    Always(m, ss, ls, i);
    if i > 0 {
      hide PayInv;
      PayAlways(m, ss, ls, i - 1);
      PayStep(m, ss[i - 1], ls[i - 1]);
    }
  }

  // ---------- one call per key, one key per run ----------

  /** Step i of the run calls the bank for the run `r`. */
  ghost predicate CallsBank(m: Mode, ss: seq<Sys>, ls: seq<Label>, i: nat, r: RunId)
    requires Trace(m, ss, ls)
  {
    && i < |ls| && ls[i].Exec? && ls[i].x.Call?
    && ss[i].execs[ls[i].w].phase.ticket.run == r
  }

  /** The bank is called at most once for a run, hence at most once under any key. */
  lemma CalledAtMostOnce(m: Mode, ss: seq<Sys>, ls: seq<Label>, i: nat, k: nat, r: RunId)
    requires Trace(m, ss, ls) && CallsBank(m, ss, ls, i, r) && CallsBank(m, ss, ls, k, r)
    ensures i == k
  {
    if i < k {
      CallLeavesMark(m, ss[i], ls[i], r);
      CallFindsNoMark(m, ss, ls, k, r);
      GrowsAlong(m, ss, ls, i + 1, k);
      hide Inv, Apply, Enabled, CallsBank;
    } else if k < i {
      CalledAtMostOnce(m, ss, ls, k, i, r);
    }
  }

  lemma CallFindsNoMark(m: Mode, ss: seq<Sys>, ls: seq<Label>, k: nat, r: RunId)
    requires Trace(m, ss, ls) && CallsBank(m, ss, ls, k, r)
    ensures r !in ss[k].db.h.called
  {
    hide Inv, Booked, Apply;
    PayAlways(m, ss, ls, k);
    assert ExecBooked(ss[k].db, ss[k].execs[ls[k].w]);
  }

  lemma CallLeavesMark(m: Mode, s: Sys, l: Label, r: RunId)
    requires Enabled(m, s, l) && l.Exec? && l.x.Call? && s.execs[l.w].phase.ticket.run == r
    ensures r in Apply(m, s, l).db.h.called
  {
  }

  /** The key pre-check never finds a key, and the gate insert never meets one. */
  lemma KeyGateNeverHit(m: Mode, ss: seq<Sys>, ls: seq<Label>, i: nat)
    requires Trace(m, ss, ls) && i < |ls| && ls[i].Exec?
    ensures ls[i].x.LookUp? ==> ss[i + 1].execs[ls[i].w].phase.stage == E.Calling
    ensures ls[i].x.Persist? ==>
      var t := ss[i].execs[ls[i].w].phase.ticket;
      && ForRun(t.run, t.attempt) !in ss[i].db.keys
      && ForRun(t.run, t.attempt) in ss[i + 1].db.keys
      && ss[i + 1].db.runs[t.run].status == Succeeded
  {
    PayAlways(m, ss, ls, i);
    KeyGateStep(m, ss[i], ls[i]);
    hide Inv, PayInv, Apply, Enabled;
  }

  lemma KeyGateStep(m: Mode, s: Sys, l: Label)
    requires Inv(s) && PayInv(s) && Enabled(m, s, l) && l.Exec?
    ensures l.x.LookUp? ==> Apply(m, s, l).execs[l.w].phase.stage == E.Calling
    ensures l.x.Persist? ==>
      var t := s.execs[l.w].phase.ticket;
      && ForRun(t.run, t.attempt) !in s.db.keys
      && ForRun(t.run, t.attempt) in Apply(m, s, l).db.keys
      && t.run in Apply(m, s, l).db.runs
      && Apply(m, s, l).db.runs[t.run].status == Succeeded
  {
    hide Sound, Booked, Tracked;
  }

  // ---------- duplicate-payment accounting ----------

  /** The payments the bank made for a job. */
  ghost function PaymentsOf(db: Db, j: JobId): set<IdempotencyKey> {
    set k | k in db.bank && k.run in db.runs && db.runs[k.run].job == j
  }

  ghost function RunsOf(db: Db, runs: set<RunId>, j: JobId): set<RunId> {
    set r | r in runs && r in db.runs && db.runs[r].job == j
  }

  lemma {:induction false} SizeOfImage(keys: set<IdempotencyKey>, runs: set<RunId>)
    requires forall k :: k in keys ==> k.run in runs
    requires forall k, k' :: k in keys && k' in keys && k.run == k'.run ==> k == k'
    ensures |keys| <= |runs|
  {
    if keys != {} {
      var k :| k in keys;
      SizeOfImage(keys - {k}, runs - {k.run});
    }
  }

  /** Payments for one job, executors that outlive their lease included: at most one, plus one for each
      of its calls that came back ambiguous or unexpected, plus one for each of its runs that recovery took. */
  lemma PaymentBound(m: Mode, ss: seq<Sys>, ls: seq<Label>, i: nat, j: JobId)
    requires Trace(m, ss, ls) && i < |ss|
    ensures var db := ss[i].db;
      |PaymentsOf(db, j)| <= 1 + |RunsOf(db, db.h.unsure, j)| + |RunsOf(db, db.h.reaped.Keys, j)|
  {
    PayAlways(m, ss, ls, i);
    PaymentBoundIn(ss[i].db, j);
  }

  lemma PaymentBoundIn(db: Db, j: JobId)
    requires Sound(db) && Booked(db)
    ensures |PaymentsOf(db, j)| <= 1 + |RunsOf(db, db.h.unsure, j)| + |RunsOf(db, db.h.reaped.Keys, j)|
  {
    hide Sound;
    var pays, unsure, reaped := PaymentsOf(db, j), RunsOf(db, db.h.unsure, j), RunsOf(db, db.h.reaped.Keys, j);
    var excused := set k | k in pays && (k.run in unsure || k.run in reaped);
    SizeOfImage(excused, unsure + reaped);
    assert |unsure + reaped| <= |unsure| + |reaped|;
    var rest := pays - excused;
    forall k, k' | k in rest && k' in rest ensures k == k' {
      OneTop(db, k.run, k'.run);
    }
    AtMostOne(rest);
    assert pays == excused + rest;
  }

  lemma AtMostOne(s: set<IdempotencyKey>)
    requires forall k, k' :: k in s && k' in s ==> k == k'
    ensures |s| <= 1
  {
    if s != {} {
      var k :| k in s;
      assert s == {k};
    }
  }

  // ---------- how a paid run gets a successor ----------

  /** The step is the retry of the executor that holds the run, or the follow-up, not exhausted, of the recovery worker that does. */
  predicate AddsNext(s: Sys, l: Label, r: RunId) {
    match l
    case Env(_) => false
    case Exec(w, x) => x.Retry? && w in s.execs && s.execs[w].phase.Busy? && s.execs[w].phase.ticket.run == r
    case Rec(w, y) =>
      y.Resolve? && w in s.recs && s.recs[w].Holding?
      && var t := s.recs[w].stub; t.run == r && t.sub.Some? && !t.policy.IsExhausted(t.attempt)
  }

  lemma InsertIndex(db: Db, id: RunId, job: JobId, attempt: Attempt, after: Option<Time>)
    ensures InsertRun(db, id, job, attempt, after).byAttempt.Keys == db.byAttempt.Keys + {(job, attempt)}
  {
  }

  lemma RetryIndex(db: Db, w: E.Worker, id: RunId)
    requires w.phase.Busy? && w.phase.stage.Retrying?
    ensures E.ScheduleRetry(db, w, id).db.byAttempt.Keys == db.byAttempt.Keys + {(w.phase.ticket.job, w.phase.ticket.attempt + 1)}
  {
    hide InsertRun, FinishRun;
    var t := w.phase.ticket;
    FinishShape(db, t.run, Failed);
    InsertIndex(FinishRun(db, t.run, Failed), id, t.job, t.attempt + 1, Some(w.phase.stage.after));
  }

  lemma FollowUpIndex(db: Db, p: R.Phase, id: RunId)
    requires p.Holding?
    ensures R.FollowUp(db, p, id).db.byAttempt.Keys ==
      if p.stub.sub.Some? && !p.stub.policy.IsExhausted(p.stub.attempt)
      then db.byAttempt.Keys + {(p.stub.job, p.stub.attempt + 1)} else db.byAttempt.Keys
  {
    hide InsertRun, MoveToDlq;
    var t := p.stub;
    var db1 := db.(h := db.h.(resolved := db.h.resolved + {t.run}));
    InsertIndex(db1, id, t.job, t.attempt + 1, None);
    if t.sub.Some? {
      DlqFrame(db1, t.run, t.job, t.attempt, t.sub.value, false);
    }
  }

  lemma OneNext(db: Db, r: RunId, q: RunId)
    requires Sound(db) && r in db.runs && q in db.runs
    ensures (db.runs[r].job, db.runs[r].attempt + 1) == (db.runs[q].job, db.runs[q].attempt + 1) ==> r == q
  {
    hide NoGaps, LiveTop, References, JobIndex, ClaimsOk, ReapsOk, PoliciesOk;
  }

  lemma ExecAddsNext(m: Mode, db: Db, me: WorkerId, w: E.Worker, x: ExecStep, r: RunId)
    requires Sound(db) && ExecOk(db, me, w) && ExecEnabled(m, db, w, x) && r in db.runs && IsTop(db, r)
    ensures (db.runs[r].job, db.runs[r].attempt + 1) in ExecApply(m, db, me, w, x).db.byAttempt <==>
      x.Retry? && w.phase.ticket.run == r
  {
    hide Sound, E.ClaimNext, E.ReceiveReply, E.PersistSuccess, E.ScheduleRetry, E.MarkDagCancelled, E.Answers, MoveToDlq;
    ExecFrames(m, db, me, w, x);
    if x.Retry? {
      RetryIndex(db, w, x.run);
      OneNext(db, r, w.phase.ticket.run);
    }
  }

  lemma RecAddsNext(db: Db, me: WorkerId, p: R.Phase, y: RecStep, r: RunId)
    requires Sound(db) && RecOk(db, me, p) && RecEnabled(db, p, y) && r in db.runs && IsTop(db, r)
    ensures (db.runs[r].job, db.runs[r].attempt + 1) in RecApply(db, me, p, y).db.byAttempt <==>
      y.Resolve? && p.Holding? && p.stub.run == r && p.stub.sub.Some? && !p.stub.policy.IsExhausted(p.stub.attempt)
  {
    hide Sound, R.FollowUp, R.JudgeNext;
    RecFrames(db, me, p, y);
    if y.Resolve? {
      FollowUpIndex(db, p, y.run);
      OneNext(db, r, p.stub.run);
    }
  }

  lemma InsertJobIndex(db: Db, j: JobId, run: RunId, row: JobRow)
    ensures forall k :: k in S.InsertJob(db, j, run, row).byAttempt && k !in db.byAttempt ==> k.1 == 1
  {
    InsertIndex(db, run, j, 1, None);
  }

  lemma EnvAddsNoNext(m: Mode, db: Db, e: EnvStep, r: RunId)
    requires EnvEnabled(m, db, e) && r in db.runs && IsTop(db, r)
    ensures (db.runs[r].job, db.runs[r].attempt + 1) !in EnvApply(db, e).byAttempt
  {
    hide S.InsertJob;
    EnvFrames(m, db, e);
    match e
    case AddJob(j, run, row) => InsertJobIndex(db, j, run, row);
    case Schedule(x, _, j, run, epoch) => InsertJobIndex(db, j, run, JobRow(x, db.subs[x].nextFire.value, [], Ready, epoch));
    case _ =>
  }

  /** In every mode a further attempt follows a run if and only if its executor commits a retry, or its recovery worker a
      follow-up that is not exhausted. When the run's payment is on the bank's books already, the retry comes from an unsure
      reply. A job can be paid twice without such a run: an executor that stalls before its call may pay its run after a later
      attempt was paid; the guard on the follow-up covers that route too. */
  lemma PaidRunFollowedIff(m: Mode, ss: seq<Sys>, ls: seq<Label>, i: nat, r: RunId)
    requires Trace(m, ss, ls) && i < |ls| && r in ss[i].db.runs && IsTop(ss[i].db, r)
    ensures r in ss[i + 1].db.runs && (!IsTop(ss[i + 1].db, r) <==> AddsNext(ss[i], ls[i], r))
    ensures KeyOf(ss[i].db, r) in ss[i].db.bank && AddsNext(ss[i], ls[i], r) ==>
      if ls[i].Exec? then r in ss[i].db.h.unsure else r in ss[i].db.h.reaped
  {
    hide Sound, Booked, ExecOk, RecOk, ExecBooked, Tracked, EnvEnabled, EnvApply, ExecApply, RecApply, RecEnabled, Grows;
    PayAlways(m, ss, ls, i);
    GrowsAlong(m, ss, ls, i, i + 1);
    SameRun(ss[i].db, ss[i + 1].db, r);
    match ls[i]
    case Env(e) => EnvAddsNoNext(m, ss[i].db, e, r);
    case Exec(w, x) =>
      ExecAddsNext(m, ss[i].db, w, ss[i].execs[w], x, r);
      RetryUnsure(m, ss[i].db, w, ss[i].execs[w], x);
    case Rec(w, y) =>
      RecAddsNext(ss[i].db, w, ss[i].recs[w], y, r);
      HeldReaped(ss[i].db, w, ss[i].recs[w]);
  }

  lemma SameRun(db: Db, db': Db, r: RunId)
    requires Grows(db, db') && r in db.runs
    ensures r in db'.runs && db'.runs[r].job == db.runs[r].job && db'.runs[r].attempt == db.runs[r].attempt
  {
  }

  lemma RetryUnsure(m: Mode, db: Db, me: WorkerId, w: E.Worker, x: ExecStep)
    requires ExecOk(db, me, w) && ExecBooked(db, w) && ExecEnabled(m, db, w, x)
    ensures x.Retry? ==>
      && w.phase.Busy? && w.phase.ticket.run in db.runs
      && (KeyOf(db, w.phase.ticket.run) in db.bank ==> w.phase.ticket.run in db.h.unsure)
  {
  }

  lemma HeldReaped(db: Db, me: WorkerId, p: R.Phase)
    requires RecOk(db, me, p)
    ensures p.Holding? ==> p.stub.run in db.h.reaped
  {
  }
}
