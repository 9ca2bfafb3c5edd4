/** What follows from what the bank answers, over whole runs and with zombies included. */
module Replies {
  import opened Domain
  import opened Tables
  import opened Protocol
  import opened Frames
  import opened Safety
  import opened Payments
  import opened Backoff
  import E = Executor

  /** What the worker does next after `reply`, at the time `now`. */
  predicate Decided(now: Time, t: E.Ticket, reply: E.Reply, stage: E.Stage) {
    && (stage.Persisting? <==> reply.Accepted?)
    && (stage.Persisting? ==> stage.payment == reply.payment)
    && (stage.Burying? <==> reply.Permanent? || (!reply.Accepted? && t.policy.maxAttempts <= t.attempt))
    && (stage.Retrying? <==>
          (reply.Transient? || reply.Ambiguous? || reply.Unexpected?) && t.attempt < t.policy.maxAttempts)
    && (stage.Retrying? ==> now + Least(t.policy, t.attempt) <= stage.after <= now + t.policy.Backoff(t.attempt))
  }

  /** The payment the bank has made when this is its reply. */
  function Payment(reply: E.Reply): Option<PaymentId> {
    if reply.Accepted? then Some(reply.payment)
    else if reply.Ambiguous? || reply.Unexpected? then reply.made
    else None
  }

  lemma CallDecides(db: Db, w: E.Worker, reply: E.Reply, u: real)
    requires w.phase.Busy? && w.phase.ticket.policy.Valid() && Draw(u)
    ensures var a := E.ReceiveReply(db, w, reply, u);
      a.w.batch == w.batch && a.w.phase.Busy? && a.w.phase.ticket == w.phase.ticket && Decided(db.now, w.phase.ticket, reply, a.w.phase.stage)
  {
    DelayBounds(w.phase.ticket.policy, w.phase.ticket.attempt, u);
    hide RetryPolicy.Backoff, RetryPolicy.NextDelay, Least;
  }

  lemma CallBooks(db: Db, w: E.Worker, reply: E.Reply, u: real)
    requires w.phase.Busy? && ForRun(w.phase.ticket.run, w.phase.ticket.attempt) !in db.bank
    ensures var db', t := E.ReceiveReply(db, w, reply, u).db, w.phase.ticket;
      && db'.bank == (if Payment(reply).Some? then db.bank[ForRun(t.run, t.attempt) := Payment(reply).value] else db.bank)
      && db'.h.unsure == (if reply.Ambiguous? || reply.Unexpected? then db.h.unsure + {t.run} else db.h.unsure)
  {
  }

  lemma CallFacts(m: Mode, db: Db, me: WorkerId, w: E.Worker, x: ExecStep)
    requires Sound(db) && Booked(db) && ExecOk(db, me, w) && ExecBooked(db, w) && ExecEnabled(m, db, w, x) && x.Call?
    ensures w.phase.ticket.policy.Valid() && Draw(x.u)
    ensures ForRun(w.phase.ticket.run, w.phase.ticket.attempt) !in db.bank
    ensures ExecApply(m, db, me, w, x) == E.ReceiveReply(db, w, x.reply, x.u)
  {
    hide RunIndex, NoGaps, LiveTop, References, JobIndex, ClaimsOk, ReapsOk, E.ReceiveReply;
  }

  /** At every bank call: the payment is stored next if and only if the bank accepted it; the run is buried if and only if the
      reply was permanent, or no success and no attempt is left; it is retried otherwise, no sooner than the least and no later
      than the unjittered delay from now. The bank's books gain the payment the reply stands for, and only ambiguous and
      unexpected replies count as unsure. */
  lemma ReplyDecides(m: Mode, ss: seq<Sys>, ls: seq<Label>, i: nat)
    requires Trace(m, ss, ls) && i < |ls| && ls[i].Exec? && ls[i].x.Call?
    ensures var s, s', w, reply := ss[i], ss[i + 1], ls[i].w, ls[i].x.reply;
      var t := s.execs[w].phase.ticket;
      && s'.execs[w].phase.Busy? && s'.execs[w].phase.ticket == t && Decided(s.db.now, t, reply, s'.execs[w].phase.stage)
      && s'.db.bank == (if Payment(reply).Some? then s.db.bank[ForRun(t.run, t.attempt) := Payment(reply).value] else s.db.bank)
      && s'.db.h.unsure == (if reply.Ambiguous? || reply.Unexpected? then s.db.h.unsure + {t.run} else s.db.h.unsure)
  {
    hide Sound, Booked, Tracked, ExecOk, RecOk, ExecBooked, ExecApply, Decided;
    PayAlways(m, ss, ls, i);
    var s, w := ss[i], ls[i].w;
    CallFacts(m, s.db, w, s.execs[w], ls[i].x);
    CallDecides(s.db, s.execs[w], ls[i].x.reply, ls[i].x.u);
    CallBooks(s.db, s.execs[w], ls[i].x.reply, ls[i].x.u);
  }

  // ---------- from the decision to the finishing transaction ----------

  predicate Decision(stage: E.Stage) { stage.Persisting? || stage.Retrying? || stage.Burying? || stage.Cancelling? }

  /** Whoever holds the run holds it with this ticket and at this stage. */
  ghost predicate HeldAt(s: Sys, r: RunId, me: WorkerId, t: E.Ticket, stage: E.Stage) {
    && r in s.db.h.claims
    && forall w :: w in s.execs && s.execs[w].phase.Busy? && s.execs[w].phase.ticket.run == r ==>
         w == me && s.execs[w].phase == E.Busy(t, stage)
  }

  lemma ClaimsOther(db: Db, me: WorkerId, w: E.Worker, r: RunId)
    requires Sound(db) && r in db.h.claims && w.phase.Idle? && w.batch != []
    ensures var p := E.ClaimNext(db, me, w).w.phase; p.Busy? ==> p.ticket.run != r
  {
    hide RunIndex, NoGaps, LiveTop, References, JobIndex, ReapsOk, PoliciesOk;
  }

  /** A decided stage is left by its own finishing transaction, or by dropping the run. */
  lemma HolderStays(m: Mode, db: Db, me: WorkerId, w: E.Worker, x: ExecStep, r: RunId)
    requires Sound(db) && ExecEnabled(m, db, w, x) && r in db.h.claims
    requires w.phase.Busy? && w.phase.ticket.run == r ==> Decision(w.phase.stage)
    ensures var p := ExecApply(m, db, me, w, x).w.phase; p.Busy? && p.ticket.run == r ==> p == w.phase
  {
    hide Sound, E.ClaimNext;
    if x.ClaimNext? {
      ClaimsOther(db, me, w, r);
    }
  }

  lemma HeldAtStep(m: Mode, s: Sys, l: Label, r: RunId, me: WorkerId, t: E.Ticket, stage: E.Stage)
    requires Inv(s) && Enabled(m, s, l) && HeldAt(s, r, me, t, stage) && Decision(stage)
    ensures HeldAt(Apply(m, s, l), r, me, t, stage)
  {
    hide Sound, Promises, ExecOk, RecOk, Tracked, EnvApply, ExecApply, RecApply, EnvEnabled, ExecEnabled, RecEnabled;
    Step(m, s, l);
    if l.Exec? {
      HolderStays(m, s.db, l.w, s.execs[l.w], l.x, r);
    }
  }

  lemma {:induction false} HeldAtAlong(m: Mode, ss: seq<Sys>, ls: seq<Label>, i: nat, k: nat, r: RunId, me: WorkerId, t: E.Ticket, stage: E.Stage)
    requires Trace(m, ss, ls) && i <= k < |ss| && HeldAt(ss[i], r, me, t, stage) && Decision(stage)
    ensures HeldAt(ss[k], r, me, t, stage)
    decreases k
  {
    hide Inv, Apply, Enabled, HeldAt;
    if i < k {
      HeldAtAlong(m, ss, ls, i, k - 1, r, me, t, stage);
      Always(m, ss, ls, k - 1);
      HeldAtStep(m, ss[k - 1], ls[k - 1], r, me, t, stage);
    }
  }

  lemma OneHolder(s: Sys, me: WorkerId, t: E.Ticket, stage: E.Stage)
    requires Inv(s) && me in s.execs && s.execs[me].phase == E.Busy(t, stage)
    ensures HeldAt(s, t.run, me, t, stage)
  {
    hide Sound, Tracked;
    forall w | w in s.execs && s.execs[w].phase.Busy? && s.execs[w].phase.ticket.run == t.run ensures w == me {
      assert ExecOk(s.db, w, s.execs[w]) && ExecOk(s.db, me, s.execs[me]);
    }
    assert ExecOk(s.db, me, s.execs[me]);
  }

  /** The finishing transaction that a stage stands for. */
  predicate Fits(stage: E.Stage, x: ExecStep) {
    && (x.Persist? <==> stage.Persisting?) && (x.Retry? <==> stage.Retrying?)
    && (x.Bury? <==> stage.Burying?) && (x.DagCancel? <==> stage.Cancelling?)
  }

  /** Once a worker is at a decided stage with a run, every later finishing transaction on that run is its own and the one
      that the stage stands for. */
  lemma DecisionHolds(m: Mode, ss: seq<Sys>, ls: seq<Label>, i: nat, k: nat, me: WorkerId, t: E.Ticket, stage: E.Stage)
    requires Trace(m, ss, ls) && i <= k < |ls| && me in ss[i].execs && ss[i].execs[me].phase == E.Busy(t, stage) && Decision(stage)
    requires ls[k].Exec? && Finishes(ls[k].x) && ss[k].execs[ls[k].w].phase.Busy? && ss[k].execs[ls[k].w].phase.ticket.run == t.run
    ensures ls[k].w == me && ss[k].execs[me].phase == E.Busy(t, stage) && Fits(stage, ls[k].x)
  {
    hide Inv, Apply;
    Always(m, ss, ls, i);
    OneHolder(ss[i], me, t, stage);
    HeldAtAlong(m, ss, ls, i, k, t.run, me, t, stage);
  }

  /** The finishing transaction of a run whose bank call was answered is the one the reply calls for, in every mode: stored iff
      accepted; dead iff permanent, or refused with no attempt left; retried iff transient, ambiguous or unexpected with
      attempts left; never cancelled for a dependency. */
  lemma FinishFollowsReply(m: Mode, ss: seq<Sys>, ls: seq<Label>, i: nat, k: nat)
    requires Trace(m, ss, ls) && i < k < |ls| && ls[i].Exec? && ls[i].x.Call? && ls[k].Exec? && Finishes(ls[k].x)
    requires ss[k].execs[ls[k].w].phase.Busy? && ss[k].execs[ls[k].w].phase.ticket.run == ss[i].execs[ls[i].w].phase.ticket.run
    ensures var t, reply, x := ss[i].execs[ls[i].w].phase.ticket, ls[i].x.reply, ls[k].x;
      && ls[k].w == ls[i].w
      && (x.Persist? <==> reply.Accepted?)
      && (x.Bury? <==> reply.Permanent? || (!reply.Accepted? && t.policy.maxAttempts <= t.attempt))
      && (x.Retry? <==> (reply.Transient? || reply.Ambiguous? || reply.Unexpected?) && t.attempt < t.policy.maxAttempts)
      && !x.DagCancel?
  {
    var me, t := ls[i].w, ss[i].execs[ls[i].w].phase.ticket;
    hide Apply, Enabled;
    ReplyDecides(m, ss, ls, i);
    StillThere(m, ss, ls, i, me);
    DecisionHolds(m, ss, ls, i + 1, k, me, t, ss[i + 1].execs[me].phase.stage);
  }

  lemma StillThere(m: Mode, ss: seq<Sys>, ls: seq<Label>, i: nat, me: WorkerId)
    requires Trace(m, ss, ls) && i < |ls| && ls[i].Exec? && ls[i].w == me
    ensures me in ss[i].execs && me in ss[i + 1].execs
  {
    hide ExecApply, ExecEnabled;
  }

  /** The next attempt that a retry adds waits, counted from the bank call, at least the least and at most the unjittered delay
      of the attempt that failed. */
  lemma RetryWaits(m: Mode, ss: seq<Sys>, ls: seq<Label>, i: nat, k: nat)
    requires Trace(m, ss, ls) && i < k < |ls| && ls[i].Exec? && ls[i].x.Call? && ls[k].Exec? && ls[k].x.Retry?
    requires ss[k].execs[ls[k].w].phase.Busy? && ss[k].execs[ls[k].w].phase.ticket.run == ss[i].execs[ls[i].w].phase.ticket.run
    requires var t := ss[i].execs[ls[i].w].phase.ticket; (t.job, t.attempt + 1) !in ss[k].db.byAttempt
    ensures var t, id, now, db' := ss[i].execs[ls[i].w].phase.ticket, ls[k].x.run, ss[i].db.now, ss[k + 1].db;
      && id in db'.runs && db'.runs[id].job == t.job && db'.runs[id].attempt == t.attempt + 1 && db'.runs[id].retryAfter.Some?
      && now + Least(t.policy, t.attempt) <= db'.runs[id].retryAfter.value <= now + t.policy.Backoff(t.attempt)
  {
    var me, t := ls[i].w, ss[i].execs[ls[i].w].phase.ticket;
    hide Apply, Enabled, RetryPolicy.Backoff, Least;
    ReplyDecides(m, ss, ls, i);
    StillThere(m, ss, ls, i, me);
    DecisionHolds(m, ss, ls, i + 1, k, me, t, ss[i + 1].execs[me].phase.stage);
    RetryAdds(m, ss[k], ls[k]);
  }

  lemma RetryAdds(m: Mode, s: Sys, l: Label)
    requires Enabled(m, s, l) && l.Exec? && l.x.Retry?
    ensures var p := s.execs[l.w].phase;
      && p.Busy? && p.stage.Retrying?
      && ((p.ticket.job, p.ticket.attempt + 1) !in s.db.byAttempt ==>
            var db' := Apply(m, s, l).db;
            && l.x.run in db'.runs && db'.runs[l.x.run].job == p.ticket.job && db'.runs[l.x.run].attempt == p.ticket.attempt + 1
            && db'.runs[l.x.run].retryAfter == Some(p.stage.after))
  {
  }

  // ---------- the payment configuration ----------

  /** On the way to the bank the configuration is valid. */
  ghost predicate ConfigOk(db: Db, w: E.Worker) {
    w.phase.Busy? && (w.phase.stage.NeedDag? || w.phase.stage.NeedKey? || w.phase.stage.Calling? || w.phase.stage.Cancelling?) ==>
      w.phase.ticket.sub in db.subs && db.subs[w.phase.ticket.sub].configOk
  }

  ghost predicate ConfigInv(s: Sys) { forall w :: w in s.execs ==> ConfigOk(s.db, s.execs[w]) }

  lemma ConfigStable(db: Db, db': Db, w: E.Worker)
    requires ConfigOk(db, w) && Grows(db, db')
    ensures ConfigOk(db', w)
  {
    hide RunsGrow, JobsGrow, HistoryGrows;
  }

  lemma ConfigExec(m: Mode, db: Db, me: WorkerId, w: E.Worker, x: ExecStep)
    requires ConfigOk(db, w) && ExecEnabled(m, db, w, x)
    ensures ConfigOk(db, ExecApply(m, db, me, w, x).w)
  {
  }

  lemma ConfigStep(m: Mode, s: Sys, l: Label)
    requires Inv(s) && ConfigInv(s) && Enabled(m, s, l)
    ensures ConfigInv(Apply(m, s, l))
  {
    hide Sound, Promises, Grows, ConfigOk, ExecOk, RecOk, Tracked, EnvApply, ExecApply, RecApply, EnvEnabled, ExecEnabled, RecEnabled;
    var s' := Apply(m, s, l);
    Step(m, s, l);
    if l.Exec? {
      ConfigExec(m, s.db, l.w, s.execs[l.w], l.x);
    }
    forall w | w in s'.execs ensures ConfigOk(s'.db, s'.execs[w]) {
      ConfigStable(s.db, s'.db, s'.execs[w]);
    }
  }

  lemma {:induction false} ConfigAlways(m: Mode, ss: seq<Sys>, ls: seq<Label>, i: nat)
    requires Trace(m, ss, ls) && i < |ss|
    ensures Inv(ss[i]) && ConfigInv(ss[i])
  {
    hide Inv, Apply, Enabled;
    Always(m, ss, ls, i);
    if i > 0 {
      hide ConfigInv;
      ConfigAlways(m, ss, ls, i - 1);
      ConfigStep(m, ss[i - 1], ls[i - 1]);
    }
  }

  /** The bank is called only under a valid payment configuration. */
  lemma CalledWithValidConfig(m: Mode, ss: seq<Sys>, ls: seq<Label>, i: nat)
    requires Trace(m, ss, ls) && i < |ls| && ls[i].Exec? && ls[i].x.Call?
    ensures var db, j := ss[i].db, ss[i].execs[ls[i].w].phase.ticket.job;
      j in db.jobs && db.jobs[j].sub in db.subs && db.subs[db.jobs[j].sub].configOk
  {
    hide Sound, Apply, Tracked;
    ConfigAlways(m, ss, ls, i);
    assert ExecOk(ss[i].db, ls[i].w, ss[i].execs[ls[i].w]) && ConfigOk(ss[i].db, ss[i].execs[ls[i].w]);
  }

  /** A run that is loaded under an invalid configuration is finished, if it ever is, by the dead-letter transaction. */
  lemma InvalidConfigIsBuried(m: Mode, ss: seq<Sys>, ls: seq<Label>, i: nat, k: nat)
    requires Trace(m, ss, ls) && i < k < |ls| && ls[i].Exec? && ls[i].x.Load? && ls[k].Exec? && Finishes(ls[k].x)
    requires ss[k].execs[ls[k].w].phase.Busy? && ss[k].execs[ls[k].w].phase.ticket.run == ss[i].execs[ls[i].w].phase.ticket.run
    requires var x := ss[i].execs[ls[i].w].phase.ticket.sub; x in ss[i].db.subs && !ss[i].db.subs[x].configOk
    ensures ls[k].x.Bury? && ls[k].w == ls[i].w
  {
    hide Inv, Apply, Enabled;
    Always(m, ss, ls, i);
    LoadBuries(m, ss[i], ls[i]);
    DecisionHolds(m, ss, ls, i + 1, k, ls[i].w, ss[i + 1].execs[ls[i].w].phase.ticket, E.Burying);
  }

  lemma LoadBuries(m: Mode, s: Sys, l: Label)
    requires Inv(s) && Enabled(m, s, l) && l.Exec? && l.x.Load?
    requires var x := s.execs[l.w].phase.ticket.sub; x in s.db.subs && !s.db.subs[x].configOk
    ensures l.w in Apply(m, s, l).execs
    ensures var p := Apply(m, s, l).execs[l.w].phase; p.Busy? && p.stage == E.Burying && p.ticket.run == s.execs[l.w].phase.ticket.run
  {
    hide Sound, Tracked;
    assert ExecOk(s.db, l.w, s.execs[l.w]);
  }
}
