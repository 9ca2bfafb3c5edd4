/** What an executor's finishing transaction finds when leases do not bind. */
module Zombies {
  import opened Domain
  import opened Tables
  import opened Protocol
  import opened Frames
  import opened Safety
  import opened Payments
  import opened Leases
  import E = Executor
  import R = Recovery
  import M = StateMachine

  /** Until recovery takes it, a held run is RUNNING. */
  ghost predicate HeldRunning(db: Db, w: E.Worker) {
    w.phase.Busy? && w.phase.ticket.run in db.runs && w.phase.ticket.run !in db.h.reaped ==>
      db.runs[w.phase.ticket.run].status == Running
  }

  ghost predicate HeldInv(s: Sys) { forall w :: w in s.execs ==> HeldRunning(s.db, s.execs[w]) }

  lemma HeldStable(m: Mode, db: Db, db': Db, a: Actor, me: WorkerId, w: E.Worker)
    requires Sound(db) && Sound(db') && ExecOk(db, me, w) && HeldRunning(db, w)
    requires Guarantee(db, db', a) && Touches(m, db, db', a) && a != TheExec(me)
    ensures HeldRunning(db', w)
  {
    hide RunIndex, NoGaps, LiveTop, References, JobIndex, PoliciesOk;
  }

  lemma HeldStep(m: Mode, db: Db, me: WorkerId, w: E.Worker, x: ExecStep)
    requires ExecOk(db, me, w) && HeldRunning(db, w) && ExecEnabled(m, db, w, x)
    ensures var a := ExecApply(m, db, me, w, x); HeldRunning(a.db, a.w)
  {
  }

  lemma HeldAllStep(m: Mode, s: Sys, l: Label)
    requires Inv(s) && HeldInv(s) && Enabled(m, s, l)
    ensures HeldInv(Apply(m, s, l))
  {
    hide Sound, Guarantee, Touches, HeldRunning, ExecOk, RecOk, EnvApply, ExecApply, RecApply, EnvEnabled, ExecEnabled, RecEnabled, Tracked;
    var s' := Apply(m, s, l);
    Step(m, s, l);
    StepTouches(m, s, l);
    if l.Exec? {
      HeldStep(m, s.db, l.w, s.execs[l.w], l.x);
    }
    forall w | w in s.execs && ActorOf(l) != TheExec(w) ensures HeldRunning(s'.db, s.execs[w]) {
      HeldStable(m, s.db, s'.db, ActorOf(l), w, s.execs[w]);
    }
  }

  lemma {:induction false} HeldAlways(m: Mode, ss: seq<Sys>, ls: seq<Label>, i: nat)
    requires Trace(m, ss, ls) && i < |ss|
    ensures Inv(ss[i]) && HeldInv(ss[i])
  {
    hide Inv, Apply, Enabled;
    Always(m, ss, ls, i);
    if i > 0 {
      hide HeldInv;
      HeldAlways(m, ss, ls, i - 1);
      HeldAllStep(m, ss[i - 1], ls[i - 1]);
    }
  }

  /** The status a finishing transaction writes. */
  function Written(x: ExecStep): RunStatus {
    match x
    case Persist => Succeeded
    case Bury => Dead
    case _ => Failed
  }

  /** With or without leases: a finishing transaction finds its run RUNNING exactly when recovery has not
      taken the run. Its write is one the table of transitions allows exactly then, or when it turns FAILED into
      DEAD; any other write of an executor that outlived its lease overwrites a row it should not. */
  lemma FinishFindsRunningIff(m: Mode, ss: seq<Sys>, ls: seq<Label>, i: nat)
    requires Trace(m, ss, ls) && i < |ls| && ls[i].Exec? && Finishes(ls[i].x)
    ensures var db, r, x := ss[i].db, ss[i].execs[ls[i].w].phase.ticket.run, ls[i].x;
      && r in db.runs && r in ss[i + 1].db.runs && ss[i + 1].db.runs[r].status == Written(x)
      && (db.runs[r].status == Running <==> r !in db.h.reaped)
      && (Written(x) in M.Targets(db.runs[r].status) <==>
            r !in db.h.reaped || (db.runs[r].status == Failed && x.Bury?))
  {
    hide Inv, HeldInv, PayInv, Apply;
    HeldAlways(m, ss, ls, i);
    PayAlways(m, ss, ls, i);
    FoundIn(m, ss[i], ls[i]);
    WritesIt(m, ss[i], ls[i]);
  }

  lemma FoundIn(m: Mode, s: Sys, l: Label)
    requires Inv(s) && HeldInv(s) && Enabled(m, s, l) && l.Exec? && Finishes(l.x)
    ensures s.execs[l.w].phase.Busy?
    ensures var r := s.execs[l.w].phase.ticket.run;
      && r in s.db.runs
      && (s.db.runs[r].status == Running <==> r !in s.db.h.reaped)
      && (r in s.db.h.reaped <==> !Live(s.db.runs[r]))
  {
    hide RunIndex, NoGaps, LiveTop, References, JobIndex, ClaimsOk, PoliciesOk, Tracked;
    assert HeldRunning(s.db, s.execs[l.w]);
  }

  lemma WritesIt(m: Mode, s: Sys, l: Label)
    requires Inv(s) && PayInv(s) && Enabled(m, s, l) && l.Exec? && Finishes(l.x) && s.execs[l.w].phase.Busy?
    ensures var r, db' := s.execs[l.w].phase.ticket.run, Apply(m, s, l).db;
      r in db'.runs && db'.runs[r].status == Written(l.x)
  {
    hide Sound, Booked, Tracked;
    assert ExecBooked(s.db, s.execs[l.w]) && ExecOk(s.db, l.w, s.execs[l.w]);
  }

  // ---------- every status write of every worker ----------

  /** The executor's step writes status `b` to the existing row `r`. */
  predicate ExecWrites(db: Db, me: WorkerId, w: E.Worker, x: ExecStep, r: RunId, b: RunStatus) {
    || (x.ClaimNext? && w.phase.Idle? && w.batch != [] && w.batch[0] == r && E.ClaimNext(db, me, w).w.phase.Busy? && b == Running)
    || (Finishes(x) && w.phase.Busy? && w.phase.ticket.run == r && b == Written(x))
  }

  /** The recovery worker's step writes status `b` to the existing row `r`: the compare-and-set, the dead letter of
      its second transaction, and the cancellation of a job's PENDING runs. */
  predicate RecWrites(db: Db, p: R.Phase, y: RecStep, r: RunId, b: RunStatus) {
    || (y.Reap? && p.Reaping? && p.ids != [] && p.ids[0] == r && R.Stuck(db, r, p.asOf) && b == Failed)
    || (y.Resolve? && Exhausts(p, r) && b == Dead)
    || (y.OrphanEval? && p.Judging? && p.jobs != [] && p.jobs[0] in db.jobs && R.Judge(db, db.jobs[p.jobs[0]].deps).Orphaned?
        && r in db.runs && db.runs[r].job == p.jobs[0] && db.runs[r].status == Pending && b == Failed)
  }

  /** The worker holds the run, and the policy is exhausted. */
  predicate Exhausts(p: R.Phase, r: RunId) {
    p.Holding? && p.stub.run == r && p.stub.sub.Some? && p.stub.policy.IsExhausted(p.stub.attempt)
  }

  predicate Writes(s: Sys, l: Label, r: RunId, b: RunStatus) {
    match l
    case Env(_) => false
    case Exec(w, x) => w in s.execs && ExecWrites(s.db, w, s.execs[w], x, r, b)
    case Rec(w, y) => w in s.recs && RecWrites(s.db, s.recs[w], y, r, b)
  }

  lemma ClaimWrites(db: Db, me: WorkerId, w: E.Worker, r: RunId, b: RunStatus)
    requires w.phase.Idle? && w.batch != [] && r in db.runs
    ensures var runs := E.ClaimNext(db, me, w).db.runs;
      r in runs && (ExecWrites(db, me, w, ClaimNext, r, b) ==> runs[r].status == b) && (runs[r].status != db.runs[r].status ==> ExecWrites(db, me, w, ClaimNext, r, runs[r].status))
  {
  }

  lemma ExecWriteIs(m: Mode, s: Sys, w: WorkerId, x: ExecStep, r: RunId, b: RunStatus)
    requires Inv(s) && PayInv(s) && Enabled(m, s, Exec(w, x)) && r in s.db.runs
    ensures var runs := Apply(m, s, Exec(w, x)).db.runs;
      r in runs && (ExecWrites(s.db, w, s.execs[w], x, r, b) ==> runs[r].status == b) && (runs[r].status != s.db.runs[r].status ==> ExecWrites(s.db, w, s.execs[w], x, r, runs[r].status))
  {
    hide Sound, PayInv, Tracked, ExecOk, RecOk, E.ClaimNext, ExecApply;
    var e := s.execs[w];
    Step(m, s, Exec(w, x));
    if x.ClaimNext? {
      ClaimWrites(s.db, w, e, r, b);
      ClaimIs(m, s.db, w, e);
    } else if Finishes(x) {
      HolderOwns(m, s.db, w, e, x);
      WritesIt(m, s, Exec(w, x));
      FinishOneRow(m, s.db, w, e, x);
    } else {
      ExecFrames(m, s.db, w, e, x);
    }
  }

  lemma ReapWrites(db: Db, me: WorkerId, p: R.Phase, r: RunId, b: RunStatus)
    requires p.Reaping? && p.ids != [] && r in db.runs
    ensures var runs := R.ReapNext(db, me, p).db.runs;
      r in runs && (RecWrites(db, p, Reap, r, b) ==> runs[r].status == b) && (runs[r].status != db.runs[r].status ==> RecWrites(db, p, Reap, r, runs[r].status))
  {
  }

  lemma OrphanWrites(db: Db, p: R.Phase, r: RunId, b: RunStatus)
    requires p.Judging? && p.jobs != [] && r in db.runs
    ensures var runs := R.JudgeNext(db, p).db.runs;
      r in runs && (RecWrites(db, p, OrphanEval, r, b) ==> runs[r].status == b) && (runs[r].status != db.runs[r].status ==> RecWrites(db, p, OrphanEval, r, runs[r].status))
  {
    hide R.Judge;
  }

  lemma DlqStatus(db: Db, q: RunId, job: JobId, attempt: Attempt, sub: SubId, keepWorker: bool, r: RunId)
    requires q in db.runs && r in db.runs
    ensures var runs := MoveToDlq(db, q, job, attempt, sub, keepWorker).runs;
      r in runs && runs[r].status == if r == q then Dead else db.runs[r].status
  {
  }

  lemma InsertStatus(db: Db, id: RunId, job: JobId, attempt: Attempt, after: Option<Time>, r: RunId)
    requires id !in db.runs && r in db.runs
    ensures r in InsertRun(db, id, job, attempt, after).runs && InsertRun(db, id, job, attempt, after).runs[r] == db.runs[r]
  {
  }

  lemma FollowUpWrites(db: Db, me: WorkerId, p: R.Phase, id: RunId, r: RunId, b: RunStatus)
    requires RecOk(db, me, p) && p.Holding? && id !in db.runs && r in db.runs
    ensures var runs := R.FollowUp(db, p, id).db.runs;
      r in runs && (RecWrites(db, p, Resolve(id), r, b) ==> runs[r].status == b) && (runs[r].status != db.runs[r].status ==> RecWrites(db, p, Resolve(id), r, runs[r].status))
  {
    hide MoveToDlq, InsertRun;
    var s := p.stub;
    var db1 := db.(h := db.h.(resolved := db.h.resolved + {s.run}));
    DlqStatus(db1, s.run, s.job, s.attempt, s.sub.value, false, r);
    InsertStatus(db1, id, s.job, s.attempt + 1, None, r);
  }

  lemma RecWriteIs(db: Db, me: WorkerId, p: R.Phase, y: RecStep, r: RunId, b: RunStatus)
    requires RecOk(db, me, p) && RecEnabled(db, p, y) && r in db.runs
    ensures var runs := RecApply(db, me, p, y).db.runs;
      r in runs && (RecWrites(db, p, y, r, b) ==> runs[r].status == b) && (runs[r].status != db.runs[r].status ==> RecWrites(db, p, y, r, runs[r].status))
  {
    hide R.FollowUp, R.JudgeNext, R.ReapNext, R.Judge;
    match y
    case Reap => ReapWrites(db, me, p, r, b);
    case Resolve(id) => FollowUpWrites(db, me, p, id, r, b);
    case OrphanEval => OrphanWrites(db, p, r, b);
    case _ => RecFrames(db, me, p, y);
  }

  lemma EnvLeavesRows(m: Mode, db: Db, e: EnvStep, r: RunId)
    requires EnvEnabled(m, db, e) && r in db.runs
    ensures r in EnvApply(db, e).runs && EnvApply(db, e).runs[r] == db.runs[r]
  {
  }

  /** In every mode: the writes are those of `Writes`, each row's at most one status a step. */
  lemma WritesAreAll(m: Mode, ss: seq<Sys>, ls: seq<Label>, i: nat, r: RunId, b: RunStatus)
    requires Trace(m, ss, ls) && i < |ls| && r in ss[i].db.runs
    ensures r in ss[i + 1].db.runs
    ensures var a, b' := ss[i].db.runs[r].status, ss[i + 1].db.runs[r].status;
      (Writes(ss[i], ls[i], r, b) ==> b' == b) && (b' != a ==> Writes(ss[i], ls[i], r, b'))
  {
    hide PayInv, Sound, ExecOk, Tracked, EnvApply, ExecApply, RecApply, EnvEnabled, ExecEnabled, RecEnabled, ExecWrites, RecWrites;
    PayAlways(m, ss, ls, i);
    match ls[i]
    case Env(e) => EnvLeavesRows(m, ss[i].db, e, r);
    case Exec(w, x) => ExecWriteIs(m, ss[i], w, x, r, b);
    case Rec(w, y) => RecWriteIs(ss[i].db, w, ss[i].recs[w], y, r, b);
  }

  /** (a) An executor finishes a run that recovery has taken, other than by turning FAILED into DEAD. */
  predicate ZombieWrites(s: Sys, l: Label, r: RunId, b: RunStatus)
    requires r in s.db.runs
  {
    && l.Exec? && l.w in s.execs && Finishes(l.x) && s.execs[l.w].phase.Busy? && s.execs[l.w].phase.ticket.run == r
    && b == Written(l.x)
    && r in s.db.h.reaped && !(s.db.runs[r].status == Failed && b == Dead)
  }

  /** (b) Recovery's second transaction buries a run that is no longer FAILED: the executor it was taken from has
      finished it in between. */
  predicate BuriesFinished(s: Sys, l: Label, r: RunId, b: RunStatus)
    requires r in s.db.runs
  {
    l.Rec? && l.w in s.recs && l.y.Resolve? && Exhausts(s.recs[l.w], r) && b == Dead && s.db.runs[r].status != Failed
  }

  lemma ExecForbidden(m: Mode, s: Sys, l: Label, r: RunId, b: RunStatus)
    requires Inv(s) && HeldInv(s) && Enabled(m, s, l) && l.Exec? && r in s.db.runs
    ensures (ExecWrites(s.db, l.w, s.execs[l.w], l.x, r, b) && b !in M.Targets(s.db.runs[r].status)) <==> ZombieWrites(s, l, r, b)
  {
    hide Inv, HeldInv, ExecApply;
    if l.x.ClaimNext? {
      ClaimsPending(s.db, l.w, s.execs[l.w]);
    } else if Finishes(l.x) {
      FoundIn(m, s, l);
    }
  }

  lemma ClaimsPending(db: Db, me: WorkerId, w: E.Worker)
    requires w.phase.Idle? && w.batch != []
    ensures E.ClaimNext(db, me, w).w.phase.Busy? ==> w.batch[0] in db.runs && db.runs[w.batch[0]].status == Pending
  {
  }

  lemma RecForbidden(db: Db, me: WorkerId, p: R.Phase, y: RecStep, r: RunId, b: RunStatus)
    requires Sound(db) && RecOk(db, me, p) && RecEnabled(db, p, y) && r in db.runs
    ensures (RecWrites(db, p, y, r, b) && b !in M.Targets(db.runs[r].status)) <==>
      (y.Resolve? && Exhausts(p, r) && b == Dead && db.runs[r].status != Failed)
  {
    hide Sound, R.Judge;
    if p.Holding? {
      ReapedRun(db, p.stub.run);
    }
  }

  /** In every mode and every reachable state, over every step of every worker: a step writes a status that the table forbids
      if and only if an executor finishes a run that recovery has taken, other than from FAILED to DEAD, or recovery's
      second transaction buries a run that the executor has finished in between. */
  lemma ForbiddenWriteIff(m: Mode, ss: seq<Sys>, ls: seq<Label>, i: nat, r: RunId, b: RunStatus)
    requires Trace(m, ss, ls) && i < |ls| && r in ss[i].db.runs
    ensures (Writes(ss[i], ls[i], r, b) && b !in M.Targets(ss[i].db.runs[r].status)) <==>
      (ZombieWrites(ss[i], ls[i], r, b) || BuriesFinished(ss[i], ls[i], r, b))
  {
    hide HeldInv, Sound, Tracked, ExecOk, RecOk, EnvApply, ExecApply, RecApply, EnvEnabled, ExecEnabled, RecEnabled, ExecWrites, RecWrites;
    HeldAlways(m, ss, ls, i);
    match ls[i]
    case Env(_) =>
    case Exec(w, x) => ExecForbidden(m, ss[i], ls[i], r, b);
    case Rec(w, y) => RecForbidden(ss[i].db, w, ss[i].recs[w], y, r, b);
  }

  /** Hence a row that is SUCCEEDED or DEAD changes its status exactly by such a write of another one. */
  lemma TerminalOverwrittenIff(m: Mode, ss: seq<Sys>, ls: seq<Label>, i: nat, r: RunId)
    requires Trace(m, ss, ls) && i < |ls| && r in ss[i].db.runs && ss[i].db.runs[r].status in {Succeeded, Dead}
    ensures r in ss[i + 1].db.runs
    ensures ss[i + 1].db.runs[r].status != ss[i].db.runs[r].status <==>
      exists b: RunStatus :: b != ss[i].db.runs[r].status && (ZombieWrites(ss[i], ls[i], r, b) || BuriesFinished(ss[i], ls[i], r, b))
  {
    hide Apply, Enabled, Writes, ZombieWrites, BuriesFinished;
    var a := ss[i].db.runs[r].status;
    WritesAreAll(m, ss, ls, i, r, a);
    var b' := ss[i + 1].db.runs[r].status;
    ForbiddenWriteIff(m, ss, ls, i, r, b');
    if b: RunStatus :| b != a && (ZombieWrites(ss[i], ls[i], r, b) || BuriesFinished(ss[i], ls[i], r, b)) {
      ForbiddenWriteIff(m, ss, ls, i, r, b);
      WritesAreAll(m, ss, ls, i, r, b);
    }
  }
}
