/** The one way a job is lost: a recovery worker that stops between its two transactions. */
module Stranding {
  import opened Domain
  import opened Tables
  import opened Protocol
  import opened Frames
  import opened Safety
  import opened Payments
  import opened Leases
  import opened Zombies
  import opened Outcome
  import opened Refinement
  import opened JobOutcome
  import opened DependencyCheck
  import opened Dag
  import T = Settlement
  import J = JobWrites
  import E = Executor
  import R = Recovery

  /** The run is left behind for good: FAILED, the last attempt of its job, its follow-up never to come. */
  ghost predicate LeftBehind(db: Db, r: RunId) {
    r in db.h.stranded && r in db.runs && db.runs[r].status == Failed && IsTop(db, r)
  }

  /** A run is stranded exactly by its recovery worker stopping while it holds the run. */
  lemma StrandedByStoppingIff(m: Mode, s: Sys, l: Label, r: RunId)
    requires Inv(s) && Enabled(m, s, l) && r !in s.db.h.stranded
    ensures r in Apply(m, s, l).db.h.stranded <==>
      l.Rec? && l.y.GiveUp? && s.recs[l.w].Holding? && s.recs[l.w].stub.run == r
  {
    hide Sound, Tracked, EnvApply, ExecApply, RecApply, EnvEnabled, ExecEnabled, RecEnabled, ExecOk, RecOk;
    match l
    case Env(e) => EnvStrands(m, s.db, e);
    case Exec(w, x) => ExecStrands(m, s.db, w, s.execs[w], x);
    case Rec(w, y) => RecStrands(s.db, w, s.recs[w], y);
  }

  lemma EnvStrands(m: Mode, db: Db, e: EnvStep)
    requires EnvEnabled(m, db, e)
    ensures EnvApply(db, e).h.stranded == db.h.stranded
  {
    EnvFrames(m, db, e);
    hide EnvApply;
  }

  lemma ExecStrands(m: Mode, db: Db, me: WorkerId, w: E.Worker, x: ExecStep)
    requires ExecEnabled(m, db, w, x)
    ensures ExecApply(m, db, me, w, x).db.h.stranded == db.h.stranded
  {
    ExecFrames(m, db, me, w, x);
    hide ExecApply;
  }

  lemma RecStrands(db: Db, me: WorkerId, p: R.Phase, y: RecStep)
    requires RecOk(db, me, p) && RecEnabled(db, p, y)
    ensures RecApply(db, me, p, y).db.h.stranded ==
      if y.GiveUp? && p.Holding? then db.h.stranded + {p.stub.run} else db.h.stranded
  {
    hide R.Judge;
  }

  lemma StrandedIsReaped(db: Db, r: RunId)
    requires Sound(db) && r in db.h.stranded
    ensures r in db.runs && r in db.h.reaped && r !in db.h.resolved
  {
    hide RunIndex, NoGaps, LiveTop, References, JobIndex, ClaimsOk, PoliciesOk;
  }

  lemma StrandedIsLeftBehind(s: Sys, r: RunId)
    requires Leased(s) && r in s.db.h.stranded
    ensures LeftBehind(s.db, r)
  {
    hide Sound, PayInv, LeaseInv, EarlierFailed, PaidRows, DeadRows;
    StrandedIsReaped(s.db, r);
  }

  /** When leases bind, a stranded run stays FAILED and the last attempt of its job for ever: no later attempt,
      no dead letter, no payment on record, and the job is never DONE. */
  lemma StrandedForever(m: Mode, ss: seq<Sys>, ls: seq<Label>, i: nat, k: nat, r: RunId)
    requires m.leases && Trace(m, ss, ls) && i <= k < |ss| && r in ss[i].db.h.stranded
    ensures var db := ss[k].db;
      && LeftBehind(db, r)
      && DeadRuns(db, db.runs[r].job) == {} && KeysOf(db, db.runs[r].job) == {}
      && (db.runs[r].job in db.jobs ==> db.jobs[db.runs[r].job].status != Done)
  {
    hide Apply, Enabled, Grows, Leased, LeftBehind, DonePaid;
    StrandedStays(m, ss, ls, i, k, r);
    LeasedAlways(m, ss, ls, k);
    DonePaidAlways(m, ss, ls, k);
    StrandedIsLeftBehind(ss[k], r);
    NothingElse(ss[k], r);
    NothingPaid(ss[k], r);
  }

  lemma NothingPaid(s: Sys, r: RunId)
    requires Leased(s) && LeftBehind(s.db, r) && DonePaid(s.db) && SucceededRuns(s.db, s.db.runs[r].job) == {}
    ensures KeysOf(s.db, s.db.runs[r].job) == {}
    ensures s.db.runs[r].job in s.db.jobs ==> s.db.jobs[s.db.runs[r].job].status != Done
  {
    hide Inv, LeaseInv, Tidy, Booked;
    var j := s.db.runs[r].job;
    KeysAreSuccesses(s.db, j);
    if KeysOf(s.db, j) != {} {
      var k := SomeElement(KeysOf(s.db, j));
    }
    KeyedShows(s.db, j);
  }

  lemma KeyedShows(db: Db, j: JobId)
    ensures HasKey(db, j) ==> KeysOf(db, j) != {}
  {
    if HasKey(db, j) {
      var q :| q in db.runs && db.runs[q].job == j && ForRun(q, db.runs[q].attempt) in db.keys;
      assert ForRun(q, db.runs[q].attempt) in KeysOf(db, j);
    }
  }

  lemma StrandedStays(m: Mode, ss: seq<Sys>, ls: seq<Label>, i: nat, k: nat, r: RunId)
    requires Trace(m, ss, ls) && i <= k < |ss| && r in ss[i].db.h.stranded
    ensures r in ss[k].db.h.stranded
  {
    GrowsAlong(m, ss, ls, i, k);
    hide Apply, Enabled;
  }

  lemma NothingElse(s: Sys, r: RunId)
    requires Leased(s) && LeftBehind(s.db, r)
    ensures DeadRuns(s.db, s.db.runs[r].job) == {} && SucceededRuns(s.db, s.db.runs[r].job) == {}
  {
    hide Sound, PayInv, LeaseInv, Tidy;
    var j := s.db.runs[r].job;
    forall q | q in s.db.runs && s.db.runs[q].job == j && s.db.runs[q].status in {Dead, Succeeded} ensures q == r {
      ClosedIsTop(s.db, q);
      OneTop(s.db, q, r);
    }
    if DeadRuns(s.db, j) != {} {
      var q := SomeElement(DeadRuns(s.db, j));
    }
    if SucceededRuns(s.db, j) != {} {
      var q := SomeElement(SucceededRuns(s.db, j));
    }
  }

  // ---------- what is lost, read off the tables and the workers ----------

  /** The job is not DONE or CANCELLED, its last run is FAILED, and no recovery worker holds that run. */
  ghost predicate Lost(s: Sys, r: RunId) {
    && r in s.db.runs && IsTop(s.db, r) && s.db.runs[r].status == Failed
    && s.db.runs[r].job in s.db.jobs && !T.Settled(s.db.jobs[s.db.runs[r].job])
    && forall w :: w in s.recs ==> !Holds(s.recs[w], r)
  }

  predicate Holds(p: R.Phase, r: RunId) { p.Holding? && p.stub.run == r }

  /** A recovered run that has not been followed up is FAILED until the executor it was taken from finishes it. */
  predicate HeldFailed(db: Db, w: E.Worker) {
    w.phase.Busy? && w.phase.ticket.run in db.runs && w.phase.ticket.run in db.h.reaped && w.phase.ticket.run !in db.h.resolved ==>
      db.runs[w.phase.ticket.run].status == Failed
  }

  ghost predicate FailedInv(s: Sys) { forall w :: w in s.execs ==> HeldFailed(s.db, s.execs[w]) }

  /** Every row's status is as it was, except of runs that are followed up or were taken just now. */
  ghost predicate SettledRowsKept(db: Db, db': Db) {
    && (forall r :: r in db.runs && !Live(db.runs[r]) && r !in db'.h.resolved ==> r in db'.runs && db'.runs[r].status == db.runs[r].status)
    && (forall r :: r in db'.h.reaped && r !in db.h.reaped && r in db.runs ==> r in db'.runs && db'.runs[r].status == Failed)
  }

  lemma DlqKeepsRows(db: Db, q: RunId, job: JobId, attempt: Attempt, sub: SubId)
    ensures var db' := MoveToDlq(db, q, job, attempt, sub, false);
      forall r :: r in db.runs && r != q ==> r in db'.runs && db'.runs[r] == db.runs[r]
  {
  }

  lemma InsertKeepsRows(db: Db, id: RunId, job: JobId, attempt: Attempt)
    requires id !in db.runs
    ensures var db' := InsertRun(db, id, job, attempt, None);
      forall r :: r in db.runs ==> r in db'.runs && db'.runs[r] == db.runs[r]
  {
  }

  lemma FollowUpKeepsRows(db: Db, me: WorkerId, p: R.Phase, id: RunId)
    requires RecOk(db, me, p) && p.Holding? && id !in db.runs
    ensures SettledRowsKept(db, R.FollowUp(db, p, id).db)
  {
    hide MoveToDlq, InsertRun;
    var t := p.stub;
    var db1 := db.(h := db.h.(resolved := db.h.resolved + {t.run}));
    FollowUpFrame(db, p, id);
    DlqKeepsRows(db1, t.run, t.job, t.attempt, t.sub.value);
    DlqFrame(db1, t.run, t.job, t.attempt, t.sub.value, false);
    InsertKeepsRows(db1, id, t.job, t.attempt + 1);
    InsertFrame(db1, id, t.job, t.attempt + 1, None);
  }

  lemma ReapKeepsRows(db: Db, me: WorkerId, p: R.Phase)
    requires p.Reaping? && p.ids != []
    ensures SettledRowsKept(db, R.ReapNext(db, me, p).db)
  {
  }

  lemma OrphanKeepsRows(db: Db, p: R.Phase)
    requires p.Judging? && p.jobs != []
    ensures SettledRowsKept(db, R.JudgeNext(db, p).db)
  {
    hide R.Judge;
  }

  lemma RecKeepsRows(db: Db, me: WorkerId, p: R.Phase, y: RecStep)
    requires RecOk(db, me, p) && RecEnabled(db, p, y)
    ensures SettledRowsKept(db, RecApply(db, me, p, y).db)
  {
    hide R.FollowUp, R.JudgeNext, R.ReapNext;
    match y
    case Reap => ReapKeepsRows(db, me, p);
    case Resolve(id) => FollowUpKeepsRows(db, me, p, id);
    case OrphanEval => OrphanKeepsRows(db, p);
    case _ => RecFrames(db, me, p, y);
  }

  lemma HeldFailedByRec(db: Db, db': Db, me: WorkerId, w: E.Worker)
    requires Sound(db) && ExecOk(db, me, w) && HeldFailed(db, w) && SettledRowsKept(db, db') && Grows(db, db')
    ensures HeldFailed(db', w)
  {
    hide RunIndex, NoGaps, LiveTop, References, JobIndex, ClaimsOk, PoliciesOk, RunsGrow, JobsGrow, SubsGrow, Extends;
  }

  lemma HeldFailedByExec(m: Mode, db: Db, db': Db, a: Actor, me: WorkerId, w: E.Worker)
    requires Sound(db) && ExecOk(db, me, w) && HeldFailed(db, w) && Touches(m, db, db', a) && Grows(db, db')
    requires !a.TheRec? && a != TheExec(me) && db'.h.reaped == db.h.reaped && db'.h.resolved == db.h.resolved
    ensures HeldFailed(db', w)
  {
    hide RunIndex, NoGaps, LiveTop, References, JobIndex, ClaimsOk, PoliciesOk, OwnNext;
  }

  lemma HeldFailedStep(m: Mode, db: Db, me: WorkerId, w: E.Worker, x: ExecStep)
    requires Sound(db) && HeldFailed(db, w) && ExecOk(db, me, w) && ExecEnabled(m, db, w, x)
    ensures var a := ExecApply(m, db, me, w, x); HeldFailed(a.db, a.w)
  {
    hide RunIndex, NoGaps, LiveTop, References, JobIndex, PoliciesOk;
    ExecFrames(m, db, me, w, x);
  }

  lemma FailedByRec(m: Mode, s: Sys, w: WorkerId, y: RecStep)
    requires Inv(s) && FailedInv(s) && Enabled(m, s, Rec(w, y)) && Grows(s.db, Apply(m, s, Rec(w, y)).db)
    ensures FailedInv(Apply(m, s, Rec(w, y)))
  {
    hide Sound, Grows, SettledRowsKept, HeldFailed, ExecOk, RecOk, RecApply, RecEnabled, Tracked;
    RecKeepsRows(s.db, w, s.recs[w], y);
    forall k | k in s.execs ensures HeldFailed(Apply(m, s, Rec(w, y)).db, s.execs[k]) {
      HeldFailedByRec(s.db, Apply(m, s, Rec(w, y)).db, k, s.execs[k]);
    }
  }

  lemma FailedByOthers(m: Mode, s: Sys, l: Label)
    requires Inv(s) && FailedInv(s) && Enabled(m, s, l) && !l.Rec?
    requires Grows(s.db, Apply(m, s, l).db) && Touches(m, s.db, Apply(m, s, l).db, ActorOf(l))
    ensures FailedInv(Apply(m, s, l))
  {
    hide Sound, Grows, Touches, HeldFailed, ExecOk, RecOk, EnvApply, ExecApply, EnvEnabled, ExecEnabled, Tracked;
    var s' := Apply(m, s, l);
    SameRecovery(m, s, l);
    if l.Exec? {
      HeldFailedStep(m, s.db, l.w, s.execs[l.w], l.x);
    }
    forall w | w in s.execs && ActorOf(l) != TheExec(w) ensures HeldFailed(s'.db, s.execs[w]) {
      HeldFailedByExec(m, s.db, s'.db, ActorOf(l), w, s.execs[w]);
    }
  }

  lemma ExecSameRecovery(m: Mode, db: Db, me: WorkerId, w: E.Worker, x: ExecStep)
    requires ExecEnabled(m, db, w, x)
    ensures var h := ExecApply(m, db, me, w, x).db.h; h.reaped == db.h.reaped && h.resolved == db.h.resolved
  {
    ExecFrames(m, db, me, w, x);
    hide ExecApply, ExecEnabled;
  }

  lemma EnvSameRecovery(m: Mode, db: Db, e: EnvStep)
    requires EnvEnabled(m, db, e)
    ensures EnvApply(db, e).h.reaped == db.h.reaped && EnvApply(db, e).h.resolved == db.h.resolved
  {
    EnvFrames(m, db, e);
    hide EnvApply;
  }

  lemma SameRecovery(m: Mode, s: Sys, l: Label)
    requires Enabled(m, s, l) && !l.Rec?
    ensures var h := Apply(m, s, l).db.h; h.reaped == s.db.h.reaped && h.resolved == s.db.h.resolved
  {
    hide EnvApply, ExecApply, EnvEnabled, ExecEnabled;
    match l
    case Env(e) => EnvSameRecovery(m, s.db, e);
    case Exec(w, x) => ExecSameRecovery(m, s.db, w, s.execs[w], x);
  }

  lemma FailedInvStep(m: Mode, s: Sys, l: Label)
    requires Inv(s) && FailedInv(s) && Enabled(m, s, l)
    ensures FailedInv(Apply(m, s, l))
  {
    hide Inv, FailedInv, Enabled, Apply, Touches, Grows, Promises;
    Step(m, s, l);
    StepTouches(m, s, l);
    if l.Rec? {
      FailedByRec(m, s, l.w, l.y);
    } else {
      FailedByOthers(m, s, l);
    }
  }

  lemma {:induction false} FailedAlways(m: Mode, ss: seq<Sys>, ls: seq<Label>, i: nat)
    requires Trace(m, ss, ls) && i < |ss|
    ensures Inv(ss[i]) && FailedInv(ss[i])
  {
    hide Inv, Apply, Enabled;
    Always(m, ss, ls, i);
    if i > 0 {
      hide FailedInv;
      FailedAlways(m, ss, ls, i - 1);
      FailedInvStep(m, ss[i - 1], ls[i - 1]);
    }
  }

  /** The worker that holds the run stops, and leaves its job without a worker or a row that could carry it on. */
  ghost predicate StopsHolding(s: Sys, l: Label, r: RunId) {
    && l.Rec? && l.w in s.recs && l.y.GiveUp? && Holds(s.recs[l.w], r)
    && r in s.db.runs && IsTop(s.db, r) && s.db.runs[r].status == Failed
    && s.db.runs[r].job in s.db.jobs && !T.Settled(s.db.jobs[s.db.runs[r].job])
  }

  lemma StopLoses(m: Mode, s: Sys, l: Label, r: RunId)
    requires Inv(s) && Enabled(m, s, l) && StopsHolding(s, l, r)
    ensures Lost(Apply(m, s, l), r)
  {
    hide Sound, Tracked, ExecOk;
    var s' := Apply(m, s, l);
    forall w | w in s'.recs ensures !Holds(s'.recs[w], r) {
      assert RecOk(s.db, l.w, s.recs[l.w]) && RecOk(s.db, w, s.recs[w]);
    }
  }

  /** A run that was left behind before and is lost after a step was lost before it: nobody turns such a run FAILED. */
  lemma StrandedWasLost(m: Mode, s: Sys, l: Label, r: RunId)
    requires Inv(s) && FailedInv(s) && Enabled(m, s, l) && r in s.db.runs && r in s.db.h.stranded && Lost(Apply(m, s, l), r)
    requires Grows(s.db, Apply(m, s, l).db)
    requires Apply(m, s, l).db.runs[r].status != s.db.runs[r].status ==> Writes(s, l, r, Apply(m, s, l).db.runs[r].status)
    requires s.db.runs[r].job in s.db.jobs && T.Settled(s.db.jobs[s.db.runs[r].job]) ==>
      T.Settled(Apply(m, s, l).db.jobs[s.db.runs[r].job])
    ensures Lost(s, r)
  {
  }

  lemma StopChangesNothing(m: Mode, s: Sys, l: Label, r: RunId)
    requires Enabled(m, s, l) && l.Rec? && l.y.GiveUp? && Lost(Apply(m, s, l), r)
    ensures r in s.db.runs && IsTop(s.db, r) && s.db.runs[r].status == Failed
    ensures s.db.runs[r].job in s.db.jobs && !T.Settled(s.db.jobs[s.db.runs[r].job])
  {
  }

  /** In every mode a step loses a job, that is, leaves it open with a FAILED last run that no recovery worker holds, if and
      only if it is the recovery worker that holds that run stopping. Nothing here looks at the history. */
  lemma LostIff(m: Mode, ss: seq<Sys>, ls: seq<Label>, i: nat, r: RunId)
    requires Trace(m, ss, ls) && i < |ls| && r in ss[i].db.runs && !Lost(ss[i], r)
    ensures Lost(ss[i + 1], r) <==> StopsHolding(ss[i], ls[i], r)
  {
    hide Inv, PayInv, FailedInv, Apply, EnvEnabled, ExecEnabled, RecEnabled, Lost, StopsHolding, Writes, T.Kept, Grows;
    FailedAlways(m, ss, ls, i);
    PayAlways(m, ss, ls, i);
    if StopsHolding(ss[i], ls[i], r) {
      StopLoses(m, ss[i], ls[i], r);
    }
    if Lost(ss[i + 1], r) {
      Always(m, ss, ls, i + 1);
      T.KeptAlways(m, ss, ls, i + 1);
      LostIsStranded(ss[i + 1], r);
      if r in ss[i].db.h.stranded {
        GrowsAlong(m, ss, ls, i, i + 1);
        WritesAreAll(m, ss, ls, i, r, Failed);
        StaysSettled(m, ss, ls, i, ss[i].db.runs[r].job);
        StrandedWasLost(m, ss[i], ls[i], r);
      } else {
        StrandedByStoppingIff(m, ss[i], ls[i], r);
        StopChangesNothing(m, ss[i], ls[i], r);
        ThusStops(ss[i], ls[i], r);
      }
    }
  }

  lemma ThusStops(s: Sys, l: Label, r: RunId)
    requires l.Rec? && l.w in s.recs && l.y.GiveUp? && s.recs[l.w].Holding? && s.recs[l.w].stub.run == r
    requires r in s.db.runs && IsTop(s.db, r) && s.db.runs[r].status == Failed
    requires s.db.runs[r].job in s.db.jobs && !T.Settled(s.db.jobs[s.db.runs[r].job])
    ensures StopsHolding(s, l, r)
  {
  }

  lemma LostIsStranded(s: Sys, r: RunId)
    requires Inv(s) && T.Kept(s.db) && Lost(s, r)
    ensures r in s.db.h.stranded
  {
    hide Inv, T.Kept;
    T.NoJobLostIn(s, r);
  }

  lemma StaysSettled(m: Mode, ss: seq<Sys>, ls: seq<Label>, i: nat, j: JobId)
    requires Trace(m, ss, ls) && i < |ls|
    ensures j in ss[i].db.jobs && T.Settled(ss[i].db.jobs[j]) ==> j in ss[i + 1].db.jobs && T.Settled(ss[i + 1].db.jobs[j])
  {
    hide Apply, Enabled;
    if j in ss[i].db.jobs && T.Settled(ss[i].db.jobs[j]) {
      J.SettledOverwrittenIff(m, ss, ls, i, j);
    }
  }
}
