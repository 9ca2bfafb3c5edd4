/** A subscription's failure counter against the history of commits. */
module FailureCounter {
  import opened Domain
  import opened Tables
  import opened Protocol
  import opened Frames
  import opened Safety
  import opened Payments
  import E = Executor
  import R = Recovery
  import S = Scheduler

  /** How many dead-letter commits of `x` the log holds since its last success or resume. */
  ghost function Streak(log: seq<SubEvent>, x: SubId): nat {
    if log == [] then 0
    else
      var rest, last := log[..|log| - 1], log[|log| - 1];
      if last.sub != x then Streak(rest, x) else if last.Buried? then Streak(rest, x) + 1 else 0
  }

  ghost function BuriedSubs(log: seq<SubEvent>): seq<SubId> {
    if log == [] then []
    else
      var last := log[|log| - 1];
      BuriedSubs(log[..|log| - 1]) + (if last.Buried? then [last.sub] else [])
  }

  ghost function DlqSubs(dlq: seq<DlqEntry>): seq<SubId> {
    seq(|dlq|, i requires 0 <= i < |dlq| => dlq[i].sub)
  }

  /** How many success commits of `x` the log holds. */
  ghost function PaidCount(log: seq<SubEvent>, x: SubId): nat {
    if log == [] then 0 else PaidCount(log[..|log| - 1], x) + (if log[|log| - 1] == Paid(x) then 1 else 0)
  }

  /** The stored keys of the runs of `x`. */
  ghost function KeysFor(keys: KeyMap, runs: Runs, jobs: map<JobId, JobRow>, x: SubId): set<IdempotencyKey> {
    set k | k in keys && k.run in runs && runs[k.run].job in jobs && jobs[runs[k.run].job].sub == x
  }

  lemma Append(log: seq<SubEvent>, e: SubEvent)
    ensures forall x :: Streak(log + [e], x) == if e.sub != x then Streak(log, x) else if e.Buried? then Streak(log, x) + 1 else 0
    ensures BuriedSubs(log + [e]) == BuriedSubs(log) + (if e.Buried? then [e.sub] else [])
    ensures forall x :: PaidCount(log + [e], x) == PaidCount(log, x) + (if e == Paid(x) then 1 else 0)
  {
    assert (log + [e])[..|log|] == log;
  }

  lemma {:induction false} NoEvents(log: seq<SubEvent>, x: SubId)
    requires forall e :: e in log ==> e.sub != x
    ensures Streak(log, x) == 0
  {
    if log != [] {
      assert log[|log| - 1] in log;
      NoEvents(log[..|log| - 1], x);
    }
  }

  /** The counter is the streak, and a streak of three keeps the subscription from being ACTIVE. */
  ghost predicate Counts(subs: map<SubId, SubRow>, log: seq<SubEvent>) {
    && (forall x :: x in subs ==> subs[x].failures == Streak(log, x))
    && (forall x :: x in subs && subs[x].failures >= PAUSE_THRESHOLD ==> subs[x].status != Active)
    && (forall e :: e in log ==> e.sub in subs)
  }

  /** The dead-letter commits of the log are the dead-letter table. */
  ghost predicate LogIsHistory(log: seq<SubEvent>, dlq: seq<DlqEntry>) { BuriedSubs(log) == DlqSubs(dlq) }

  ghost predicate Counted(db: Db) { Counts(db.subs, db.h.log) && LogIsHistory(db.h.log, db.dlq) }

  /** The success commits of each subscription are its stored keys. */
  ghost predicate PaidMatches(db: Db) {
    forall x :: PaidCount(db.h.log, x) == |KeysFor(db.keys, db.runs, db.jobs, x)|
  }

  lemma CountEvent(subs: map<SubId, SubRow>, log: seq<SubEvent>, e: SubEvent, row: SubRow)
    requires Counts(subs, log) && e.sub in subs
    requires row.failures == (if e.Buried? then subs[e.sub].failures + 1 else 0)
    requires row.failures >= PAUSE_THRESHOLD ==> row.status != Active
    ensures Counts(subs[e.sub := row], log + [e])
  {
    Append(log, e);
  }

  lemma DlqSubsAppend(dlq: seq<DlqEntry>, e: DlqEntry)
    ensures DlqSubs(dlq + [e]) == DlqSubs(dlq) + [e.sub]
  {
  }

  lemma DlqCounted(db: Db, r: RunId, job: JobId, attempt: Attempt, x: SubId, keepWorker: bool)
    requires Counted(db) && x in db.subs
    ensures Counted(MoveToDlq(db, r, job, attempt, x, keepWorker))
  {
    hide Counts, BuriedSubs, DlqSubs, PaidCount, Streak;
    if r in db.runs {
      CountEvent(db.subs, db.h.log, Buried(x), CountFailure(db.subs[x]));
      Append(db.h.log, Buried(x));
      DlqSubsAppend(db.dlq, DlqEntry(r, job, x, attempt));
    }
  }

  lemma PersistCounted(db: Db, w: E.Worker)
    requires Counted(db) && w.phase.Busy? && w.phase.stage.Persisting? && w.phase.ticket.sub in db.subs
    ensures Counted(E.PersistSuccess(db, w).db)
  {
    hide Counts, BuriedSubs, DlqSubs, PaidCount, Streak;
    var t := w.phase.ticket;
    if ForRun(t.run, t.attempt) !in db.keys && t.run in db.runs {
      CountEvent(db.subs, db.h.log, Paid(t.sub), db.subs[t.sub].(failures := 0));
      Append(db.h.log, Paid(t.sub));
    }
  }

  lemma SameCounted(db: Db, db': Db)
    requires Counted(db) && db'.subs == db.subs && db'.h.log == db.h.log && db'.dlq == db.dlq
    ensures Counted(db')
  {
    hide Counts, LogIsHistory;
  }

  lemma ExecCounted(m: Mode, db: Db, me: WorkerId, w: E.Worker, x: ExecStep)
    requires Counted(db) && ExecOk(db, me, w) && ExecEnabled(m, db, w, x)
    ensures Counted(ExecApply(m, db, me, w, x).db)
  {
    hide Counted, E.PersistSuccess, E.ReceiveReply, E.ScheduleRetry, E.ClaimNext, E.MarkDagCancelled, E.Answers, MoveToDlq;
    match x
    case Persist => PersistCounted(db, w);
    case Bury =>
      var t := w.phase.ticket;
      DlqCounted(db, t.run, t.job, t.attempt, t.sub, true);
    case _ =>
      ExecFrames(m, db, me, w, x);
      SameCounted(db, ExecApply(m, db, me, w, x).db);
  }

  lemma MarkCounted(db: Db, r: RunId)
    requires Counted(db)
    ensures Counted(db.(h := db.h.(resolved := db.h.resolved + {r}))) && Counted(db.(h := db.h.(stranded := db.h.stranded + {r})))
  {
    hide Counts, LogIsHistory;
  }

  lemma InsertCounted(db: Db, id: RunId, job: JobId, attempt: Attempt, after: Option<Time>)
    requires Counted(db)
    ensures Counted(InsertRun(db, id, job, attempt, after))
  {
    hide Counted;
    InsertFrame(db, id, job, attempt, after);
    SameCounted(db, InsertRun(db, id, job, attempt, after));
  }

  lemma FollowUpCounted(db: Db, me: WorkerId, p: R.Phase, id: RunId)
    requires Counted(db) && RecOk(db, me, p) && p.Holding?
    ensures Counted(R.FollowUp(db, p, id).db)
  {
    hide Counted, MoveToDlq, InsertRun;
    var s := p.stub;
    MarkCounted(db, s.run);
    if s.sub.Some? {
      var db1 := db.(h := db.h.(resolved := db.h.resolved + {s.run}));
      DlqCounted(db1, s.run, s.job, s.attempt, s.sub.value, false);
      InsertCounted(db1, id, s.job, s.attempt + 1, None);
    }
  }

  lemma RecCounted(db: Db, me: WorkerId, p: R.Phase, y: RecStep)
    requires Counted(db) && RecOk(db, me, p) && RecEnabled(db, p, y)
    ensures Counted(RecApply(db, me, p, y).db)
  {
    hide Counted, R.FollowUp, R.JudgeNext;
    match y
    case Resolve(run) => FollowUpCounted(db, me, p, run);
    case _ =>
      RecFrames(db, me, p, y);
      SameCounted(db, RecApply(db, me, p, y).db);
  }

  lemma SubCounted(subs: map<SubId, SubRow>, log: seq<SubEvent>, x: SubId, row: SubRow)
    requires Counts(subs, log)
    requires row.failures >= PAUSE_THRESHOLD ==> row.status != Active
    requires if x in subs then row.failures == subs[x].failures else row.failures == 0
    ensures Counts(subs[x := row], log)
  {
    if x !in subs {
      NoEvents(log, x);
    }
  }

  lemma EnvCounted(m: Mode, db: Db, e: EnvStep)
    requires Counted(db) && EnvEnabled(m, db, e)
    ensures Counted(EnvApply(db, e))
  {
    hide Counts, LogIsHistory, BuriedSubs, PaidCount;
    var db' := EnvApply(db, e);
    match e
    case CreateSub(x, _, _, _) => SubCounted(db.subs, db.h.log, x, db'.subs[x]);
    case ResumeSub(x) =>
      if x in db.subs && db.subs[x].cron.Some? {
        CountEvent(db.subs, db.h.log, Resumed(x), db'.subs[x]);
        ResumeIsNoCommit(db.h.log, x, db.dlq);
      }
    case CancelSub(x) =>
      if x in db.subs {
        FailuresPause(db, x);
        SubCounted(db.subs, db.h.log, x, db'.subs[x]);
      }
    case Schedule(x, _, j, run, epoch) =>
      var db1 := S.InsertJob(db, j, run, JobRow(x, db.subs[x].nextFire.value, [], Ready, epoch));
      FailuresPause(db, x);
      SubCounted(db.subs, db.h.log, x, S.AdvanceSchedule(db1, x).subs[x]);
    case _ => SameCounted(db, db');
  }

  lemma FailuresPause(db: Db, x: SubId)
    requires Counted(db) && x in db.subs
    ensures db.subs[x].failures >= PAUSE_THRESHOLD ==> db.subs[x].status != Active
  {
  }

  lemma ResumeIsNoCommit(log: seq<SubEvent>, x: SubId, dlq: seq<DlqEntry>)
    requires LogIsHistory(log, dlq)
    ensures LogIsHistory(log + [Resumed(x)], dlq)
  {
    Append(log, Resumed(x));
  }

  // ---------- successes and keys ----------

  /** The log is as it was, or has one more commit, which is not a success. */
  ghost predicate NoSuccess(log: seq<SubEvent>, log': seq<SubEvent>) {
    log' == log || exists e :: IsCommit(e, log, log') && !e.Paid?
  }

  ghost predicate IsCommit(e: SubEvent, log: seq<SubEvent>, log': seq<SubEvent>) { log' == log + [e] }

  lemma DlqNoSuccess(db: Db, r: RunId, job: JobId, attempt: Attempt, x: SubId, keepWorker: bool)
    ensures NoSuccess(db.h.log, MoveToDlq(db, r, job, attempt, x, keepWorker).h.log)
  {
    assert r in db.runs ==> IsCommit(Buried(x), db.h.log, MoveToDlq(db, r, job, attempt, x, keepWorker).h.log);
  }

  lemma ExecNoSuccess(m: Mode, db: Db, me: WorkerId, w: E.Worker, x: ExecStep)
    requires ExecEnabled(m, db, w, x) && !x.Persist?
    ensures var db' := ExecApply(m, db, me, w, x).db; db'.keys == db.keys && NoSuccess(db.h.log, db'.h.log)
  {
    hide E.ReceiveReply, E.ScheduleRetry, E.ClaimNext, E.MarkDagCancelled, E.Answers, MoveToDlq, NoSuccess;
    ExecFrames(m, db, me, w, x);
    SameLog(db.h.log);
    if x.Bury? {
      var t := w.phase.ticket;
      DlqNoSuccess(db, t.run, t.job, t.attempt, t.sub, true);
    }
  }

  lemma SameLog(log: seq<SubEvent>)
    ensures NoSuccess(log, log)
  {
  }

  lemma RecNoSuccess(db: Db, me: WorkerId, p: R.Phase, y: RecStep)
    requires RecEnabled(db, p, y)
    ensures var db' := RecApply(db, me, p, y).db; db'.keys == db.keys && NoSuccess(db.h.log, db'.h.log)
  {
    hide R.JudgeNext, MoveToDlq, InsertRun, NoSuccess;
    RecFrames(db, me, p, y);
    SameLog(db.h.log);
    if y.Resolve? && p.stub.sub.Some? {
      var s := p.stub;
      var db1 := db.(h := db.h.(resolved := db.h.resolved + {s.run}));
      DlqNoSuccess(db1, s.run, s.job, s.attempt, s.sub.value, false);
      InsertFrame(db1, y.run, s.job, s.attempt + 1, None);
    }
  }

  lemma EnvNoSuccess(m: Mode, db: Db, e: EnvStep)
    requires EnvEnabled(m, db, e)
    ensures EnvApply(db, e).keys == db.keys && NoSuccess(db.h.log, EnvApply(db, e).h.log)
  {
    hide S.InsertJob;
    EnvFrames(m, db, e);
    if e.ResumeSub? {
      assert S.ResumeSub(db, e.sub) == db || IsCommit(Resumed(e.sub), db.h.log, S.ResumeSub(db, e.sub).h.log);
    }
  }

  lemma OtherPaid(log: seq<SubEvent>, log': seq<SubEvent>)
    requires NoSuccess(log, log')
    ensures forall x :: PaidCount(log', x) == PaidCount(log, x)
  {
    if log' != log {
      var e :| IsCommit(e, log, log') && !e.Paid?;
      Append(log, e);
    }
  }

  /** A key keeps its subscription. */
  lemma SameKeysFor(db: Db, db': Db, x: SubId)
    requires Sound(db) && Booked(db) && Grows(db, db') && db'.keys == db.keys
    ensures KeysFor(db'.keys, db'.runs, db'.jobs, x) == KeysFor(db.keys, db.runs, db.jobs, x)
  {
    hide RunIndex, NoGaps, LiveTop, JobIndex, ClaimsOk, ReapsOk, PoliciesOk, CallsOk, CauseOk;
  }

  lemma QuietMatches(db: Db, db': Db)
    requires Sound(db) && Booked(db) && Grows(db, db') && PaidMatches(db) && db'.keys == db.keys && NoSuccess(db.h.log, db'.h.log)
    ensures PaidMatches(db')
  {
    hide Sound, Booked, Grows, NoSuccess, KeysFor;
    OtherPaid(db.h.log, db'.h.log);
    forall x ensures PaidCount(db'.h.log, x) == |KeysFor(db'.keys, db'.runs, db'.jobs, x)| {
      SameKeysFor(db, db', x);
    }
  }

  /** One more key, for a run of `sub`; rows keep their job. */
  lemma OneMoreKey(keys: KeyMap, runs: Runs, runs': Runs, jobs: map<JobId, JobRow>, key: IdempotencyKey, p: PaymentId, sub: SubId, x: SubId)
    requires key !in keys && key.run in runs && runs[key.run].job in jobs && jobs[runs[key.run].job].sub == sub
    requires runs'.Keys == runs.Keys && forall r :: r in runs ==> runs'[r].job == runs[r].job
    ensures var before := KeysFor(keys, runs, jobs, x);
      key !in before && KeysFor(keys[key := p], runs', jobs, x) == if x == sub then before + {key} else before
  {
  }

  lemma SameSubs(keys: KeyMap, runs: Runs, jobs: map<JobId, JobRow>, j: JobId, status: JobStatus, x: SubId)
    ensures KeysFor(keys, runs, if j in jobs then jobs[j := jobs[j].(status := status)] else jobs, x) == KeysFor(keys, runs, jobs, x)
  {
  }

  lemma PersistMatches(db: Db, me: WorkerId, w: E.Worker)
    requires ExecOk(db, me, w) && w.phase.Busy? && w.phase.stage.Persisting? && PaidMatches(db)
    ensures PaidMatches(E.PersistSuccess(db, w).db)
  {
    hide PaidCount, KeysFor;
    var t, p, db' := w.phase.ticket, w.phase.stage.payment, E.PersistSuccess(db, w).db;
    var key := ForRun(t.run, t.attempt);
    if key !in db.keys {
      Append(db.h.log, Paid(t.sub));
      forall x ensures PaidCount(db'.h.log, x) == |KeysFor(db'.keys, db'.runs, db'.jobs, x)| {
        OneMoreKey(db.keys, db.runs, db'.runs, db.jobs, key, p, t.sub, x);
        SameSubs(db'.keys, db'.runs, db.jobs, t.job, Done, x);
      }
    }
  }

  lemma MatchesStep(m: Mode, s: Sys, l: Label)
    requires Inv(s) && PayInv(s) && PaidMatches(s.db) && Enabled(m, s, l)
    ensures PaidMatches(Apply(m, s, l).db)
  {
    hide Sound, Booked, Promises, Grows, PaidMatches, ExecOk, RecOk, ExecBooked, Tracked, NoSuccess;
    hide EnvApply, RecApply, EnvEnabled, RecEnabled, E.PersistSuccess, E.ReceiveReply, E.ScheduleRetry, E.ClaimNext;
    Step(m, s, l);
    match l {
      case Env(e) => EnvNoSuccess(m, s.db, e);
      case Rec(w, y) => RecNoSuccess(s.db, w, s.recs[w], y);
      case Exec(w, x) =>
        if x.Persist? {
          PersistMatches(s.db, w, s.execs[w]);
          return;
        }
        ExecNoSuccess(m, s.db, w, s.execs[w], x);
    }
    QuietMatches(s.db, Apply(m, s, l).db);
  }

  lemma InitCounted(s: Sys)
    requires Init(s)
    ensures Counted(s.db) && PaidMatches(s.db)
  {
  }

  lemma CountedStep(m: Mode, s: Sys, l: Label)
    requires Inv(s) && Counted(s.db) && Enabled(m, s, l)
    ensures Counted(Apply(m, s, l).db)
  {
    hide Counted, Sound, ExecOk, RecOk, Tracked, EnvApply, ExecApply, RecApply, EnvEnabled, ExecEnabled, RecEnabled;
    match l
    case Env(e) => EnvCounted(m, s.db, e);
    case Exec(w, x) => ExecCounted(m, s.db, w, s.execs[w], x);
    case Rec(w, y) => RecCounted(s.db, w, s.recs[w], y);
  }

  lemma {:induction false} CountedAlways(m: Mode, ss: seq<Sys>, ls: seq<Label>, i: nat)
    requires Trace(m, ss, ls) && i < |ss|
    ensures Counted(ss[i].db) && PaidMatches(ss[i].db)
  {
    hide Counted, PaidMatches, PayInv, Inv, Apply, Enabled;
    if i == 0 {
      InitCounted(ss[0]);
    } else {
      CountedAlways(m, ss, ls, i - 1);
      PayAlways(m, ss, ls, i - 1);
      MatchesStep(m, ss[i - 1], ls[i - 1]);
      CountedStep(m, ss[i - 1], ls[i - 1]);
    }
  }

  /** consecutive_failures counts the dead-letter commits since the last success or resume; the log it is read from is
      the history of the dead-letter table, entry by entry, and of the key table, subscription by subscription; and at three
      the subscription is not ACTIVE. */
  lemma CounterIsStreak(m: Mode, ss: seq<Sys>, ls: seq<Label>, i: nat, x: SubId)
    requires Trace(m, ss, ls) && i < |ss| && x in ss[i].db.subs
    ensures var db := ss[i].db;
      && db.subs[x].failures == Streak(db.h.log, x)
      && BuriedSubs(db.h.log) == DlqSubs(db.dlq)
      && PaidCount(db.h.log, x) == |KeysFor(db.keys, db.runs, db.jobs, x)|
      && (db.subs[x].failures >= PAUSE_THRESHOLD ==> db.subs[x].status != Active)
  {
    hide Apply, Enabled;
    CountedAlways(m, ss, ls, i);
  }
}
