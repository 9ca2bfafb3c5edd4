/** Which occurrences of a subscription's cron expression get a job. */
module Schedule {
  import opened Domain
  import opened Tables
  import opened Protocol
  import opened Frames
  import opened Safety
  import E = Executor
  import R = Recovery
  import S = Scheduler

  /** `next` gives the first occurrence after a time. */
  ghost predicate Cron(next: Time -> Time) {
    && (forall t :: t < next(t))
    && (forall t, u :: t <= u < next(t) ==> next(u) == next(t))
  }

  ghost predicate Occurrence(next: Time -> Time, o: Time) { exists t :: next(t) == o }

  lemma NextMonotone(next: Time -> Time, t: Time, u: Time)
    requires Cron(next) && t <= u
    ensures next(t) <= next(u)
  {
  }

  /** No occurrence lies strictly between a time and its next one. */
  lemma NextIsFirst(next: Time -> Time, t: Time, o: Time)
    requires Cron(next) && Occurrence(next, o)
    ensures t < o ==> next(t) <= o
  {
    var q :| next(q) == o;
    if t < q && t < o {
      NextMonotone(next, t, q);
    }
  }

  /** The occurrences from `f` on. */
  function Nth(next: Time -> Time, f: Time, n: nat): Time { if n == 0 then f else next(Nth(next, f, n - 1)) }

  // ---------- what one step does to a subscription ----------

  predicate Fires(l: Label, x: SubId) { l.Env? && l.e.Schedule? && l.e.sub == x }

  predicate Resumes(l: Label, x: SubId) { l.Env? && l.e.ResumeSub? && l.e.sub == x }

  predicate Adds(l: Label, x: SubId, o: Time) { l.Env? && l.e.AddJob? && l.e.row.sub == x && l.e.row.window == o }

  predicate HasJob(db: Db, x: SubId, o: Time) { ForJob(x, o) in db.byWindow }

  /** The schedule of every subscription is as it was, and so are the table of windows and the clock. */
  ghost predicate SameSchedule(db: Db, db': Db) {
    && db'.byWindow == db.byWindow && db'.now == db.now
    && (forall x :: x in db'.subs ==> x in db.subs)
    && forall x :: x in db.subs ==> x in db'.subs && db'.subs[x].cron == db.subs[x].cron && db'.subs[x].nextFire == db.subs[x].nextFire
  }

  lemma DlqSameSchedule(db: Db, r: RunId, job: JobId, attempt: Attempt, sub: SubId, keepWorker: bool)
    ensures SameSchedule(db, MoveToDlq(db, r, job, attempt, sub, keepWorker))
  {
  }

  lemma PersistSameSchedule(db: Db, w: E.Worker)
    requires w.phase.Busy? && w.phase.stage.Persisting?
    ensures SameSchedule(db, E.PersistSuccess(db, w).db)
  {
  }

  lemma NoSchedule(db: Db, db': Db)
    requires db'.byWindow == db.byWindow && db'.subs == db.subs && db'.now == db.now
    ensures SameSchedule(db, db')
  {
  }

  lemma ExecSameSchedule(m: Mode, db: Db, me: WorkerId, w: E.Worker, x: ExecStep)
    requires ExecEnabled(m, db, w, x)
    ensures SameSchedule(db, ExecApply(m, db, me, w, x).db)
  {
    hide SameSchedule, MoveToDlq, E.PersistSuccess, E.Answers, E.ReceiveReply, E.ScheduleRetry, E.ClaimNext, E.MarkDagCancelled;
    match x
    case Persist => PersistSameSchedule(db, w);
    case Bury =>
      var t := w.phase.ticket;
      DlqSameSchedule(db, t.run, t.job, t.attempt, t.sub, true);
    case _ =>
      ExecFrames(m, db, me, w, x);
      NoSchedule(db, ExecApply(m, db, me, w, x).db);
  }

  lemma FollowUpSameSchedule(db: Db, p: R.Phase, id: RunId)
    requires p.Holding?
    ensures SameSchedule(db, R.FollowUp(db, p, id).db)
  {
    hide MoveToDlq, InsertRun;
    var s := p.stub;
    var db1 := db.(h := db.h.(resolved := db.h.resolved + {s.run}));
    if s.sub.Some? {
      DlqSameSchedule(db1, s.run, s.job, s.attempt, s.sub.value, false);
      InsertFrame(db1, id, s.job, s.attempt + 1, None);
    }
  }

  lemma RecSameSchedule(db: Db, me: WorkerId, p: R.Phase, y: RecStep)
    requires RecEnabled(db, p, y)
    ensures SameSchedule(db, RecApply(db, me, p, y).db)
  {
    hide SameSchedule, R.FollowUp, R.JudgeNext;
    match y
    case Resolve(run) => FollowUpSameSchedule(db, p, run);
    case _ =>
      RecFrames(db, me, p, y);
      NoSchedule(db, RecApply(db, me, p, y).db);
  }

  lemma StepSameSchedule(m: Mode, s: Sys, l: Label)
    requires Enabled(m, s, l) && !l.Env?
    ensures SameSchedule(s.db, Apply(m, s, l).db)
  {
    hide ExecApply, RecApply, ExecEnabled, RecEnabled, SameSchedule;
    match l
    case Exec(w, y) => ExecSameSchedule(m, s.db, w, s.execs[w], y);
    case Rec(w, y) => RecSameSchedule(s.db, w, s.recs[w], y);
  }

  lemma InsertJobLeavesSubs(db: Db, j: JobId, run: RunId, row: JobRow)
    ensures S.InsertJob(db, j, run, row).subs == db.subs && S.InsertJob(db, j, run, row).now == db.now
  {
  }

  lemma EnvMovesFire(m: Mode, db: Db, e: EnvStep, x: SubId)
    requires EnvEnabled(m, db, e) && x in db.subs && db.subs[x].cron.Some?
    ensures var db' := EnvApply(db, e); var fires := Fires(Env(e), x) || Resumes(Env(e), x);
      && x in db'.subs && db'.subs[x].cron == db.subs[x].cron
      && db'.subs[x].nextFire == (if fires then Some(db.subs[x].cron.value(db.now)) else db.subs[x].nextFire)
      && db.now <= db'.now && (fires ==> db'.now == db.now)
  {
    hide S.InsertJob;
    EnvFrames(m, db, e);
    match e
    case Schedule(y, _, j, run, epoch) => InsertJobLeavesSubs(db, j, run, JobRow(y, db.subs[y].nextFire.value, [], Ready, epoch));
    case _ =>
  }

  /** A tick and a resume move next_fire_at to the first occurrence after now; nothing else moves it. */
  lemma StepMovesFire(m: Mode, s: Sys, l: Label, x: SubId)
    requires Enabled(m, s, l) && x in s.db.subs && s.db.subs[x].cron.Some?
    ensures var s' := Apply(m, s, l); var fires := Fires(l, x) || Resumes(l, x);
      && x in s'.db.subs && s'.db.subs[x].cron == s.db.subs[x].cron
      && s'.db.subs[x].nextFire == (if fires then Some(s.db.subs[x].cron.value(s.db.now)) else s.db.subs[x].nextFire)
      && s.db.now <= s'.db.now && (fires ==> s'.db.now == s.db.now)
  {
    hide EnvApply, EnvEnabled, ExecApply, RecApply, ExecEnabled, RecEnabled;
    if l.Env? {
      EnvMovesFire(m, s.db, l.e, x);
    } else {
      StepSameSchedule(m, s, l);
    }
  }

  lemma InsertJobWindow(db: Db, j: JobId, run: RunId, row: JobRow)
    ensures S.InsertJob(db, j, run, row).byWindow.Keys == db.byWindow.Keys + {ForJob(row.sub, row.window)}
  {
  }

  lemma EnvAddsWindow(m: Mode, db: Db, e: EnvStep, x: SubId, o: Time)
    requires EnvEnabled(m, db, e)
    ensures HasJob(EnvApply(db, e), x, o) <==>
      HasJob(db, x, o) || (Fires(Env(e), x) && db.subs[x].nextFire == Some(o)) || Adds(Env(e), x, o)
  {
    hide S.InsertJob;
    EnvFrames(m, db, e);
    match e
    case AddJob(j, run, row) => InsertJobWindow(db, j, run, row);
    case Schedule(y, _, j, run, epoch) => InsertJobWindow(db, j, run, JobRow(y, db.subs[y].nextFire.value, [], Ready, epoch));
    case _ =>
  }

  /** A window gets its job from a tick that finds next_fire_at there, or from a job created by other means. */
  lemma StepAddsWindow(m: Mode, s: Sys, l: Label, x: SubId, o: Time)
    requires Enabled(m, s, l) && x in s.db.subs
    ensures HasJob(Apply(m, s, l).db, x, o) <==>
      HasJob(s.db, x, o) || (Fires(l, x) && s.db.subs[x].nextFire == Some(o)) || Adds(l, x, o)
  {
    hide EnvApply, EnvEnabled, ExecApply, RecApply, ExecEnabled, RecEnabled;
    if l.Env? {
      EnvAddsWindow(m, s.db, l.e, x, o);
    } else {
      StepSameSchedule(m, s, l);
    }
  }

  // ---------- next_fire_at over whole runs ----------

  ghost predicate HasCron(db: Db, x: SubId, next: Time -> Time) {
    x in db.subs && db.subs[x].cron == Some(next) && Cron(next)
  }

  /** next_fire_at is the first occurrence after some moment that is not in the future. */
  ghost predicate OnSchedule(db: Db, x: SubId) {
    && x in db.subs && db.subs[x].cron.Some? && db.subs[x].nextFire.Some?
    && exists t :: t <= db.now && db.subs[x].cron.value(t) == db.subs[x].nextFire.value
  }

  lemma OnScheduleStep(m: Mode, s: Sys, l: Label, x: SubId)
    requires Enabled(m, s, l) && OnSchedule(s.db, x)
    ensures OnSchedule(Apply(m, s, l).db, x)
  {
    StepMovesFire(m, s, l, x);
    hide Apply, Enabled;
    var t :| t <= s.db.now && s.db.subs[x].cron.value(t) == s.db.subs[x].nextFire.value;
    var s' := Apply(m, s, l);
    assert Fires(l, x) || Resumes(l, x) ==> s'.db.subs[x].cron.value(s.db.now) == s'.db.subs[x].nextFire.value;
    assert t <= s'.db.now;
  }

  lemma EnvNewSub(m: Mode, db: Db, e: EnvStep, x: SubId)
    requires EnvEnabled(m, db, e) && x !in db.subs && x in EnvApply(db, e).subs
    ensures OnSchedule(EnvApply(db, e), x)
  {
    hide S.InsertJob;
    match e
    case AddJob(j, run, row) => InsertJobLeavesSubs(db, j, run, row);
    case Schedule(y, _, j, run, epoch) => InsertJobLeavesSubs(db, j, run, JobRow(y, db.subs[y].nextFire.value, [], Ready, epoch));
    case _ =>
  }

  lemma NewSubOnSchedule(m: Mode, s: Sys, l: Label, x: SubId)
    requires Enabled(m, s, l) && x !in s.db.subs && x in Apply(m, s, l).db.subs
    ensures OnSchedule(Apply(m, s, l).db, x)
  {
    hide OnSchedule, EnvEnabled, EnvApply, ExecApply, RecApply, ExecEnabled, RecEnabled;
    if l.Env? {
      EnvNewSub(m, s.db, l.e, x);
    } else {
      StepSameSchedule(m, s, l);
    }
  }

  lemma {:induction false} OnScheduleAlways(m: Mode, ss: seq<Sys>, ls: seq<Label>, i: nat, x: SubId)
    requires Trace(m, ss, ls) && i < |ss| && x in ss[i].db.subs
    ensures OnSchedule(ss[i].db, x)
  {
    hide Apply, Enabled, OnSchedule;
    if i > 0 {
      if x in ss[i - 1].db.subs {
        OnScheduleAlways(m, ss, ls, i - 1, x);
        OnScheduleStep(m, ss[i - 1], ls[i - 1], x);
      } else {
        NewSubOnSchedule(m, ss[i - 1], ls[i - 1], x);
      }
    }
  }

  ghost function FireAt(db: Db, x: SubId): Time {
    if x in db.subs && db.subs[x].nextFire.Some? then db.subs[x].nextFire.value else 0.0
  }

  lemma FireStep(m: Mode, s: Sys, l: Label, x: SubId, next: Time -> Time)
    requires Enabled(m, s, l) && HasCron(s.db, x, next) && OnSchedule(s.db, x)
    ensures var s' := Apply(m, s, l);
      && HasCron(s'.db, x, next) && OnSchedule(s'.db, x) && s.db.now <= s'.db.now
      && FireAt(s.db, x) <= FireAt(s'.db, x)
      && FireAt(s'.db, x) == (if Fires(l, x) || Resumes(l, x) then next(s.db.now) else FireAt(s.db, x))
      && (forall o :: HasJob(s'.db, x, o) <==> HasJob(s.db, x, o) || (Fires(l, x) && FireAt(s.db, x) == o) || Adds(l, x, o))
  {
    StepMovesFire(m, s, l, x);
    OnScheduleStep(m, s, l, x);
    forall o ensures HasJob(Apply(m, s, l).db, x, o) <==>
      HasJob(s.db, x, o) || (Fires(l, x) && FireAt(s.db, x) == o) || Adds(l, x, o)
    {
      StepAddsWindow(m, s, l, x, o);
    }
    hide Apply, Enabled;
    var t :| t <= s.db.now && next(t) == s.db.subs[x].nextFire.value;
    NextMonotone(next, t, s.db.now);
  }

  /** Ticks and resumes, in any interleaving and by any number of schedulers, never move next_fire_at back. */
  lemma {:induction false} FireNeverDecreases(m: Mode, ss: seq<Sys>, ls: seq<Label>, i: nat, k: nat, x: SubId, next: Time -> Time)
    requires Trace(m, ss, ls) && i <= k < |ss| && HasCron(ss[i].db, x, next)
    ensures HasCron(ss[k].db, x, next) && OnSchedule(ss[k].db, x) && FireAt(ss[i].db, x) <= FireAt(ss[k].db, x)
    decreases k
  {
    hide Apply, Enabled, OnSchedule, FireAt, Cron;
    if i == k {
      OnScheduleAlways(m, ss, ls, i, x);
    } else {
      FireNeverDecreases(m, ss, ls, i, k - 1, x, next);
      FireStep(m, ss[k - 1], ls[k - 1], x, next);
    }
  }

  /** A tick moves next_fire_at past an occurrence that still has no job exactly when it comes after the
      occurrence that follows next_fire_at and a window in between is empty. */
  lemma TickSkips(m: Mode, s: Sys, l: Label, x: SubId, next: Time -> Time, o: Time)
    requires Enabled(m, s, l) && HasCron(s.db, x, next) && OnSchedule(s.db, x) && Fires(l, x) && Occurrence(next, o)
    ensures var s', f := Apply(m, s, l), FireAt(s.db, x);
      (f <= o < FireAt(s'.db, x) && !HasJob(s'.db, x, o)) <==> (next(f) <= o <= s.db.now && !HasJob(s.db, x, o))
  {
    FireStep(m, s, l, x, next);
    hide Apply, Enabled;
    var f := FireAt(s.db, x);
    NextIsFirst(next, s.db.now, o);
    NextIsFirst(next, f, o);
  }

  // ---------- completeness ----------

  predicate AddsAny(l: Label, x: SubId) { l.Env? && l.e.AddJob? && l.e.row.sub == x }

  /** From step i to step k the subscription is not resumed and gets no job by other means. */
  ghost predicate OnlyTicks(ls: seq<Label>, i: nat, k: nat, x: SubId) {
    forall t :: i <= t < k && t < |ls| ==> !Resumes(ls[t], x) && !AddsAny(ls[t], x)
  }

  predicate FiresAt(ss: seq<Sys>, ls: seq<Label>, t: nat, x: SubId) {
    t < |ls| && t < |ss| && Fires(ls[t], x)
  }

  /** Some tick processes the subscription at or after `o` and before the occurrence that follows it. */
  ghost predicate Ticked(ss: seq<Sys>, ls: seq<Label>, i: nat, k: nat, x: SubId, next: Time -> Time, o: Time) {
    exists t: nat :: i <= t < k && FiresAt(ss, ls, t, x) && o <= ss[t].db.now < next(o)
  }

  /** What holds of next_fire_at and the windows from step i on. */
  ghost predicate Fired(ss: seq<Sys>, ls: seq<Label>, i: nat, k: nat, x: SubId, next: Time -> Time)
    requires i <= k < |ss|
  {
    var f0, f := FireAt(ss[i].db, x), FireAt(ss[k].db, x);
    && HasCron(ss[k].db, x, next) && OnSchedule(ss[k].db, x) && f0 <= f
    && (f == f0 || exists t: nat :: i <= t < k && FiresAt(ss, ls, t, x) && f == next(ss[t].db.now))
    && (forall t: nat :: i <= t < k && FiresAt(ss, ls, t, x) ==> next(ss[t].db.now) <= f && ss[t].db.now <= ss[k].db.now)
    && (forall o :: HasJob(ss[k].db, x, o) && !HasJob(ss[i].db, x, o) ==> f0 <= o <= f && Occurrence(next, o))
    && (forall o :: HasJob(ss[i].db, x, o) ==> HasJob(ss[k].db, x, o))
    && (f0 < f ==> HasJob(ss[k].db, x, f0))
  }

  lemma {:induction false} FiredAlways(m: Mode, ss: seq<Sys>, ls: seq<Label>, i: nat, k: nat, x: SubId, next: Time -> Time)
    requires Trace(m, ss, ls) && i <= k < |ss| && HasCron(ss[i].db, x, next) && OnlyTicks(ls, i, k, x)
    ensures Fired(ss, ls, i, k, x, next)
    decreases k
  {
    hide Apply, Enabled, Cron;
    if i == k {
      OnScheduleAlways(m, ss, ls, i, x);
    } else {
      FiredAlways(m, ss, ls, i, k - 1, x, next);
      FiredStep(m, ss, ls, i, k - 1, x, next);
    }
  }

  lemma FiredStep(m: Mode, ss: seq<Sys>, ls: seq<Label>, i: nat, k: nat, x: SubId, next: Time -> Time)
    requires Trace(m, ss, ls) && i <= k < |ls| && Fired(ss, ls, i, k, x, next) && OnlyTicks(ls, i, k + 1, x)
    ensures Fired(ss, ls, i, k + 1, x, next)
  {
    hide Apply, Enabled;
    FireStep(m, ss[k], ls[k], x, next);
    var t :| t <= ss[k].db.now && next(t) == FireAt(ss[k].db, x);
    assert Fires(ls[k], x) ==> FiresAt(ss, ls, k, x);
    assert Occurrence(next, FireAt(ss[k].db, x));
    hide OnSchedule, Cron;
  }

  /** Once next_fire_at is past the occurrence after `o`, the clock is too. */
  lemma NoLateTick(ss: seq<Sys>, ls: seq<Label>, i: nat, j: nat, x: SubId, next: Time -> Time, o: Time)
    requires i <= j < |ss| && Fired(ss, ls, i, j, x, next)
    requires FireAt(ss[i].db, x) <= o && next(o) < FireAt(ss[j].db, x)
    ensures next(o) <= ss[j].db.now
  {
    hide OnSchedule;
    var t: nat :| i <= t < j && FiresAt(ss, ls, t, x) && FireAt(ss[j].db, x) == next(ss[t].db.now);
    assert Occurrence(next, next(o));
    NextIsFirst(next, ss[t].db.now, next(o));
  }

  /** A tick whose moment is in [o, next(o)) leaves next_fire_at at next(o) or later. */
  lemma TickReaches(ss: seq<Sys>, ls: seq<Label>, i: nat, j: nat, x: SubId, next: Time -> Time, o: Time)
    requires i <= j < |ss| && Fired(ss, ls, i, j, x, next) && Ticked(ss, ls, i, j, x, next, o)
    ensures next(o) <= FireAt(ss[j].db, x)
  {
    hide OnSchedule;
  }

  /** next_fire_at stands at next(o) only because a tick in [o, next(o)) put it there. */
  lemma ReachedByTick(ss: seq<Sys>, ls: seq<Label>, i: nat, j: nat, x: SubId, next: Time -> Time, o: Time)
    requires i <= j < |ss| && Fired(ss, ls, i, j, x, next)
    requires Occurrence(next, o) && FireAt(ss[i].db, x) <= o && FireAt(ss[j].db, x) == next(o)
    ensures Ticked(ss, ls, i, j, x, next, o)
  {
    hide OnSchedule;
    var t: nat :| i <= t < j && FiresAt(ss, ls, t, x) && FireAt(ss[j].db, x) == next(ss[t].db.now);
    NextIsFirst(next, ss[t].db.now, o);
  }

  lemma TickedLater(ss: seq<Sys>, ls: seq<Label>, i: nat, j: nat, x: SubId, next: Time -> Time, o: Time)
    requires j < |ss| && (FiresAt(ss, ls, j, x) ==> next(o) <= ss[j].db.now)
    ensures Ticked(ss, ls, i, j + 1, x, next, o) <==> Ticked(ss, ls, i, j, x, next, o)
  {
  }

  /** The occurrence after `o` gets its job, once next_fire_at has passed it, exactly when some tick fell at or
      after `o` and before that occurrence. A tick before `o`, inside the lookahead, does not do. */
  lemma {:induction false} OccurrenceCovered(m: Mode, ss: seq<Sys>, ls: seq<Label>, i: nat, k: nat, x: SubId, next: Time -> Time, o: Time)
    requires Trace(m, ss, ls) && i <= k < |ss| && HasCron(ss[i].db, x, next) && OnlyTicks(ls, i, k, x)
    requires forall w :: HasJob(ss[i].db, x, w) ==> w <= FireAt(ss[i].db, x)
    requires Occurrence(next, o) && FireAt(ss[i].db, x) <= o && next(o) < FireAt(ss[k].db, x)
    ensures HasJob(ss[k].db, x, next(o)) <==> Ticked(ss, ls, i, k, x, next, o)
    decreases k
  {
    hide Apply, Enabled, Fired, OnSchedule, Ticked, FireAt;
    FiredAlways(m, ss, ls, i, k, x, next);
    FiredFacts(ss, ls, i, k, x, next);
    var j := k - 1;
    FiredAlways(m, ss, ls, i, j, x, next);
    FiredFacts(ss, ls, i, j, x, next);
    FireStep(m, ss[j], ls[j], x, next);
    assert Occurrence(next, next(o));
    NextIsFirst(next, ss[j].db.now, next(o));
    if next(o) < FireAt(ss[j].db, x) {
      NoLateTick(ss, ls, i, j, x, next, o);
      OccurrenceCovered(m, ss, ls, i, j, x, next, o);
    } else if FireAt(ss[j].db, x) == next(o) {
      ReachedByTick(ss, ls, i, j, x, next, o);
    } else if Ticked(ss, ls, i, j, x, next, o) {
      TickReaches(ss, ls, i, j, x, next, o);
    }
    TickedLater(ss, ls, i, j, x, next, o);
  }

  lemma FiredFacts(ss: seq<Sys>, ls: seq<Label>, i: nat, k: nat, x: SubId, next: Time -> Time)
    requires i <= k < |ss| && Fired(ss, ls, i, k, x, next)
    ensures HasCron(ss[k].db, x, next) && OnSchedule(ss[k].db, x)
    ensures forall o :: HasJob(ss[k].db, x, o) && !HasJob(ss[i].db, x, o) ==>
      FireAt(ss[i].db, x) <= o <= FireAt(ss[k].db, x) && Occurrence(next, o)
    ensures FireAt(ss[i].db, x) <= FireAt(ss[k].db, x)
    ensures FireAt(ss[i].db, x) < FireAt(ss[k].db, x) ==> HasJob(ss[k].db, x, FireAt(ss[i].db, x))
  {
  }

  /** Every occurrence that next_fire_at has passed has its job. */
  ghost predicate Complete(ss: seq<Sys>, i: nat, k: nat, x: SubId, next: Time -> Time)
    requires i < |ss| && k < |ss|
  {
    forall n: nat :: Nth(next, FireAt(ss[i].db, x), n) < FireAt(ss[k].db, x) ==>
      HasJob(ss[k].db, x, Nth(next, FireAt(ss[i].db, x), n))
  }

  /** A tick fell between every two of them. */
  ghost predicate TickedThroughout(ss: seq<Sys>, ls: seq<Label>, i: nat, k: nat, x: SubId, next: Time -> Time)
    requires i < |ss| && k < |ss|
  {
    forall n: nat :: next(Nth(next, FireAt(ss[i].db, x), n)) < FireAt(ss[k].db, x) ==>
      Ticked(ss, ls, i, k, x, next, Nth(next, FireAt(ss[i].db, x), n))
  }

  lemma NthOccurs(db: Db, x: SubId, next: Time -> Time, n: nat)
    requires HasCron(db, x, next) && OnSchedule(db, x)
    ensures Occurrence(next, Nth(next, FireAt(db, x), n)) && FireAt(db, x) <= Nth(next, FireAt(db, x), n)
  {
    if n > 0 {
      NthOccurs(db, x, next, n - 1);
    }
  }

  /** The jobs of a subscription are exactly the occurrences passed, each once, if and only if some tick fell at
      or after each of them and before the next. What is new is always an occurrence. */
  lemma JobsAreTheOccurrencesPassed(m: Mode, ss: seq<Sys>, ls: seq<Label>, i: nat, k: nat, x: SubId, next: Time -> Time)
    requires Trace(m, ss, ls) && i <= k < |ss| && HasCron(ss[i].db, x, next) && OnlyTicks(ls, i, k, x)
    requires forall w :: HasJob(ss[i].db, x, w) ==> w <= FireAt(ss[i].db, x)
    ensures Complete(ss, i, k, x, next) <==> TickedThroughout(ss, ls, i, k, x, next)
    ensures forall o :: HasJob(ss[k].db, x, o) && !HasJob(ss[i].db, x, o) ==>
      FireAt(ss[i].db, x) <= o <= FireAt(ss[k].db, x) && Occurrence(next, o)
  {
    hide Apply, Enabled, Fired, Ticked, FireAt, HasJob, OnSchedule;
    FiredAlways(m, ss, ls, i, k, x, next);
    FiredFacts(ss, ls, i, k, x, next);
    OnScheduleAlways(m, ss, ls, i, x);
    var f0, f := FireAt(ss[i].db, x), FireAt(ss[k].db, x);
    if Complete(ss, i, k, x, next) {
      forall n: nat | next(Nth(next, f0, n)) < f ensures Ticked(ss, ls, i, k, x, next, Nth(next, f0, n)) {
        NthOccurs(ss[i].db, x, next, n);
        assert Nth(next, f0, n + 1) == next(Nth(next, f0, n));
        OccurrenceCovered(m, ss, ls, i, k, x, next, Nth(next, f0, n));
      }
    }
    if TickedThroughout(ss, ls, i, k, x, next) {
      forall n: nat | Nth(next, f0, n) < f ensures HasJob(ss[k].db, x, Nth(next, f0, n)) {
        if n > 0 {
          NthOccurs(ss[i].db, x, next, n - 1);
          OccurrenceCovered(m, ss, ls, i, k, x, next, Nth(next, f0, n - 1));
        }
      }
    }
  }

  /** One job per window, whatever schedulers race, and every job is born with its first attempt. */
  lemma OneJobPerWindow(m: Mode, ss: seq<Sys>, ls: seq<Label>, i: nat, j: JobId, j': JobId)
    requires Trace(m, ss, ls) && i < |ss| && j in ss[i].db.jobs && j' in ss[i].db.jobs
    ensures var db := ss[i].db;
      && (db.jobs[j].sub == db.jobs[j'].sub && db.jobs[j].window == db.jobs[j'].window ==> j == j')
      && (j, 1) in db.byAttempt
      && db.byAttempt[(j, 1)] in db.runs && db.runs[db.byAttempt[(j, 1)]].job == j && db.runs[db.byAttempt[(j, 1)]].attempt == 1
  {
    Always(m, ss, ls, i);
    OneJobIn(ss[i].db, j, j');
    hide Inv, Apply, Enabled;
  }

  lemma OneJobIn(db: Db, j: JobId, j': JobId)
    requires Sound(db) && j in db.jobs && j' in db.jobs
    ensures db.jobs[j].sub == db.jobs[j'].sub && db.jobs[j].window == db.jobs[j'].window ==> j == j'
    ensures (j, 1) in db.byAttempt
    ensures db.byAttempt[(j, 1)] in db.runs && db.runs[db.byAttempt[(j, 1)]].job == j && db.runs[db.byAttempt[(j, 1)]].attempt == 1
  {
    hide NoGaps, LiveTop, ClaimsOk, ReapsOk, PoliciesOk;
  }
}
