/** No job is lost: what a job's last run says about it, in every reachable state. */
module Settlement {
  import opened Domain
  import opened Tables
  import opened Protocol
  import opened Frames
  import opened Safety
  import E = Executor
  import R = Recovery
  import S = Scheduler

  type Jobs = map<JobId, JobRow>

  predicate Settled(row: JobRow) { row.status == Done || row.status == Dropped }

  /** The last run of a job is waiting, leased, dead or in recovery, or the job is DONE or CANCELLED. */
  ghost predicate Accounted(runs: Runs, idx: Index, jobs: Jobs, reaped: map<RunId, WorkerId>, resolved: set<RunId>) {
    forall r :: r in runs && runs[r].job in jobs && (runs[r].job, runs[r].attempt + 1) !in idx ==>
      || Settled(jobs[runs[r].job])
      || runs[r].status == Pending
      || (runs[r].status == Running && runs[r].lock.Some?)
      || runs[r].status == Dead
      || (r in reaped && r !in resolved)
  }

  ghost predicate Kept(db: Db) { Accounted(db.runs, db.byAttempt, db.jobs, db.h.reaped, db.h.resolved) }

  lemma SetRunKept(db: Db, r: RunId, row: RunRow)
    requires Kept(db) && r in db.runs && SameIdentity(db.runs[r], row)
    requires row.status == Dead || (row.status == Running && row.lock.Some?) || !IsTop(db, r)
             || (r in db.h.reaped && r !in db.h.resolved)
    ensures Kept(SetRun(db, r, row))
  {
  }

  lemma InsertRunKept(db: Db, id: RunId, job: JobId, attempt: Attempt, after: Option<Time>)
    requires Kept(db) && id !in db.runs
    ensures Kept(InsertRun(db, id, job, attempt, after))
  {
  }

  lemma DlqKept(db: Db, r: RunId, job: JobId, attempt: Attempt, sub: SubId, keepWorker: bool)
    requires Kept(db)
    ensures Kept(MoveToDlq(db, r, job, attempt, sub, keepWorker))
  {
  }

  /** Any status, together with a successor or with a settled job. */
  lemma ClosedWithReason(db: Db, r: RunId, row: RunRow, db': Db)
    requires Kept(db) && r in db.runs && SameIdentity(db.runs[r], row)
    requires db'.runs == db.runs[r := row] && Extends(db.byAttempt, db'.byAttempt)
    requires db'.h.reaped == db.h.reaped && db'.h.resolved == db.h.resolved
    requires forall j :: j in db'.jobs ==> j in db.jobs && (Settled(db.jobs[j]) ==> Settled(db'.jobs[j]))
    requires !IsTop(db', r) || (row.job in db'.jobs && Settled(db'.jobs[row.job]))
    ensures Kept(db')
  {
  }

  lemma RetryKept(db: Db, me: WorkerId, w: E.Worker, id: RunId)
    requires Kept(db) && ExecOk(db, me, w) && w.phase.Busy? && w.phase.stage.Retrying? && id !in db.runs
    ensures Kept(E.ScheduleRetry(db, w, id).db)
  {
    hide Accounted;
    var t := w.phase.ticket;
    var row := db.runs[t.run].(status := Failed, lock := None);
    var idx := InsertRun(db, id, t.job, t.attempt + 1, Some(w.phase.stage.after)).byAttempt;
    var db1 := SetRun(db, t.run, row).(byAttempt := idx);
    ClosedWithReason(db, t.run, row, db1);
    if (t.job, t.attempt + 1) !in db.byAttempt {
      NewRunKept(db1, id, RunRow(t.job, t.attempt + 1, Pending, None, Some(w.phase.stage.after), None, None));
    }
  }

  lemma NewRunKept(db: Db, id: RunId, row: RunRow)
    requires Kept(db) && id !in db.runs && row.status == Pending
    ensures Kept(SetRun(db, id, row))
  {
  }

  lemma ExecKept(m: Mode, db: Db, me: WorkerId, w: E.Worker, x: ExecStep)
    requires Kept(db) && Sound(db) && ExecOk(db, me, w) && ExecEnabled(m, db, w, x)
    ensures Kept(ExecApply(m, db, me, w, x).db)
  {
    hide Sound, Accounted;
    match x
    case ClaimNext =>
      var r := w.batch[0];
      if r in db.runs && db.runs[r].status == Pending {
        var row := db.runs[r].(status := Running, lock := Some(db.now + db.cfg.lockTimeout), worker := Some(me));
        SetRunKept(db, r, row);
      }
    case Persist =>
      var t := w.phase.ticket;
      if ForRun(t.run, t.attempt) !in db.keys {
        var row := db.runs[t.run].(status := Succeeded, payment := Some(w.phase.stage.payment), lock := None);
        ClosedWithReason(db, t.run, row, E.PersistSuccess(db, w).db);
      }
    case DagCancel =>
      var t := w.phase.ticket;
      ClosedWithReason(db, t.run, db.runs[t.run].(status := Failed, lock := None), E.MarkDagCancelled(db, w).db);
    case Retry(run) => RetryKept(db, me, w, run);
    case Bury =>
      var t := w.phase.ticket;
      DlqKept(db, t.run, t.job, t.attempt, t.sub, true);
    case _ =>
  }

  lemma DlqResolvedKept(db: Db, r: RunId, job: JobId, attempt: Attempt, sub: SubId)
    requires Kept(db) && r in db.runs && sub in db.subs
    ensures Kept(MoveToDlq(db.(h := db.h.(resolved := db.h.resolved + {r})), r, job, attempt, sub, false))
  {
    hide Accounted;
    var row := db.runs[r].(status := Dead, lock := None, worker := None);
    SetRunKept(db, r, row);
    ResolvedKept(SetRun(db, r, row), MoveToDlq(db.(h := db.h.(resolved := db.h.resolved + {r})), r, job, attempt, sub, false), r);
  }

  lemma InsertResolvedKept(db: Db, r: RunId, id: RunId)
    requires Kept(db) && r in db.runs && id !in db.runs
    ensures Kept(InsertRun(db.(h := db.h.(resolved := db.h.resolved + {r})), id, db.runs[r].job, db.runs[r].attempt + 1, None))
  {
    hide Kept, InsertRun;
    var row := db.runs[r];
    InsertRunKept(db, id, row.job, row.attempt + 1, None);
    InsertedNext(db, r, id);
    InsertFrame(db, id, row.job, row.attempt + 1, None);
    InsertIgnoresHistory(db, id, row.job, row.attempt + 1, None, db.h.(resolved := db.h.resolved + {r}));
    ResolvedKept(InsertRun(db, id, row.job, row.attempt + 1, None),
                 InsertRun(db.(h := db.h.(resolved := db.h.resolved + {r})), id, row.job, row.attempt + 1, None), r);
  }

  lemma InsertedNext(db: Db, r: RunId, id: RunId)
    requires r in db.runs && id !in db.runs
    ensures var row := db.runs[r]; var db' := InsertRun(db, id, row.job, row.attempt + 1, None);
      r in db'.runs && !IsTop(db', r)
  {
  }

  lemma InsertIgnoresHistory(db: Db, id: RunId, job: JobId, attempt: Attempt, after: Option<Time>, h: History)
    ensures InsertRun(db.(h := h), id, job, attempt, after) == InsertRun(db, id, job, attempt, after).(h := h)
  {
    if (job, attempt) in db.byAttempt {
      assert InsertRun(db, id, job, attempt, after) == db;
    }
  }

  lemma ResolveKept(db: Db, me: WorkerId, p: R.Phase, id: RunId)
    requires Kept(db) && RecOk(db, me, p) && p.Holding? && id !in db.runs
    ensures Kept(R.FollowUp(db, p, id).db)
  {
    hide Kept, MoveToDlq, InsertRun;
    var s := p.stub;
    DlqResolvedKept(db, s.run, s.job, s.attempt, s.sub.value);
    InsertResolvedKept(db, s.run, id);
  }

  /** A recovered run may leave the recovery worker's hands once it is DEAD or has a successor. */
  lemma ResolvedKept(db: Db, db': Db, r: RunId)
    requires Kept(db) && r in db.runs && (db.runs[r].status == Dead || !IsTop(db, r))
    requires db'.runs == db.runs && db'.byAttempt == db.byAttempt && db'.jobs == db.jobs
    requires db'.h.reaped == db.h.reaped && db'.h.resolved == db.h.resolved + {r}
    ensures Kept(db')
  {
  }

  /** All but the runs of one job are accounted for. */
  ghost predicate AccountedBut(runs: Runs, idx: Index, jobs: Jobs, reaped: map<RunId, WorkerId>, resolved: set<RunId>, j: JobId) {
    Accounted(map r | r in runs && runs[r].job != j :: runs[r], idx, jobs, reaped, resolved)
  }

  lemma OrphanAccounted(runs: Runs, idx: Index, jobs: Jobs, reaped: map<RunId, WorkerId>, resolved: set<RunId>, j: JobId)
    requires Accounted(runs, idx, jobs, reaped, resolved)
    ensures AccountedBut(R.FailPending(runs, j), idx, jobs, reaped, resolved, j)
  {
  }

  lemma StoppedAccounted(runs: Runs, idx: Index, jobs: Jobs, reaped: map<RunId, WorkerId>, resolved: set<RunId>, j: JobId)
    requires AccountedBut(runs, idx, jobs, reaped, resolved, j)
    ensures Accounted(runs, idx, if j in jobs then jobs[j := jobs[j].(status := Dropped)] else jobs, reaped, resolved)
  {
    var others := map r | r in runs && runs[r].job != j :: runs[r];
    assert forall r :: r in runs && runs[r].job != j ==> others[r] == runs[r];
  }

  lemma OrphanKept(db: Db, j: JobId)
    requires Kept(db)
    ensures Kept(R.CancelOrphan(db, j))
  {
    hide Accounted;
    OrphanAccounted(db.runs, db.byAttempt, db.jobs, db.h.reaped, db.h.resolved, j);
    StoppedAccounted(R.FailPending(db.runs, j), db.byAttempt, db.jobs, db.h.reaped, db.h.resolved, j);
  }

  lemma ReapKept(db: Db, me: WorkerId, p: R.Phase)
    requires Kept(db) && Sound(db) && p.Reaping? && p.ids != []
    ensures Kept(R.ReapNext(db, me, p).db)
  {
    hide Sound;
    if R.Stuck(db, p.ids[0], p.asOf) {
      StuckRun(db, p.ids[0], p.asOf);
    }
  }

  lemma RecKept(db: Db, me: WorkerId, p: R.Phase, y: RecStep)
    requires Kept(db) && Sound(db) && RecOk(db, me, p) && RecEnabled(db, p, y)
    ensures Kept(RecApply(db, me, p, y).db)
  {
    hide Sound, Accounted, DeadRuns;
    match y
    case Reap => ReapKept(db, me, p);
    case Resolve(run) => ResolveKept(db, me, p, run);
    case OrphanEval => OrphanKept(db, p.jobs[0]);
    case _ =>
  }

  lemma InsertJobKept(db: Db, j: JobId, run: RunId, row: JobRow)
    requires Kept(db) && Sound(db) && j !in db.jobs && run !in db.runs && row.sub in db.subs
    ensures Kept(S.InsertJob(db, j, run, row))
  {
    hide Sound;
    NoNewSuccessors(db, j);
    NoRunsYet(db, j, 1);
  }

  lemma EnvKept(m: Mode, db: Db, e: EnvStep)
    requires Kept(db) && Sound(db) && EnvEnabled(m, db, e)
    ensures Kept(EnvApply(db, e))
  {
    hide Sound, Accounted;
    match e
    case AddJob(j, run, row) => InsertJobKept(db, j, run, row);
    case Schedule(x, _, j, run, epoch) =>
      InsertJobKept(db, j, run, JobRow(x, db.subs[x].nextFire.value, [], Ready, epoch));
    case _ =>
  }

  lemma KeptStep(m: Mode, s: Sys, l: Label)
    requires Inv(s) && Kept(s.db) && Enabled(m, s, l)
    ensures Kept(Apply(m, s, l).db)
  {
    hide Sound, Kept, ExecOk, RecOk, EnvApply, ExecApply, RecApply, EnvEnabled, ExecEnabled, RecEnabled, Tracked;
    match l
    case Env(e) => EnvKept(m, s.db, e);
    case Exec(w, x) => ExecKept(m, s.db, w, s.execs[w], x);
    case Rec(w, y) => RecKept(s.db, w, s.recs[w], y);
  }

  lemma {:induction false} KeptAlways(m: Mode, ss: seq<Sys>, ls: seq<Label>, i: nat)
    requires Trace(m, ss, ls) && i < |ss|
    ensures Kept(ss[i].db)
  {
    hide Inv, Apply, Enabled;
    if i > 0 {
      hide Kept;
      KeptAlways(m, ss, ls, i - 1);
      Always(m, ss, ls, i - 1);
      KeptStep(m, ss[i - 1], ls[i - 1]);
    }
  }

  /** Some recovery worker holds the run between its compare-and-set and its follow-up. */
  ghost predicate InRecovery(s: Sys, r: RunId) {
    exists w :: w in s.recs && s.recs[w].Holding? && s.recs[w].stub.run == r
  }

  /** No job is lost: it is DONE or CANCELLED, or its last run is DEAD, PENDING, RUNNING under a lease, or
      held by a recovery worker; the one way out is a recovery worker that stopped before its follow-up. */
  lemma NoJobLost(m: Mode, ss: seq<Sys>, ls: seq<Label>, i: nat, r: RunId)
    requires Trace(m, ss, ls) && i < |ss| && r in ss[i].db.runs && IsTop(ss[i].db, r)
    ensures var s, row := ss[i], ss[i].db.runs[r];
      && row.job in s.db.jobs
      && (Settled(s.db.jobs[row.job]) || row.status in {Dead, Pending} || (row.status == Running && row.lock.Some?)
          || InRecovery(s, r) || r in s.db.h.stranded)
  {
    hide Inv, Kept, Apply, Enabled;
    Always(m, ss, ls, i);
    KeptAlways(m, ss, ls, i);
    NoJobLostIn(ss[i], r);
  }

  lemma NoJobLostIn(s: Sys, r: RunId)
    requires Inv(s) && Kept(s.db) && r in s.db.runs && IsTop(s.db, r)
    ensures var row := s.db.runs[r];
      && row.job in s.db.jobs
      && (Settled(s.db.jobs[row.job]) || row.status in {Dead, Pending} || (row.status == Running && row.lock.Some?)
          || InRecovery(s, r) || r in s.db.h.stranded)
  {
    hide Sound;
    ReferenceOf(s.db, r);
  }
}
