/** Dependencies between jobs: who may be paid after whom, over whole runs and with zombies included. */
module Dag {
  import opened Domain
  import opened Tables
  import opened Protocol
  import opened Frames
  import opened Safety
  import opened Payments
  import E = Executor
  import R = Recovery
  import S = Scheduler

  /** A payment of the job is on record. */
  ghost predicate HasKey(db: Db, j: JobId) {
    exists r :: r in db.runs && db.runs[r].job == j && ForRun(r, db.runs[r].attempt) in db.keys
  }

  /** Every dependency of the job has its payment on record. */
  ghost predicate Cleared(db: Db, j: JobId) {
    j in db.jobs && forall d :: d in db.jobs[j].deps ==> HasKey(db, d)
  }

  ghost predicate DagOk(db: Db) {
    && (forall j, d :: j in db.jobs && d in db.jobs[j].deps ==> d in db.jobs)
    && (forall j :: j in db.jobs && db.jobs[j].status == Done ==> HasKey(db, j))
    && (forall r :: r in db.h.called && r in db.runs ==> Cleared(db, db.runs[r].job))
  }

  ghost predicate ExecCleared(db: Db, w: E.Worker) {
    w.phase.Busy? && (w.phase.stage.NeedKey? || w.phase.stage.Calling?) ==> Cleared(db, w.phase.ticket.job)
  }

  ghost predicate DagInv(s: Sys) {
    DagOk(s.db) && forall w :: w in s.execs ==> ExecCleared(s.db, s.execs[w])
  }

  lemma HasKeyGrows(db: Db, db': Db, j: JobId)
    requires HasKey(db, j) && Grows(db, db')
    ensures HasKey(db', j)
  {
  }

  lemma ClearedGrows(db: Db, db': Db, j: JobId)
    requires Cleared(db, j) && Grows(db, db')
    ensures Cleared(db', j)
  {
    hide HasKey;
    forall d | d in db'.jobs[j].deps ensures HasKey(db', d) {
      HasKeyGrows(db, db', d);
    }
  }

  /** A step that makes no job DONE, calls no bank and adds no job keeps the order. */
  lemma DagQuiet(db: Db, db': Db)
    requires DagOk(db) && Grows(db, db') && forall r :: r in db.h.called ==> r in db.runs
    requires db'.h.called == db.h.called && db'.jobs.Keys == db.jobs.Keys
    requires forall j :: j in db'.jobs && db'.jobs[j].status == Done ==> db.jobs[j].status == Done
    ensures DagOk(db')
  {
    hide HasKey, Cleared;
    forall j | j in db'.jobs && db'.jobs[j].status == Done ensures HasKey(db', j) {
      HasKeyGrows(db, db', j);
    }
    forall r | r in db'.h.called && r in db'.runs ensures Cleared(db', db'.runs[r].job) {
      ClearedGrows(db, db', db.runs[r].job);
    }
  }

  lemma CalledRuns(db: Db)
    requires Sound(db) && Booked(db)
    ensures forall r :: r in db.h.called ==> r in db.runs && r in db.h.claims
  {
    hide RunIndex, NoGaps, LiveTop, References, JobIndex, ReapsOk, PoliciesOk, KeysOk, CauseOk;
  }

  lemma PersistDag(db: Db, me: WorkerId, w: E.Worker)
    requires DagOk(db) && ExecOk(db, me, w) && ExecBooked(db, w) && w.phase.Busy? && w.phase.stage.Persisting?
    requires forall r :: r in db.h.called ==> r in db.runs
    requires Grows(db, E.PersistSuccess(db, w).db)
    ensures DagOk(E.PersistSuccess(db, w).db)
  {
    hide Cleared;
    var db' := E.PersistSuccess(db, w).db;
    forall j | j in db'.jobs && db'.jobs[j].status == Done ensures HasKey(db', j) {
      if j == w.phase.ticket.job {
        assert ForRun(w.phase.ticket.run, w.phase.ticket.attempt) in db'.keys;
      } else {
        HasKeyGrows(db, db', j);
      }
    }
    forall r | r in db'.h.called && r in db'.runs ensures Cleared(db', db'.runs[r].job) {
      ClearedGrows(db, db', db.runs[r].job);
    }
  }

  lemma CallDag(db: Db, me: WorkerId, w: E.Worker, reply: E.Reply, u: real)
    requires DagOk(db) && ExecOk(db, me, w) && ExecCleared(db, w) && w.phase.Busy? && w.phase.stage.Calling?
    requires forall r :: r in db.h.called ==> r in db.runs
    requires Grows(db, E.ReceiveReply(db, w, reply, u).db)
    ensures DagOk(E.ReceiveReply(db, w, reply, u).db)
  {
    hide Cleared, HasKey;
    var db' := E.ReceiveReply(db, w, reply, u).db;
    forall j | j in db'.jobs && db'.jobs[j].status == Done ensures HasKey(db', j) {
      HasKeyGrows(db, db', j);
    }
    forall r | r in db'.h.called && r in db'.runs ensures Cleared(db', db'.runs[r].job) {
      ClearedGrows(db, db', db.runs[r].job);
    }
  }

  /** DONE jobs carry a key, so a job whose existing dependencies are DONE is cleared. */
  lemma CheckClears(db: Db, j: JobId)
    requires DagOk(db) && j in db.jobs && E.DependenciesDone(db, db.jobs[j].deps)
    ensures Cleared(db, j)
  {
    hide HasKey;
  }

  lemma ExecDag(m: Mode, db: Db, me: WorkerId, w: E.Worker, x: ExecStep)
    requires DagOk(db) && Sound(db) && Booked(db) && ExecEnabled(m, db, w, x)
    requires ExecOk(db, me, w) && ExecBooked(db, w) && ExecCleared(db, w)
    requires Grows(db, ExecApply(m, db, me, w, x).db)
    ensures var a := ExecApply(m, db, me, w, x); DagOk(a.db) && ExecCleared(a.db, a.w)
  {
    hide Sound, Booked, DagOk, Grows, HasKey, Cleared, E.DependenciesDone;
    var a := ExecApply(m, db, me, w, x);
    CalledRuns(db);
    match x
    case Persist => PersistDag(db, me, w);
    case Call(reply, u) => CallDag(db, me, w, reply, u);
    case CheckDag =>
      if E.DependenciesDone(db, db.jobs[w.phase.ticket.job].deps) {
        CheckClears(db, w.phase.ticket.job);
      }
    case Load =>
      if db.jobs[w.phase.ticket.job].deps == [] {
        NoDeps(db, w.phase.ticket.job);
      }
    case _ => DagQuiet(db, a.db);
  }

  lemma NoDeps(db: Db, j: JobId)
    requires j in db.jobs && db.jobs[j].deps == []
    ensures Cleared(db, j)
  {
  }

  lemma OrphanDag(db: Db, j: JobId)
    requires DagOk(db) && Grows(db, R.CancelOrphan(db, j)) && forall r :: r in db.h.called ==> r in db.runs
    ensures DagOk(R.CancelOrphan(db, j))
  {
    hide DagOk, Grows, R.FailPending;
    DagQuiet(db, R.CancelOrphan(db, j));
  }

  lemma RecDag(db: Db, me: WorkerId, p: R.Phase, y: RecStep)
    requires DagOk(db) && Sound(db) && Booked(db) && RecEnabled(db, p, y) && Grows(db, RecApply(db, me, p, y).db)
    ensures DagOk(RecApply(db, me, p, y).db)
  {
    hide Sound, Booked, DagOk, Grows, DeadRuns, R.CancelOrphan, R.FollowUp;
    CalledRuns(db);
    match y
    case Reap => DagQuiet(db, R.ReapNext(db, me, p).db);
    case Resolve(run) =>
      FollowUpFrame(db, p, run);
      DagQuiet(db, R.FollowUp(db, p, run).db);
    case OrphanEval =>
      if RecApply(db, me, p, y).db != db {
        OrphanDag(db, p.jobs[0]);
      }
    case GiveUp => DagQuiet(db, R.GiveUp(db, p).db);
    case _ =>
  }

  lemma InsertJobDag(db: Db, j: JobId, run: RunId, row: JobRow)
    requires DagOk(db) && j !in db.jobs && (forall d :: d in row.deps ==> d in db.jobs) && row.status != Done
    requires forall r :: r in db.h.called ==> r in db.runs
    requires Grows(db, S.InsertJob(db, j, run, row))
    ensures DagOk(S.InsertJob(db, j, run, row))
  {
    hide HasKey, Cleared;
    var db' := S.InsertJob(db, j, run, row);
    forall i | i in db'.jobs && db'.jobs[i].status == Done ensures HasKey(db', i) {
      HasKeyGrows(db, db', i);
    }
    forall r | r in db'.h.called && r in db'.runs ensures Cleared(db', db'.runs[r].job) {
      ClearedGrows(db, db', db.runs[r].job);
    }
  }

  lemma EnvDag(m: Mode, db: Db, e: EnvStep)
    requires m.depsExist && DagOk(db) && Sound(db) && Booked(db) && EnvEnabled(m, db, e) && Grows(db, EnvApply(db, e))
    ensures DagOk(EnvApply(db, e))
  {
    hide Sound, Booked, DagOk, Grows;
    CalledRuns(db);
    match e
    case AddJob(j, run, row) => InsertJobDag(db, j, run, row);
    case Schedule(x, _, j, run, epoch) =>
      var row := JobRow(x, db.subs[x].nextFire.value, [], Ready, epoch);
      var db1 := S.InsertJob(db, j, run, row);
      InsertJobKeeps(db, j, run, row);
      UpdateSubKeeps(db1, EnvApply(db, e), x);
      InsertJobDag(db, j, run, row);
      DagQuiet(db1, EnvApply(db, e));
    case _ => DagQuiet(db, EnvApply(db, e));
  }

  lemma DagStep(m: Mode, s: Sys, l: Label)
    requires m.depsExist && Inv(s) && PayInv(s) && DagInv(s) && Enabled(m, s, l)
    ensures DagInv(Apply(m, s, l))
  {
    hide Sound, Booked, DagOk, Grows, Promises, ExecCleared, ExecOk, ExecBooked, RecOk, Tracked;
    hide EnvApply, ExecApply, RecApply, EnvEnabled, ExecEnabled, RecEnabled;
    var s' := Apply(m, s, l);
    Step(m, s, l);
    match l {
      case Env(e) => EnvDag(m, s.db, e);
      case Exec(w, x) => ExecDag(m, s.db, w, s.execs[w], x);
      case Rec(w, y) => RecDag(s.db, w, s.recs[w], y);
    }
    forall w | w in s.execs && ActorOf(l) != TheExec(w) ensures ExecCleared(s'.db, s.execs[w]) {
      ExecClearedGrows(s.db, s'.db, s.execs[w]);
    }
  }

  lemma ExecClearedGrows(db: Db, db': Db, w: E.Worker)
    requires ExecCleared(db, w) && Grows(db, db')
    ensures ExecCleared(db', w)
  {
    hide Cleared, Grows;
    if w.phase.Busy? && (w.phase.stage.NeedKey? || w.phase.stage.Calling?) {
      ClearedGrows(db, db', w.phase.ticket.job);
    }
  }

  lemma {:induction false} DagAlways(m: Mode, ss: seq<Sys>, ls: seq<Label>, i: nat)
    requires m.depsExist && Trace(m, ss, ls) && i < |ss|
    ensures DagInv(ss[i])
  {
    hide Apply, Enabled, Inv, PayInv;
    if i > 0 {
      hide DagInv;
      DagAlways(m, ss, ls, i - 1);
      PayAlways(m, ss, ls, i - 1);
      DagStep(m, ss[i - 1], ls[i - 1]);
    }
  }

  // ---------- the order over whole runs ----------

  /** `path` leads from a job to one of its ancestors along the dependencies. */
  ghost predicate Path(db: Db, path: seq<JobId>) {
    && |path| > 0
    && (|path| > 1 ==> path[0] in db.jobs && path[1] in db.jobs[path[0]].deps && Path(db, path[1..]))
  }

  /** When the bank is called for a job, every ancestor of the job, however far up, has its key on record. */
  lemma AncestorsPaidFirst(m: Mode, ss: seq<Sys>, ls: seq<Label>, i: nat, path: seq<JobId>)
    requires m.depsExist && Trace(m, ss, ls) && i < |ls| && ls[i].Exec? && ls[i].x.Call?
    requires Path(ss[i].db, path) && |path| > 1 && path[0] == ss[i].execs[ls[i].w].phase.ticket.job
    ensures HasKey(ss[i].db, path[|path| - 1])
  {
    hide Inv, Booked, DagOk, HasKey, Apply;
    DagAlways(m, ss, ls, i);
    PayAlways(m, ss, ls, i);
    assert ExecCleared(ss[i].db, ss[i].execs[ls[i].w]);
    AncestorsHaveKeys(ss[i].db, path[1..]);
  }

  /** A stored key was paid for, and the call that paid it came after the dependencies were paid. */
  lemma KeyedIsCleared(db: Db, j: JobId)
    requires Booked(db) && DagOk(db) && HasKey(db, j)
    ensures Cleared(db, j)
  {
    hide Cleared;
  }

  lemma {:induction false} AncestorsHaveKeys(db: Db, path: seq<JobId>)
    requires Booked(db) && DagOk(db) && Path(db, path) && HasKey(db, path[0])
    ensures HasKey(db, path[|path| - 1])
    decreases |path|
  {
    hide Booked, DagOk, HasKey;
    if |path| > 1 {
      KeyedIsCleared(db, path[0]);
      AncestorsHaveKeys(db, path[1..]);
    }
  }
}
