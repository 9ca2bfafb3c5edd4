/** What the dependency check is worth, in every mode: leases may be outlived and dependencies may be missing. */
module DependencyCheck {
  import opened Domain
  import opened Tables
  import opened Protocol
  import opened Safety
  import opened Payments
  import opened Dag
  import opened JobOutcome
  import E = Executor

  ghost predicate DonePaid(db: Db) {
    forall j :: j in db.jobs && db.jobs[j].status == Done ==> HasKey(db, j)
  }

  /** A success transaction stores the key of the job it marks. */
  lemma PersistPays(db: Db, me: WorkerId, w: E.Worker)
    requires ExecOk(db, me, w) && ExecBooked(db, w) && w.phase.Busy? && w.phase.stage.Persisting?
    ensures HasKey(E.PersistSuccess(db, w).db, w.phase.ticket.job)
  {
    var t, db' := w.phase.ticket, E.PersistSuccess(db, w).db;
    assert t.run in db'.runs && db'.runs[t.run].job == t.job && ForRun(t.run, db'.runs[t.run].attempt) in db'.keys;
  }

  /** A job that a step leaves DONE was DONE, or was paid by that step. */
  lemma DoneBefore(m: Mode, s: Sys, l: Label, j: JobId)
    requires Inv(s) && PayInv(s) && Enabled(m, s, l)
    requires j in Apply(m, s, l).db.jobs && Apply(m, s, l).db.jobs[j].status == Done
    ensures (j in s.db.jobs && s.db.jobs[j].status == Done) || HasKey(Apply(m, s, l).db, j)
  {
    hide Sound, Booked, ExecOk, RecOk, ExecBooked, Tracked, HasKey, EnvEnabled, EnvApply, ExecApply, RecApply, RecEnabled;
    match l
    case Env(e) =>
      if j in s.db.jobs { EnvKeepsStatus(m, s.db, e, j); } else { EnvAddsOpenJob(m, s.db, e, j); }
    case Rec(w, y) =>
      RecAddsNoJob(s.db, w, s.recs[w], y);
      RecWritesJob(s.db, w, s.recs[w], y, j);
    case Exec(w, x) =>
      ExecAddsNoJob(m, s.db, w, s.execs[w], x);
      ExecWritesJob(m, s.db, w, s.execs[w], x, j);
      if x.Persist? {
        PersistPays(s.db, w, s.execs[w]);
        PersistIs(m, s.db, w, s.execs[w]);
      }
  }

  lemma PersistIs(m: Mode, db: Db, me: WorkerId, w: E.Worker)
    requires ExecEnabled(m, db, w, Persist)
    ensures w.phase.Busy? && w.phase.stage.Persisting? && ExecApply(m, db, me, w, Persist) == E.PersistSuccess(db, w)
  {
    hide E.PersistSuccess;
  }

  lemma {:induction false} DonePaidAlways(m: Mode, ss: seq<Sys>, ls: seq<Label>, i: nat)
    requires Trace(m, ss, ls) && i < |ss|
    ensures DonePaid(ss[i].db)
  {
    hide Inv, PayInv, Apply, Enabled, HasKey, Grows;
    if i > 0 {
      DonePaidAlways(m, ss, ls, i - 1);
      PayAlways(m, ss, ls, i - 1);
      GrowsAlong(m, ss, ls, i - 1, i);
      forall j | j in ss[i].db.jobs && ss[i].db.jobs[j].status == Done ensures HasKey(ss[i].db, j) {
        DoneBefore(m, ss[i - 1], ls[i - 1], j);
        if HasKey(ss[i - 1].db, j) {
          HasKeyGrows(ss[i - 1].db, ss[i].db, j);
        }
      }
    }
  }

  lemma KeyedHasRow(db: Db, j: JobId)
    requires Sound(db) && HasKey(db, j)
    ensures j in db.jobs
  {
    hide RunIndex, NoGaps, LiveTop, JobIndex, ClaimsOk, ReapsOk, PoliciesOk;
  }

  /** In every reachable state of every mode: when the dependency check sends a job on to the bank, some dependency is
      unpaid if and only if some id in depends_on has no row. */
  lemma PassesUnpaidIffMissing(m: Mode, ss: seq<Sys>, ls: seq<Label>, i: nat)
    requires Trace(m, ss, ls) && i < |ls| && ls[i].Exec? && ls[i].x.CheckDag?
    requires ss[i + 1].execs[ls[i].w].phase.stage.NeedKey?
    ensures var db, j := ss[i].db, ss[i].execs[ls[i].w].phase.ticket.job;
      && j in db.jobs
      && ((exists d :: d in db.jobs[j].deps && !HasKey(db, d)) <==> (exists d :: d in db.jobs[j].deps && d !in db.jobs))
  {
    hide Sound, HasKey;
    Always(m, ss, ls, i);
    DonePaidAlways(m, ss, ls, i);
    var db, j := ss[i].db, ss[i].execs[ls[i].w].phase.ticket.job;
    assert ExecOk(db, ls[i].w, ss[i].execs[ls[i].w]);
    assert E.DependenciesDone(db, db.jobs[j].deps);
    forall d | d in db.jobs[j].deps ensures HasKey(db, d) <==> d in db.jobs {
      if HasKey(db, d) {
        KeyedHasRow(db, d);
      }
    }
  }
}
