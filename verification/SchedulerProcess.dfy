/** The scheduler as it is written: one transaction per tick. */
module SchedulerProcess {
  import opened Domain
  import opened Tables
  import opened Database
  import opened Query
  import opened Protocol
  import opened Paths
  import S = Scheduler

  const DUE_LIMIT: nat := 100

  /** Ids drawn for the job and its first run. */
  datatype NewIds = NewIds(job: JobId, run: RunId)

  datatype Tick = LostLead | NothingDue | Processed(subs: seq<SubId>)

  /** The jobs of one tick, one subscription after the other. */
  function CreateJobs(db: Db, subs: seq<SubId>, ids: seq<NewIds>, epoch: nat): Db
    requires |ids| == |subs|
    decreases |subs|
  {
    if subs == [] then db
    else
      var last := |subs| - 1;
      var before := CreateJobs(db, subs[..last], ids[..last], epoch);
      if subs[last] in before.subs then S.CreateJob(before, subs[last], ids[last].job, ids[last].run, epoch) else before
  }

  lemma {:induction false} CreateJobsKeepsSubs(db: Db, subs: seq<SubId>, ids: seq<NewIds>, epoch: nat)
    requires |ids| == |subs|
    ensures CreateJobs(db, subs, ids, epoch).subs.Keys == db.subs.Keys
    decreases |subs|
  {
    if subs != [] {
      CreateJobsKeepsSubs(db, subs[..|subs| - 1], ids[..|subs| - 1], epoch);
    }
  }

  class SchedulerWorker {
    const store: Store

    constructor (store: Store)
      ensures this.store == store
    {
      this.store := store;
    }

    /** The first occurrence after now, or None when the expression does not parse. */
    method NextFire(sub: SubRow) returns (next: Option<Time>)
      ensures next == if sub.cron.None? then None else Some(sub.cron.value(store.now))
    {
      match sub.cron
      case None => next := None;
      case Some(cron) => next := Some(cron(store.now));
    }

    method CreateJobForSubscription(x: SubId, ids: NewIds, epoch: nat)
      requires x in store.subs
      modifies store
      ensures store.View() == S.CreateJob(old(store.View()), x, ids.job, ids.run, epoch)
    {
      var row := store.subs[x];
      if row.nextFire.None? {
        return;
      }
      var fireAt := row.nextFire.value;
      if ForJob(x, fireAt) !in store.byWindow {
        store.jobs := store.jobs[ids.job := JobRow(x, fireAt, [], Ready, epoch)];
        store.byWindow := store.byWindow[ForJob(x, fireAt) := ids.job];
        store.AddRun(ids.run, ids.job, 1, None);
      }
      var next := NextFire(row);
      if next.None? {
        store.subs := store.subs[x := row.(status := Paused)];
      } else {
        store.subs := store.subs[x := row.(nextFire := next)];
      }
    }

    /** The query of a tick. */
    method FindDueSubscriptions(order: seq<SubId>, cutoff: Time) returns (subs: seq<SubId>)
      ensures var db := store.View(); subs == Picked(x => S.IsDue(db, x, cutoff), order, 100)
    {
      ghost var due := var db := store.View(); x => S.IsDue(db, x, cutoff);
      subs := [];
      var i := 0;
      while i < |order|
        invariant 0 <= i <= |order|
        invariant subs == Picked(due, order[..i], DUE_LIMIT)
      {
        PickedSnoc(due, order[..i], order[i], DUE_LIMIT);
        assert order[..i + 1] == order[..i] + [order[i]];
        var x := order[i];
        if |subs| < DUE_LIMIT && x in store.subs && store.subs[x].status == Active
           && store.subs[x].nextFire.Some? && store.subs[x].nextFire.value <= cutoff
        {
          subs := subs + [x];
        }
        i := i + 1;
      }
      assert order[..i] == order;
    }

    /** The loop of a tick. */
    method CreateJobsFor(subs: seq<SubId>, ids: seq<NewIds>, epoch: nat)
      requires |ids| == |subs| && forall x :: x in subs ==> x in store.subs
      modifies store
      ensures store.View() == CreateJobs(old(store.View()), subs, ids, epoch)
    {
      hide S.CreateJob;
      ghost var db := store.View();
      assert forall x :: x in subs ==> x in db.subs;
      var k := 0;
      while k < |subs|
        invariant 0 <= k <= |subs|
        invariant store.View() == CreateJobs(db, subs[..k], ids[..k], epoch)
      {
        assert subs[..k + 1][..k] == subs[..k] && ids[..k + 1][..k] == ids[..k];
        assert subs[k] in subs && subs[k] in db.subs;
        CreateJobsKeepsSubs(db, subs[..k], ids[..k], epoch);
        assert subs[k] in store.View().subs;
        CreateJobForSubscription(subs[k], ids[k], epoch);
        k := k + 1;
      }
      assert subs[..k] == subs && ids[..k] == ids;
    }

    /** `order` lists the subscriptions by next_fire_at, without those another scheduler has locked; the two
        answers are those of verify_still_leader before the transaction and inside it. */
    method ScheduleDueSubscriptions(order: seq<SubId>, epoch: nat, leads: bool, stillLeads: bool, ids: seq<NewIds>) returns (tick: Tick)
      requires |ids| == DUE_LIMIT
      modifies store
      ensures var db := old(store.View()); var cutoff := db.now + db.cfg.lookahead;
        var subs := Picked(x => S.IsDue(db, x, cutoff), order, 100);
        && tick == (if !leads then LostLead else if subs == [] then NothingDue else if !stillLeads then LostLead else Processed(subs))
        && |subs| <= 100
        && store.View() == if tick.Processed? then CreateJobs(db, subs, ids[..|subs|], epoch) else db
    {
      hide CreateJobs;
      ghost var db := store.View();
      var cutoff := store.now + store.cfg.lookahead;
      ghost var due := x => S.IsDue(db, x, cutoff);
      PickedIsABatch(due, order, DUE_LIMIT);
      if !leads {
        return LostLead;
      }
      var subs := FindDueSubscriptions(order, cutoff);
      if subs == [] {
        return NothingDue;
      }
      if !stillLeads {
        return LostLead;
      }
      CreateJobsFor(subs, ids[..|subs|], epoch);
      tick := Processed(subs);
    }
  }

  // ---------- a tick is a run of the protocol ----------

  function TickLabels(subs: seq<SubId>, ids: seq<NewIds>, cutoff: Time, epoch: nat): seq<Label>
    requires |ids| == |subs|
    decreases |subs|
  {
    if subs == [] then []
    else
      var last := |subs| - 1;
      TickLabels(subs[..last], ids[..last], cutoff, epoch)
      + [Env(Schedule(subs[last], cutoff, ids[last].job, ids[last].run, epoch))]
  }

  /** The ids are new and differ from one another, as the subscriptions of one query do. */
  ghost predicate Fresh(db: Db, subs: seq<SubId>, ids: seq<NewIds>)
  {
    && |ids| == |subs|
    && (forall i :: 0 <= i < |ids| ==> ids[i].job !in db.jobs && ids[i].run !in db.runs)
    && (forall i, k :: 0 <= i < k < |ids| ==> ids[i].job != ids[k].job && ids[i].run != ids[k].run && subs[i] != subs[k])
  }

  /** Outside the processed subscriptions and the new ids nothing has changed. */
  ghost predicate Apart(db: Db, db': Db, subs: seq<SubId>, ids: seq<NewIds>) {
    && db'.now == db.now && db'.cfg == db.cfg
    && (forall x :: x in db.subs && x !in subs ==> x in db'.subs && db'.subs[x] == db.subs[x])
    && (forall j :: j in db'.jobs && j !in db.jobs ==> exists i :: 0 <= i < |ids| && ids[i].job == j)
    && (forall r :: r in db'.runs && r !in db.runs ==> exists i :: 0 <= i < |ids| && ids[i].run == r)
  }

  lemma CreateJobApart(db: Db, x: SubId, ids: NewIds, epoch: nat)
    requires x in db.subs
    ensures var db' := S.CreateJob(db, x, ids.job, ids.run, epoch);
      && db'.now == db.now && db'.cfg == db.cfg && db'.subs.Keys == db.subs.Keys
      && (forall y :: y in db.subs && y != x ==> db'.subs[y] == db.subs[y])
      && (forall j :: j in db'.jobs && j !in db.jobs ==> j == ids.job)
      && (forall r :: r in db'.runs && r !in db.runs ==> r == ids.run)
  {
  }

  lemma {:induction false} CreateJobsApart(db: Db, subs: seq<SubId>, ids: seq<NewIds>, epoch: nat)
    requires |ids| == |subs|
    ensures Apart(db, CreateJobs(db, subs, ids, epoch), subs, ids)
    decreases |subs|
  {
    if subs != [] {
      hide S.CreateJob;
      var last := |subs| - 1;
      CreateJobsApart(db, subs[..last], ids[..last], epoch);
      var before := CreateJobs(db, subs[..last], ids[..last], epoch);
      assert forall i :: 0 <= i < last ==> ids[..last][i] == ids[i];
      if subs[last] in before.subs {
        CreateJobApart(before, subs[last], ids[last], epoch);
      }
    }
  }

  /** What a tick commits is what the protocol reaches by one Schedule step for each subscription. */
  lemma {:induction false} TickIsARun(m: Mode, s: Sys, subs: seq<SubId>, ids: seq<NewIds>, cutoff: Time, epoch: nat)
    requires Fresh(s.db, subs, ids) && cutoff <= s.db.now + s.db.cfg.lookahead
    requires forall x :: x in subs ==> S.IsDue(s.db, x, cutoff)
    ensures var ls := TickLabels(subs, ids, cutoff, epoch);
      CanRun(m, s, ls) && RunAll(m, s, ls) == s.(db := CreateJobs(s.db, subs, ids, epoch))
    decreases |subs|
  {
    if subs != [] {
      var last := |subs| - 1;
      TickIsARun(m, s, subs[..last], ids[..last], cutoff, epoch);
      var ls, l := TickLabels(subs[..last], ids[..last], cutoff, epoch), Env(Schedule(subs[last], cutoff, ids[last].job, ids[last].run, epoch));
      LastIsDue(m, s, subs, ids, cutoff, epoch);
      hide CanRun, RunAll, S.CreateJob, Enabled, Fresh, S.IsDue;
      One(m, RunAll(m, s, ls), l);
      RunThenRun(m, s, ls, [l]);
    }
  }

  /** The last subscription of a tick is still due, and its ids are still new, when its turn comes. */
  lemma LastIsDue(m: Mode, s: Sys, subs: seq<SubId>, ids: seq<NewIds>, cutoff: Time, epoch: nat)
    requires Fresh(s.db, subs, ids) && subs != [] && cutoff <= s.db.now + s.db.cfg.lookahead
    requires forall x :: x in subs ==> S.IsDue(s.db, x, cutoff)
    ensures var last := |subs| - 1; var s1 := s.(db := CreateJobs(s.db, subs[..last], ids[..last], epoch));
      && Enabled(m, s1, Env(Schedule(subs[last], cutoff, ids[last].job, ids[last].run, epoch)))
      && subs[last] in s1.db.subs
      && Apply(m, s1, Env(Schedule(subs[last], cutoff, ids[last].job, ids[last].run, epoch)))
         == s1.(db := S.CreateJob(s1.db, subs[last], ids[last].job, ids[last].run, epoch))
  {
    hide S.CreateJob, CreateJobs;
    var last := |subs| - 1;
    CreateJobsApart(s.db, subs[..last], ids[..last], epoch);
    assert subs[last] in subs && S.IsDue(s.db, subs[last], cutoff);
    assert subs[last] !in subs[..last];
  }

  // ---------- what a tick does, said of the rows ----------

  /** ACTIVE, with its next fire time within the lookahead. */
  predicate Wanted(db: Db, x: SubId) {
    && x in db.subs && db.subs[x].status == Active
    && db.subs[x].nextFire.Some? && db.subs[x].nextFire.value <= db.now + db.cfg.lookahead
  }

  /** The subscription has its job for the window, and its schedule has moved on or, without a readable expression, is paused. */
  ghost predicate Served(row: SubRow, db': Db, x: SubId, now: Time) {
    && row.nextFire.Some? && ForJob(x, row.nextFire.value) in db'.byWindow && x in db'.subs
    && db'.subs[x] == if row.cron.Some? then row.(nextFire := Some(row.cron.value(now))) else row.(status := Paused)
  }

  lemma CreateJobServes(db: Db, x: SubId, ids: NewIds, epoch: nat)
    requires x in db.subs && db.subs[x].nextFire.Some?
    ensures Served(db.subs[x], S.CreateJob(db, x, ids.job, ids.run, epoch), x, db.now)
  {
  }

  lemma CreateJobWindows(db: Db, x: SubId, ids: NewIds, epoch: nat)
    requires x in db.subs
    ensures var db' := S.CreateJob(db, x, ids.job, ids.run, epoch);
      && (forall f :: f in db.byWindow ==> f in db'.byWindow)
      && (forall f :: f in db'.byWindow && f !in db.byWindow ==> f.sub == x)
  {
  }

  /** Each processed subscription is served once; the others keep their rows and get no window. */
  lemma {:induction false} CreateJobsServe(db: Db, subs: seq<SubId>, ids: seq<NewIds>, epoch: nat, x: SubId)
    requires |ids| == |subs| && (forall y :: y in subs ==> y in db.subs && db.subs[y].nextFire.Some?)
    requires x in db.subs && forall i, k :: 0 <= i < k < |subs| ==> subs[i] != subs[k]
    ensures var db' := CreateJobs(db, subs, ids, epoch);
      && db'.now == db.now && db'.subs.Keys == db.subs.Keys
      && (forall f :: f in db.byWindow ==> f in db'.byWindow)
      && (if x in subs then Served(db.subs[x], db', x, db.now)
          else db'.subs[x] == db.subs[x] && forall f :: f in db'.byWindow && f.sub == x ==> f in db.byWindow)
    decreases |subs|
  {
    if subs != [] {
      hide S.CreateJob;
      var last := |subs| - 1;
      var y, before := subs[last], CreateJobs(db, subs[..last], ids[..last], epoch);
      assert forall z :: z in subs <==> z in subs[..last] || z == y;
      CreateJobsServe(db, subs[..last], ids[..last], epoch, x);
      CreateJobsServe(db, subs[..last], ids[..last], epoch, y);
      CreateJobApart(before, y, ids[last], epoch);
      CreateJobServes(before, y, ids[last], epoch);
      CreateJobWindows(before, y, ids[last], epoch);
    }
  }

  /** A tick that its query does not cut short serves exactly the subscriptions that are ACTIVE with their next fire time within the
      lookahead, and leaves every other one, paused, cancelled or not yet due, alone. */
  lemma TickServesTheDue(db: Db, order: seq<SubId>, ids: seq<NewIds>, epoch: nat, x: SubId)
    requires x in order && x in db.subs && forall i, k :: 0 <= i < k < |order| ==> order[i] != order[k]
    requires var subs := Picked(y => S.IsDue(db, y, db.now + db.cfg.lookahead), order, 100); |subs| < 100 && |ids| == |subs|
    ensures var db' := CreateJobs(db, Picked(y => S.IsDue(db, y, db.now + db.cfg.lookahead), order, 100), ids, epoch);
      if Wanted(db, x) then Served(db.subs[x], db', x, db.now)
      else x in db'.subs && db'.subs[x] == db.subs[x] && forall f :: f in db'.byWindow && f.sub == x ==> f in db.byWindow
  {
    hide Served, CreateJobs;
    var due := y => S.IsDue(db, y, db.now + db.cfg.lookahead);
    PickedIsABatch(due, order, 100);
    PickedDistinct(due, order, 100);
    CreateJobsServe(db, Picked(due, order, 100), ids, epoch, x);
  }
}
