/** The scheduler's work for one subscription, and the routes that change a subscription. */
module Scheduler {
  import opened Domain
  import opened Tables

  /** The WHERE clause of the due-subscription query. */
  predicate IsDue(db: Db, sub: SubId, cutoff: Time) {
    sub in db.subs && db.subs[sub].status == Active
    && db.subs[sub].nextFire.Some? && db.subs[sub].nextFire.value <= cutoff
  }

  /** INSERT the job ON CONFLICT (fingerprint) DO NOTHING, with its first run when it is new. */
  function InsertJob(db: Db, job: JobId, run: RunId, row: JobRow): Db {
    var f := ForJob(row.sub, row.window);
    if f in db.byWindow then db
    else InsertRun(db.(jobs := db.jobs[job := row], byWindow := db.byWindow[f := job]), run, job, 1, None)
  }

  /** Move next_fire_at to the first occurrence after now, or pause when there is none to compute. */
  function AdvanceSchedule(db: Db, sub: SubId): Db
    requires sub in db.subs
  {
    var row := db.subs[sub];
    db.(subs := db.subs[sub :=
      if row.cron.None? then row.(status := Paused) else row.(nextFire := Some(row.cron.value(db.now)))])
  }

  function CreateJob(db: Db, sub: SubId, job: JobId, run: RunId, epoch: nat): Db
    requires sub in db.subs
  {
    var row := db.subs[sub];
    if row.nextFire.None? then db
    else AdvanceSchedule(InsertJob(db, job, run, JobRow(sub, row.nextFire.value, [], Ready, epoch)), sub)
  }

  /** The resume route; an expression that no longer parses raises and changes nothing. */
  function ResumeSub(db: Db, sub: SubId): Db {
    if sub !in db.subs || db.subs[sub].cron.None? then db
    else
      var row := db.subs[sub];
      db.(subs := db.subs[sub := row.(status := Active, failures := 0, nextFire := Some(row.cron.value(db.now)))],
          h := db.h.(log := db.h.log + [Resumed(sub)]))
  }

  /** The delete route. */
  function CancelSub(db: Db, sub: SubId): Db {
    if sub !in db.subs then db
    else db.(subs := db.subs[sub := db.subs[sub].(status := Cancelled)])
  }

  /** The create route: ACTIVE, no failures, first fire at the next occurrence. */
  function CreateSub(db: Db, sub: SubId, policy: RetryPolicy, configOk: bool, cron: Time -> Time): Db {
    db.(subs := db.subs[sub := SubRow(Active, Some(cron(db.now)), 0, policy, configOk, Some(cron))])
  }
}
