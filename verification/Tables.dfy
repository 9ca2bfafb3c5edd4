/** The rows of the five tables, the bank and the clock, as one value, and the statements that several workers share. */
module Tables {
  import opened Domain

  datatype RunRow = RunRow(
    job: JobId, attempt: Attempt, status: RunStatus, lock: Option<Time>,
    retryAfter: Option<Time>, worker: Option<WorkerId>, payment: Option<PaymentId>)

  datatype JobRow = JobRow(sub: SubId, window: Time, deps: seq<JobId>, status: JobStatus, epoch: nat)

  /** `cron` maps a time to the next occurrence after it; None is an expression that no longer parses.
      `configOk` says whether the stored payment configuration passes validation. */
  datatype SubRow = SubRow(
    status: SubStatus, nextFire: Option<Time>, failures: nat,
    policy: RetryPolicy, configOk: bool, cron: Option<Time -> Time>)

  datatype DlqEntry = DlqEntry(run: RunId, job: JobId, sub: SubId, attempt: Attempt)

  datatype Settings = Settings(lockTimeout: real, lookahead: real, batchSize: nat)

  /** Who claimed a run, when, and the lease written at that moment. */
  datatype Claim = Claim(worker: WorkerId, lease: Time, at: Time)

  datatype SubEvent = Paid(sub: SubId) | Buried(sub: SubId) | Resumed(sub: SubId)

  /** History variables: every transaction records what it did here and no transaction reads it.
      - claims: the claim of each run that was ever moved to RUNNING
      - called: the runs for which a bank call was made
      - unsure: the runs whose bank call came back ambiguous or with an unexpected error
      - reaped: the recovery worker whose compare-and-set took each recovered run
      - resolved: the recovered runs whose follow-up transaction committed
      - stranded: the recovered runs whose follow-up never ran because the worker stopped in between
      - log: the commits that touch a subscription's failure counter */
  datatype History = History(
    claims: map<RunId, Claim>, called: set<RunId>, unsure: set<RunId>,
    reaped: map<RunId, WorkerId>, resolved: set<RunId>, stranded: set<RunId>, log: seq<SubEvent>)

  /** `byAttempt` and `byWindow` are the unique indexes uq_run_per_attempt and uq_job_fingerprint. */
  datatype Db = Db(
    cfg: Settings, now: Time,
    runs: map<RunId, RunRow>, byAttempt: map<(JobId, Attempt), RunId>,
    jobs: map<JobId, JobRow>, byWindow: map<Fingerprint, JobId>,
    subs: map<SubId, SubRow>, keys: map<IdempotencyKey, PaymentId>,
    dlq: seq<DlqEntry>, bank: map<IdempotencyKey, PaymentId>, h: History)

  function KeyOf(db: Db, r: RunId): IdempotencyKey
    requires r in db.runs
  {
    ForRun(r, db.runs[r].attempt)
  }

  predicate IsTop(db: Db, r: RunId)
    requires r in db.runs
  {
    (db.runs[r].job, db.runs[r].attempt + 1) !in db.byAttempt
  }

  /** INSERT a PENDING run ON CONFLICT (job, attempt) DO NOTHING. */
  function InsertRun(db: Db, id: RunId, job: JobId, attempt: Attempt, retryAfter: Option<Time>): Db {
    if (job, attempt) in db.byAttempt then db
    else
      db.(runs := db.runs[id := RunRow(job, attempt, Pending, None, retryAfter, None, None)],
          byAttempt := db.byAttempt[(job, attempt) := id])
  }

  function SetJobStatus(db: Db, job: JobId, status: JobStatus): Db {
    if job in db.jobs then db.(jobs := db.jobs[job := db.jobs[job].(status := status)]) else db
  }

  /** One more failure; the third in a row pauses the subscription, whatever its status was. */
  function CountFailure(row: SubRow): SubRow {
    var bumped := row.(failures := row.failures + 1);
    if bumped.failures >= PAUSE_THRESHOLD then bumped.(status := Paused) else bumped
  }

  function SetRun(db: Db, r: RunId, row: RunRow): Db {
    db.(runs := db.runs[r := row])
  }

  /** UPDATE the status of the run with this id and end its lease; no row, no change. */
  function FinishRun(db: Db, r: RunId, status: RunStatus): Db {
    if r in db.runs then SetRun(db, r, db.runs[r].(status := status, lock := None)) else db
  }

  /** The DLQ transaction. The entry's foreign key on the run rolls it back when the run has no row; nothing ties
      the entry to a subscription, whose counter is updated if it has a row. The executor leaves the run's worker
      in place, recovery clears it. */
  function MoveToDlq(db: Db, r: RunId, job: JobId, attempt: Attempt, sub: SubId, keepWorker: bool): Db {
    if r !in db.runs then db
    else
      var row := db.runs[r];
      db.(runs := db.runs[r := row.(status := Dead, lock := None, worker := if keepWorker then row.worker else None)],
          dlq := db.dlq + [DlqEntry(r, job, sub, attempt)],
          subs := if sub in db.subs then db.subs[sub := CountFailure(db.subs[sub])] else db.subs,
          h := db.h.(log := db.h.log + [Buried(sub)]))
  }

  function DeadRuns(db: Db, j: JobId): set<RunId> {
    set r | r in db.runs && db.runs[r].job == j && db.runs[r].status == Dead
  }
}
