/** The recovery worker's atomic blocks. */
module Recovery {
  import opened Domain
  import opened Tables

  /** `sub` and `policy` are the subscription loaded inside the compare-and-set transaction. */
  datatype Stub = Stub(run: RunId, job: JobId, attempt: Attempt, sub: Option<SubId>, policy: RetryPolicy)

  datatype Phase =
    | Idle
    | Reaping(ids: seq<RunId>, asOf: Time)
    | Holding(stub: Stub, ids: seq<RunId>, asOf: Time)
    | Judging(jobs: seq<JobId>)

  datatype After = After(db: Db, phase: Phase)

  /** RUNNING with a lease that ended before `asOf`. */
  predicate Stuck(db: Db, r: RunId, asOf: Time) {
    r in db.runs && db.runs[r].status == Running && db.runs[r].lock.Some? && db.runs[r].lock.value < asOf
  }

  const NO_POLICY := RetryPolicy(1, 1.0, 60.0, false)

  function SubscriptionOf(db: Db, j: JobId): Option<SubId> {
    if j in db.jobs && db.jobs[j].sub in db.subs then Some(db.jobs[j].sub) else None
  }

  /** The compare-and-set: RUNNING to FAILED in one statement that checks the lease again. */
  function ReapNext(db: Db, me: WorkerId, p: Phase): After
    requires p.Reaping? && p.ids != []
  {
    var r, rest := p.ids[0], p.ids[1..];
    if !Stuck(db, r, p.asOf) then After(db, Reaping(rest, p.asOf))
    else
      var row := db.runs[r];
      var sub := SubscriptionOf(db, row.job);
      var policy := if sub.Some? then db.subs[sub.value].policy else NO_POLICY;
      After(
        db.(runs := db.runs[r := row.(status := Failed, lock := None, worker := None)],
            h := db.h.(reaped := db.h.reaped[r := me])),
        Holding(Stub(r, row.job, row.attempt, sub, policy), rest, p.asOf))
  }

  /** The second transaction: the DLQ when the policy is exhausted, the next attempt otherwise. */
  function FollowUp(db: Db, p: Phase, id: RunId): After
    requires p.Holding?
  {
    var s := p.stub;
    var next := Reaping(p.ids, p.asOf);
    if s.sub.None? then After(db.(h := db.h.(stranded := db.h.stranded + {s.run})), next)
    else
      var resolved := db.(h := db.h.(resolved := db.h.resolved + {s.run}));
      if s.policy.IsExhausted(s.attempt)
      then After(MoveToDlq(resolved, s.run, s.job, s.attempt, s.sub.value, false), next)
      else After(InsertRun(resolved, id, s.job, s.attempt + 1, None), next)
  }

  /** A crash or an exception: a run whose follow-up has not committed is left behind. */
  function GiveUp(db: Db, p: Phase): After {
    After(if p.Holding? then db.(h := db.h.(stranded := db.h.stranded + {p.stub.run})) else db, Idle)
  }

  /** What the scan over a job's dependencies finds first: a dependency with one DEAD run, or one
      with several, for which the single-row lookup raises. */
  datatype Verdict = Clear | Orphaned(dep: JobId) | Raised

  function Judge(db: Db, deps: seq<JobId>): Verdict {
    if deps == [] then Clear
    else if deps[0] !in db.jobs || DeadRuns(db, deps[0]) == {} then Judge(db, deps[1..])
    else if |DeadRuns(db, deps[0])| == 1 then Orphaned(deps[0])
    else Raised
  }

  /** FAILED for every PENDING run of the job, CANCELLED for the job itself. */
  function FailPending(runs: map<RunId, RunRow>, j: JobId): map<RunId, RunRow> {
    map r | r in runs ::
      if runs[r].job == j && runs[r].status == Pending then runs[r].(status := Failed) else runs[r]
  }

  function CancelOrphan(db: Db, j: JobId): Db {
    SetJobStatus(db.(runs := FailPending(db.runs, j)), j, Dropped)
  }

  function JudgeNext(db: Db, p: Phase): After
    requires p.Judging? && p.jobs != []
  {
    var j, rest := p.jobs[0], p.jobs[1..];
    if j !in db.jobs then After(db, Judging(rest))
    else match Judge(db, db.jobs[j].deps)
      case Clear => After(db, Judging(rest))
      case Orphaned(_) => After(CancelOrphan(db, j), Judging(rest))
      case Raised => After(db, Idle)
  }

  /** The WHERE clause of the orphan scan. */
  predicate MaybeOrphan(db: Db, j: JobId) {
    j in db.jobs && db.jobs[j].deps != [] && db.jobs[j].status in {Waiting, Ready, Blocked}
  }
}
