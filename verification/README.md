# Verified model of the payment scheduler

This project models how the scheduler turns recurring payments into jobs, how any number of executors
and recovery workers carry those jobs through the database and the bank, and how the workers elect a leader.
It proves what holds of every interleaving, and gives a concrete run for each promise that does not hold.

## How it is built

*The tables and the transactions.* `Domain` holds the value objects (statuses, keys, the retry policy), `Tables`
the rows, the two unique indexes, the bank and the clock as one value `Db`. `Executor`, `Recovery` and `Scheduler`
say what each transaction does to a `Db`. The workers themselves are classes over mutable tables:
`Database.Store`, `ExecutorProcess.ExecutorWorker`, `RecoveryProcess.RecoveryWorker`, `SchedulerProcess.SchedulerWorker`,
`LeaderElection.Election` and `StateMachine.JobRunStateMachine`, with the loops and early returns of the source;
every method is proved equal to the function that specifies it, and the methods that string transactions together
are proved to take protocol steps only, whatever other workers commit in between.

*The protocol.* `Protocol` is a labelled transition system. A label is one committed transaction of one worker
(or the clock moving, or an API route, or a job created with dependencies). Any number of executors and recovery
workers interleave; a worker may stop for good, or drop what it holds, between any two transactions. `Mode`
carries the two assumptions that some theorems need: `leases` (an executor's finishing transaction commits no later
than the lease it wrote when it claimed, or never; this is what app/core/config.py:56-59 asks of the settings) and
`depsExist` (the dependencies of a job have rows when the job is created). A theorem that takes any `m: Mode`
needs neither: executors that outlive their lease are included. `Trace(m, ss, ls)` is a run from empty tables, so a
theorem over a trace is a statement about every reachable state.

*History.* `Tables.History` records claims, bank calls, unsure replies, recoveries and the commits that touch a
failure counter. Transactions write it and never read it.

*The theorems.*

| module | what it establishes | assumptions |
|---|---|---|
| `Safety`, `Attempts` | attempts are 1..k without gaps, one live run and it is the last, claimed once, recovered once | none |
| `Payments` | one bank call per key, key gate never hit, bound on duplicate payments | none |
| `Settlement`, `Stranding` | no job is lost except by a recovery worker that stops between its transactions; then it is lost for good | none; leases for "for good" |
| `Settling`, `Payable` | from every reachable state a job that was not left behind can be made DONE, CANCELLED or DEAD in a number of steps linear in its attempts, and can be made DONE while an attempt is left | none |
| `Records` | what a row shows of its claim, its worker and its payment, and a dead letter of its run, is true | none |
| `Replies` | what the bank answers decides the finishing transaction and bounds the retry time; the bank is called only under a valid configuration | none |
| `Subscriptions` | everything that changes a subscription's status, and that an inactive one gets no job | none |
| `Scans` | what each query selects, said of the rows; when recovery cancels a job | none; leases for the cancellation |
| `Dag` | every ancestor is paid before a job's bank call | dependencies exist |
| `DependencyCheck` | exactly when the dependency check lets an unpaid dependency pass | none |
| `FailureCounter`, `Backoff`, `Termination` | counter is the failure streak, retries are spaced, linear bound on changes, no deadlock | none |
| `JobWrites`, `LateCancel` | exactly when a DONE or CANCELLED job changes its status, and a run in which one does | none |
| `Duplicates` | what precedes a second payment | none |
| `Zombies` | exactly when a status write of any worker is one the table forbids, and a SUCCEEDED or DEAD row is overwritten | none |
| `Leases`, `Outcome`, `Refinement`, `LegalWrites`, `JobOutcome` | ladder simulation, transition table, one outcome per job, dead letters | leases (dependencies exist, where jobs are concerned) |
| `Schedule` | which occurrences get a job | none |
| `Leader` | disjoint ownership, exclusive verification, order of epochs | none |
| `Counterexamples` | runs in which a documented promise fails, with the condition under which it holds | as stated |

The proofs are by rely and guarantee: each transaction keeps the database sound and promises the other workers that what they
remember stays true (`Safety.Guarantee`); `Frames` says which tables a transaction leaves alone.

## Where the code and its documentation disagree

The model follows the code.

- README.md:811 says a re-execution after a crash sends the same key. The next attempt is a new row, so its key
  differs; `Counterexamples.CrashPaysTwice` is a run with two payments, `Counterexamples.CallPaysAnew` the exact
  condition, `Payments.PaymentBound` the bound that does hold.
- README.md:788 and README.md:248 speak of blocked jobs. A job whose dependency is not DONE is cancelled
  (app/workers/executor.py:303-306).
- README.md:541 speaks of a token per acquisition. The token belongs to the process (app/infrastructure/redis/leader.py:68).
- README.md:32 says a recovered run is reset to PENDING. It becomes FAILED and a new attempt is inserted
  (app/workers/recovery.py:168-186 and 236-251). No step ever returns a row to PENDING.
- app/core/config.py:50 says the lookahead avoids missed fires. A tick inside the lookahead leaves next_fire_at where it is, and
  `Counterexamples.EarlyTickSkips` is a run in which the following occurrence is then missed.
- app/domain/models.py:203 calls the jitter full; it draws from the upper half of the delay.

## Model

| member | source | states |
|---|---|---|
| Refinement.SimulatesLadder | app/workers/executor.py:202-601 | With leases: every step of any worker leaves a job on its rung or moves it one rung up the sequential ladder Waits(n), Executes(n), then Pays, Dies, Stops or Waits(n+1), by way of Recovers(n) after a recovery |
| Refinement.OutcomeIsFinal | app/workers/executor.py:392-596 | With leases: a job that is paid, dead or stopped stays on that rung for ever and gets no later attempt |
| Refinement.WritesFollowTable | app/domain/jobs/state_machine.py:41-57 | With leases: every change of an existing row's status is a transition of the table, and never FAILED to PENDING |
| LegalWrites.EveryWriteIsListed | app/domain/jobs/state_machine.py:41-57 | With leases: every status any step of any worker writes to a row, changed or not, is one the table lists for the row's status |
| Refinement.AtMostThreeChanges | app/domain/jobs/state_machine.py:41-57 | With leases: over any stretch of any run a row changes its status at most three times, and at most as often as the rank of where it ends |
| Zombies.ForbiddenWriteIff | app/workers/recovery.py:366-378 | In every mode, over every step of every worker: a step writes a status the table forbids if and only if an executor finishes a run that recovery has taken, other than from FAILED to DEAD, or recovery's second transaction buries a run that is no longer FAILED |
| Zombies.TerminalOverwrittenIff | app/workers/executor.py:547-558 | In every mode a SUCCEEDED or DEAD row changes its status exactly by such a write of another status |
| Zombies.WritesAreAll | app/workers/executor.py:253-262 | The status writes the two theorems speak of are all there are: what they name is written, and a row whose status changed was written |
| Zombies.FinishFindsRunningIff | app/workers/executor.py:426-440 | In every mode a finishing transaction of an executor finds its run RUNNING exactly when recovery has not taken it |
| Replies.FinishFollowsReply | app/workers/executor.py:318-340 | Zombies included: the finishing transaction of a run whose bank call was answered, whenever it comes, is stored iff the reply was a success, dead iff it was permanent or no attempt is left, retried iff it was transient, ambiguous or unexpected with attempts left, and is made by the same worker |
| Replies.ReplyDecides | app/workers/executor.py:318-338 | At every bank call: the next stage for each reply, the window of the retry time, the payment the bank's books gain, and which replies count as unsure |
| Replies.RetryWaits | app/workers/executor.py:490-516 | The next attempt's retry time lies, counted from the bank call, between the least and the unjittered delay of the failed attempt |
| Replies.CalledWithValidConfig | app/workers/executor.py:294-299 | In every reachable state the bank is called only for a subscription whose payment configuration is valid |
| Replies.InvalidConfigIsBuried | app/workers/executor.py:294-299 | A run loaded under an invalid configuration is finished, if ever, by the dead-letter transaction of the same worker |
| Replies.DecisionHolds | app/workers/executor.py:273-340 | Once a worker has decided how to finish a run, every later finishing transaction on that run is its own and the one decided |
| Payments.PaymentBound | app/workers/executor.py:318-338 | Zombies included: payments made for a job are at most 1 plus its runs with an ambiguous or unexpected reply plus its recovered runs |
| Payments.PaidRunFollowedIff | app/workers/recovery.py:236-251 | Zombies included: a further attempt follows a run if and only if its executor commits a retry or its recovery worker a follow-up that is not exhausted; for a run paid already the retry comes from an unsure reply |
| Duplicates.TwicePaidHasCause | app/workers/executor.py:490-518 | Zombies included: a job with two payments has a paid run that an executor's retry or recovery's follow-up followed at an earlier step |
| Duplicates.SuccessorHasCause | app/workers/recovery.py:236-251 | Every run that is not its job's last was followed by one such step |
| Payments.CalledAtMostOnce | app/workers/executor.py:308-326 | Zombies included: two bank calls for the same run are the same step, so a key is sent at most once |
| Payments.KeyGateNeverHit | app/workers/executor.py:409-424 | In every reachable state the pre-check finds no key, and the gate insert meets none and leaves the run SUCCEEDED with its key stored |
| Counterexamples.CrashPaysTwice | README.md:807-813 | A run from empty tables, every lease respected, in which the executor stops after the bank accepted and the job is paid twice |
| Counterexamples.CallPaysAnew | app/workers/executor.py:508-515 | A call that makes a payment always makes a further one: it pays a job again if and only if the job has been paid before |
| Counterexamples.ZombieOverwrites | app/workers/executor.py:426-440 | Without leases, a run in which a FAILED, recovered row becomes SUCCEEDED and its job DONE while the next attempt is PENDING |
| Counterexamples.RecoveryOverwritesSucceeded | app/workers/recovery.py:368-378 | Without leases, a run in which recovery's second transaction writes DEAD over SUCCEEDED, and the job is DONE, paid and in the dead-letter queue |
| Counterexamples.ZombieOverwritesDead | app/workers/executor.py:426-440 | Without leases, a run in which the executor writes SUCCEEDED over DEAD |
| Counterexamples.CrashStrands | app/workers/recovery.py:202-207 | A run in which a recovery worker stops after its compare-and-set and the job is left behind |
| Counterexamples.MissingDependencyPasses | app/workers/executor.py:354-363 | A run in which a job goes on to the bank though its only dependency has no row |
| Counterexamples.EarlyTickSkips | app/workers/scheduler.py:248-271 | A run with a tick in every stretch from an occurrence's entering the lookahead to the next occurrence, and an occurrence without a job |
| Attempts.AttemptsAreOneToK | app/workers/executor.py:490-518 | Zombies included: the attempts of a job's rows are exactly 1..k, each once, and only attempt k is PENDING or RUNNING |
| Records.ClaimedIff | app/workers/executor.py:218-263 | A claim takes the next id of a batch exactly when its run is still PENDING, however stale the batch; the run is then RUNNING under the worker's name until one lock timeout from now |
| Attempts.ClaimedAtMostOnce | app/workers/executor.py:218-263 | Despite stale batches a run goes from PENDING to RUNNING at most once in any run |
| Attempts.RecoveredAtMostOnce | app/workers/recovery.py:168-190 | However many workers race, a run is recovered at most once, and only after the lease of its claim has ended |
| Attempts.FollowedUpAtMostOnce | app/workers/recovery.py:222-251 | A recovery has at most one follow-up: one dead letter and no row when the policy is exhausted, else no dead letter, at most one row, and the next attempt is there |
| JobOutcome.OneOutcome | app/workers/executor.py:392-452 | With leases and existing dependencies: a job is DONE iff it has a SUCCEEDED run and iff it has a key; then exactly one of each, on the last attempt, and no DEAD run; no job has two DEAD runs |
| JobOutcome.SettledForever | app/workers/recovery.py:320-342 | With leases and existing dependencies: DONE and CANCELLED are never overwritten |
| JobWrites.SettledOverwrittenIff | app/workers/recovery.py:320-342 | In every mode a DONE or CANCELLED job stays one or the other, and changes its status exactly when an executor stores a payment for a CANCELLED one or cancels a DONE one, or a recovery worker's verdict cancels a DONE one |
| JobWrites.StepWritesJob | app/workers/executor.py:436-473 | The writes of a job's status are the success transaction, the executor's cancellation and recovery's: what they name is written, and a job whose status changed was named |
| LateCancel.DoneIsCancelled | app/workers/recovery.py:293-342 | A run, every lease respected, in which a DONE and paid job is cancelled: its dependency had no row when the job was created |
| JobOutcome.DeadLettersMatch | app/workers/recovery.py:309-318 | With leases: DEAD rows and dead-letter entries are in bijection, and the scan's single-row lookup never meets two rows |
| DependencyCheck.PassesUnpaidIffMissing | app/workers/executor.py:354-363 | In every mode and every reachable state: when the check sends a job on to the bank, some dependency is unpaid if and only if some id in depends_on has no row |
| JobOutcome.CheckDecidesByPayment | app/workers/executor.py:301-306 | With leases and existing dependencies: the dependency check sends a job to the bank exactly when every dependency has its payment on record, and else to cancellation |
| Scans.OrphanCancelledIff | app/workers/recovery.py:293-350 | With leases: recovery's pass over a job cancels it and fails its PENDING runs exactly when some dependency has a DEAD run, changes nothing otherwise, and goes on with the next job either way |
| Scans.JudgeIff | app/workers/recovery.py:300-350 | In any state: the verdict is clear exactly when no dependency with a row has a DEAD run, and else names the first that has, or raises when that one has several |
| Scans.TakenIff | app/workers/recovery.py:166-202 | The compare-and-set takes the next candidate exactly when it is still RUNNING under a lease that ended before the scan; the run is then FAILED, without lease and worker, and held |
| Settlement.NoJobLost | app/workers/recovery.py:202-254 | In every reachable state a job is DONE or CANCELLED, or its last run is DEAD, PENDING, RUNNING under a lease, or held by a recovery worker; otherwise a recovery worker left it behind |
| Stranding.StrandedByStoppingIff | app/workers/recovery.py:202-254 | A step leaves a run behind if and only if it is a recovery worker stopping while it holds that run |
| Stranding.LostIff | app/workers/recovery.py:202-254 | Read off the tables and the workers, in every mode: a step leaves an open job with a FAILED last run that no recovery worker holds if and only if it is the worker that holds that run stopping |
| Stranding.StrandedForever | app/workers/recovery.py:202-254 | With leases: a run left behind stays FAILED and last for ever; its job is never DONE and gets no key and no dead letter, whether or not dependencies exist |
| Dag.AncestorsPaidFirst | app/workers/executor.py:354-363 | Zombies included: when the bank is called for a job, every ancestor along any dependency path has its key on record |
| FailureCounter.CounterIsStreak | app/workers/executor.py:572-588 | The counter equals the dead-letter commits since the last success or resume; the log of commits is the dead-letter table entry by entry, and its successes of a subscription are as many as that subscription's keys; at three the subscription is not ACTIVE |
| Subscriptions.StatusChanges | app/workers/executor.py:572-588 | Everything one step of anyone can do to a subscription's status: a resume makes it ACTIVE, the delete route CANCELLED, an unreadable cron expression PAUSED, and so does a dead letter if and only if it is at least the third failure in a row |
| Subscriptions.InactiveGetsNothing | app/workers/scheduler.py:141-147 | A subscription that is not ACTIVE stays so until it is resumed, gets no job and keeps its next fire time, whatever schedulers do |
| Subscriptions.OnlyActiveFire | app/workers/scheduler.py:141-147 | A tick processes a subscription only while it is ACTIVE with its next fire time within the lookahead |
| Subscriptions.BornActive | app/api/routes/subscriptions.py:123-137 | A subscription is born ACTIVE and without failures |
| Subscriptions.BornOfTick | app/workers/scheduler.py:201-236 | A job that a tick creates is READY, without dependencies, for the window at which next_fire_at stood and stamped with the epoch; its first run is PENDING, unclaimed and due at once |
| Records.RowsTellTheTruth | app/infrastructure/db/models.py:113-190 | Zombies included: a row has a lease exactly while RUNNING, and then its claim's; it shows a payment exactly when its key is stored, and then the stored one, which is the bank's |
| Records.RowsNameTheirWorkers | app/infrastructure/db/models.py:123-126 | Zombies included: a row names the worker that claimed it until recovery takes the run, and none otherwise; a lease ends one lock timeout after its claim |
| Records.DeadLettersNameTheirRuns | app/workers/executor.py:559-571 | Every dead letter names a run together with that run's job, attempt and subscription |
| Termination.ChangesBounded | app/workers/executor.py:487-536 | Zombies included: after its creation the runs of a job with M attempts change at most 4M times, and what is used up is gone for good |
| Settling.CanBeSettled | app/workers/recovery.py:117-263 | From every reachable state with an idle executor and an idle recovery worker, a job whose last run was not left behind has a continuation that makes it DONE or CANCELLED, or its last run DEAD, and leaves nothing behind: at most 24 steps for each attempt allowed, at most 4 of which change its runs |
| Payable.CanBePaid | app/workers/executor.py:202-452 | From every reachable state, an open job whose last run is PENDING, or has an attempt left and was not left behind, with a valid payment configuration and its existing dependencies DONE, has a continuation of at most 12 steps that makes it DONE and leaves nothing behind |
| Termination.AttemptsBounded | app/domain/models.py:214-221 | No run ever has an attempt beyond the policy's maximum |
| Termination.CanMoveOn | app/workers/recovery.py:117-155 | From every reachable state an idle executor and an idle recovery worker can change a run of any job that is not settled, dead or left behind |
| Backoff.DelayBounds | app/domain/models.py:195-212 | Every draw gives a delay of at least half the unjittered one and at most it, below it exactly when there is jitter, never over the cap |
| Backoff.DelaysGrow | app/domain/models.py:195-212 | The next delay is longer whatever is drawn if and only if the next doubling stays under the cap (jitter), or the cap is not reached yet (no jitter) |
| Backoff.DelaySums | app/domain/models.py:195-212 | The first k delays sum to at least half and at most the whole of the unjittered ones, which are at most base*2^k - base and k*max |
| Backoff.RetriesAreSpaced | app/workers/executor.py:490-516 | A chain of executor-scheduled retries claims attempt n no earlier than the claim of attempt 1 plus half the sum of the unjittered delays, though the claim does not look at the retry time again |
| Schedule.JobsAreTheOccurrencesPassed | app/workers/scheduler.py:248-271 | All occurrences that next_fire_at has passed have a job if and only if a tick fell at or after each and before the next; whatever is new is an occurrence |
| Schedule.OccurrenceCovered | app/workers/scheduler.py:141-151 | The occurrence after o gets its job exactly when a tick fell in [o, next(o)) |
| Schedule.TickSkips | app/workers/scheduler.py:291-295 | A tick passes an occurrence without a job exactly when that occurrence follows next_fire_at, is not in the future and had none |
| Schedule.FireNeverDecreases | app/workers/scheduler.py:267-271 | With any number of schedulers and resumes next_fire_at never goes back |
| Schedule.OneJobPerWindow | app/workers/scheduler.py:198-236 | At most one job per subscription and window, and every job has its attempt 1 |
| Schedule.StepMovesFire | app/api/routes/subscriptions.py:224-242 | Ticks and resumes set next_fire_at to the first occurrence after now; no other step of any worker moves it |
| Schedule.StepAddsWindow | app/infrastructure/db/models.py:101-106 | A window gets a job only from a tick that finds next_fire_at there, or from a job made by other means |
| Leader.OwnershipIsDisjoint | app/infrastructure/redis/leader.py:90-119 | The owned times of two successful SET NX never overlap |
| Leader.LeaseIsTheHolders | app/infrastructure/redis/leader.py:196-228 | Only the clock or the holder's own release ends its lease; nobody else's command touches the key |
| Leader.AcquiresIff | app/infrastructure/redis/leader.py:101-107 | SET NX takes the key, for one time to live, exactly when no process holds it, and changes nothing otherwise |
| Leader.BeatAndVerify | app/infrastructure/redis/leader.py:157-170 | A renewal gives the holder one time to live from now; the answer of a renewal or a verification takes the flag and the heartbeat down exactly when the key is not the process's own |
| Leader.ReleaseFrees | app/infrastructure/redis/leader.py:121-141 | A release by the holder frees the key at once, touches nobody else's, and takes the flag down |
| Leader.LeaderCanBeat | app/infrastructure/redis/leader.py:115-118 | In every reachable state a process that leads, lives and is not leaving has its heartbeat, and its next turn can be taken |
| Leader.BeatingLeaderStays | app/infrastructure/redis/leader.py:174-213 | A leader that renews before each expiry is deposed by nobody: it keeps the key, its flag and its epoch whatever the others do |
| Leader.VerifiedLeader | app/infrastructure/redis/leader.py:143-170 | Whoever passes is inside the latest win of all and carries its epoch, larger than every epoch stamped in time; nobody else passes in the same state |
| Leader.NoPassBeforeNextWin | app/infrastructure/redis/leader.py:160-168 | A process whose flag went down, by a refused verification, a failed heartbeat or a release, passes no verification until it has won the key again, and then under the epoch of that later win |
| Leader.EpochsFollowWins | app/infrastructure/redis/leader.py:230-231 | Epochs are unique, and wins stamped inside their lease have smaller epochs than all later ones |
| Leader.IncrBreaksOrderIff | app/infrastructure/redis/leader.py:108-110 | An INCR breaks the order of wins if and only if a later win has been stamped already, and inside the lease none has |
| Leader.LateIncrInverts | app/infrastructure/redis/leader.py:102-110 | A run with two processes in which the earlier win gets the larger epoch and both believe they lead |
| Safety.Step | app/workers/executor.py:202-601 | Every step of anyone keeps the invariant, deletes and rekeys nothing, returns no row to PENDING and keeps its promises to the other workers |
| Safety.Always | app/workers/recovery.py:157-263 | The invariant holds in every reachable state |
| Safety.GrowsAlong | app/infrastructure/db/models.py:113-190 | Rows, keys, dead letters and bank payments are never lost between any two states of a run |
| Leases.StepTouches | app/workers/executor.py:497-506 | In every mode a row changes, and a run gets a successor, only by the hand of the executor that claimed it or the worker that recovered it |
| Leases.LeaseStep | app/core/config.py:54-59 | In every mode a run inside the lease of its claim stays RUNNING until its executor finishes it |
| ExecutorProcess.ExecutorWorker.FetchPendingRunIds | app/workers/executor.py:137-174 | The batch is the first rows, in order and up to the batch size, that are PENDING with their backoff over |
| Query.PickedIsABatch | app/workers/executor.py:152-165 | Only qualifying rows are picked, at most the limit, and one is left out only when the batch is full |
| Query.PickedAreFirst | app/workers/executor.py:163-164 | What is picked from an order is all that qualifies in a beginning of it, in that order |
| Scans.FetchSelects | app/workers/executor.py:152-165 | The executor fetches PENDING runs whose backoff is over, and leaves one out only when the batch is full |
| Scans.FetchedAreRipe | app/workers/executor.py:152-165 | Over whole runs, every id of a fetched batch is PENDING with its backoff over when it is fetched |
| Scans.StuckSelects | app/workers/recovery.py:125-139 | Recovery finds the RUNNING runs whose lease ended before the scan, and leaves one out only when it has found its fill |
| Scans.OrphansSelect | app/workers/recovery.py:274-288 | The orphan scan finds the jobs that are neither DONE nor CANCELLED and have dependencies |
| ExecutorProcess.ExecutorWorker.Claim | app/workers/executor.py:218-263 | The claim transaction, including a run that is gone, taken or without a job or subscription |
| ExecutorProcess.ExecutorWorker.Load | app/workers/executor.py:275-299 | The snapshot and the branch on an invalid payment configuration |
| ExecutorProcess.ExecutorWorker.CheckDagDependencies | app/workers/executor.py:354-363 | True iff every dependency that has a row is DONE |
| ExecutorProcess.ExecutorWorker.Dispatch | app/workers/executor.py:318-338 | The bank's books and the next stage for each of the five kinds of reply |
| ExecutorProcess.ExecutorWorker.Decide | app/workers/executor.py:487-492 | Retry with backoff if retryable and not exhausted, else the dead-letter queue |
| ExecutorProcess.ExecutorWorker.PersistSuccess | app/workers/executor.py:392-447 | The success transaction: stored iff the key was new and its run has a row, a conflict iff the key was there, an exception otherwise; a job or subscription without a row is not updated |
| ExecutorProcess.ExecutorWorker.MarkDagCancelled | app/workers/executor.py:454-473 | FAILED run and CANCELLED job, nothing else |
| ExecutorProcess.ExecutorWorker.ScheduleRetry | app/workers/executor.py:495-518 | FAILED run and the next attempt, unless it is there already |
| ExecutorProcess.ExecutorWorker.MoveToDlq | app/workers/executor.py:538-596 | DEAD run, one dead letter, one more failure, a pause at three |
| ExecutorProcess.ExecutorWorker.ExecuteRun | app/workers/executor.py:273-340 | Along every branch, whatever others commit in between, a claimed run is driven by protocol steps to one finishing transaction, or to the transaction that raises, which leaves the tables as it found them |
| ExecutorProcess.ExecutorWorker.ProcessRun | app/workers/executor.py:202-271 | One id of a batch is consumed by protocol steps, or one of its transactions raises |
| ExecutorProcess.ExecutorWorker.TryRun | app/workers/executor.py:188-196 | An exception is caught and the rest of the batch kept: one id is consumed by protocol steps either way |
| ExecutorProcess.ExecutorWorker.ProcessBatch | app/workers/executor.py:176-196 | The fetch and the whole batch, one id after the other whatever raises: from an empty batch to an empty batch by protocol steps |
| Database.Store.AddRun | app/workers/executor.py:507-517 | The insert that does nothing when the attempt exists |
| Database.Store.Bury | app/workers/recovery.py:366-413 | The dead-letter transaction of both workers |
| Database.Store.AddFailure | app/workers/executor.py:572-588 | The counter goes up by one, and the status to PAUSED from three on |
| RecoveryProcess.RecoveryWorker.FindStuckRuns | app/workers/recovery.py:125-139 | At most 50 RUNNING rows whose lease ended before the scan, oldest first |
| RecoveryProcess.RecoveryWorker.Take | app/workers/recovery.py:166-202 | The compare-and-set takes the run iff it is still RUNNING with an ended lease |
| RecoveryProcess.RecoveryWorker.FollowUp | app/workers/recovery.py:207-254 | The dead letter when the policy is exhausted, else the next attempt without backoff |
| RecoveryProcess.RecoveryWorker.RecoverSingleRun | app/workers/recovery.py:157-263 | True iff this worker took the run; two commits then, one otherwise, each a protocol step |
| RecoveryProcess.RecoveryWorker.RecoverStuckRuns | app/workers/recovery.py:144-153 | The counter is the number of candidates taken, and all candidates are consumed by protocol steps |
| RecoveryProcess.RecoveryWorker.FindOrphans | app/workers/recovery.py:274-288 | At most 100 unsettled jobs with dependencies, in order of creation |
| RecoveryProcess.RecoveryWorker.EvaluateDagJob | app/workers/recovery.py:293-350 | Cancels the job and fails its PENDING runs iff the first dependency with DEAD rows has exactly one; raises iff it has more |
| RecoveryProcess.RecoveryWorker.CancelOrphanedDagJobs | app/workers/recovery.py:267-291 | The jobs are judged one after the other by protocol steps, up to the first that raises |
| SchedulerProcess.SchedulerWorker.CreateJobForSubscription | app/workers/scheduler.py:184-271 | The deduplicated job with its first run, and the advanced schedule or the pause |
| SchedulerProcess.SchedulerWorker.ScheduleDueSubscriptions | app/workers/scheduler.py:114-171 | Nothing is written when either check of leadership fails or nothing is due; else the jobs of the first 100 due subscriptions |
| SchedulerProcess.TickServesTheDue | app/workers/scheduler.py:139-171 | A tick whose query is not cut short gives every ACTIVE subscription with its next fire time within the lookahead its job and moves its schedule on, and leaves every other subscription alone |
| SchedulerProcess.SchedulerWorker.FindDueSubscriptions | app/workers/scheduler.py:141-151 | At most 100 ACTIVE subscriptions within the cutoff, by next fire time |
| SchedulerProcess.TickIsARun | app/workers/scheduler.py:139-171 | What a tick commits is what the protocol reaches by one step for each due subscription |
| StateMachine.TargetsIff | app/domain/jobs/state_machine.py:41-57 | Who may come before whom: RUNNING after PENDING only, SUCCEEDED after RUNNING only, DEAD after RUNNING or FAILED, FAILED after PENDING or RUNNING, PENDING after FAILED only |
| StateMachine.JobRunStateMachine.TransitionTo | app/domain/jobs/state_machine.py:86-125 | A listed transition is applied with its cut message, any other refused with the row unchanged; the rank rises |
| StateMachine.JobRunStateMachine.AssertInState | app/domain/jobs/state_machine.py:127-138 | Passes iff the status is one of those allowed |
| StateMachine.AtMostThreeChanges | app/domain/jobs/state_machine.py:41-57 | A chain of table transitions that never returns to PENDING has at most three steps |
| LeaderElection.Election.SendSet | app/infrastructure/redis/leader.py:102-107 | SET NX PX as a step of the election; True iff the key was free |
| LeaderElection.Election.TakeEpoch | app/infrastructure/redis/leader.py:108-118 | INCR, then the flag and the heartbeat |
| LeaderElection.Election.TryAcquire | app/infrastructure/redis/leader.py:90-119 | True iff already leader or the key was free; the epoch is the counter as others left it, plus one |
| LeaderElection.Election.VerifyStillLeader | app/infrastructure/redis/leader.py:143-170 | True iff the flag is up and the key is this process's; else it steps down |
| LeaderElection.Election.Renew | app/infrastructure/redis/leader.py:196-213 | The renewal script extends the key iff it carries this token |
| LeaderElection.Election.Beat | app/infrastructure/redis/leader.py:182-194 | One turn of the heartbeat as a step of the election |
| LeaderElection.Election.HeartbeatLoop | app/infrastructure/redis/leader.py:174-194 | Renews at every wake-up that finds the flag up and its token in the key, and stops for good at the first that does not: without a command when another coroutine has taken the flag down, leaving the key alone when it is another's |
| LeaderElection.Election.Release | app/infrastructure/redis/leader.py:121-141 | Both release steps of the election, whatever other processes and coroutines do between them; nothing when not leader |
| LeaderElection.Election.SendDelete | app/infrastructure/redis/leader.py:215-228 | The heartbeat is stopped and the key deleted iff it is this process's, as a step of the election |

## Left out

- Database.Store.Meanwhile: has no counterpart in the source; it puts the tables into the state other workers have left them in when a transaction begins, and the proofs hold for every such state.
- ExecutorProcess.ExecutorWorker.ProcessBatch: an exception of the fetch itself, which ends the tick before anything is processed, is not a branch of the method.
- RecoveryProcess.RecoveryWorker.EvaluateDagJob: reads all dependencies in one state; the source reads them one after the other in one transaction.
- SchedulerProcess.SchedulerWorker.ScheduleDueSubscriptions: all subscriptions of a tick use one reading of the clock, as one transaction; in the protocol each is a step of its own, so other workers and the clock may come between.
- Lists by creation time, `SKIP LOCKED` and row locks: the order of rows a query sees is a parameter, and commit blocks are atomic.
- The bank's HTTP interface, response parsing and rate limits: the bank is a map from keys to payments with five kinds of reply; transient and permanent replies mean no payment was made.
- sha256 and uuid4: keys and fingerprints are injective constructors, and new ids are not in use.
- Cron parsing, time zones and daylight saving: a cron expression is a function from a time to the next occurrence.
- The PATCH route of subscriptions: it can set ACTIVE without resetting the counter, and can change the schedule and the policy.
- The columns finished_at, started_at, error_message (except in the state machine), paused_at and the snapshot in a dead letter: nothing reads them.
- created_by_epoch: recorded with a job, read by nothing in the source.
- Leadership of scheduler and recovery workers in the protocol: both are allowed to run without leading, so what is proved does not depend on the election. They share one leader key (app/core/constants.py:24), so no claim is made that recovery gets to run.
- Payment configuration validation: a flag on the subscription. The API schema's bounds on retry policies are assumed of every policy.
- Integer widths and floating point: counters are unbounded and times are reals.
- The API's other routes, the dead-letter resolve route, logging, metrics, tracing, settings, migrations and process signals: no property lives there.
