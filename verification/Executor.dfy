/** The executor's atomic blocks, each as a function of the database and the worker's local state. */
module Executor {
  import opened Domain
  import opened Tables

  /** What the worker remembers of the run it holds. */
  datatype Ticket = Ticket(run: RunId, job: JobId, attempt: Attempt, sub: SubId, policy: RetryPolicy, lease: Time)

  /** Where the worker is between two transactions while it holds a run. */
  datatype Stage =
    | Claimed
    | NeedDag
    | NeedKey
    | Calling
    | Persisting(payment: PaymentId)
    | Cancelling
    | Retrying(after: Time)
    | Burying

  datatype Phase = Idle | Busy(ticket: Ticket, stage: Stage)

  datatype Worker = Worker(batch: seq<RunId>, phase: Phase)

  datatype After = After(db: Db, w: Worker)

  /** The five outcomes of a bank call. An ambiguous or unexpected one may have created the payment. */
  datatype Reply =
    | Accepted(payment: PaymentId)
    | Transient
    | Permanent
    | Ambiguous(made: Option<PaymentId>)
    | Unexpected(made: Option<PaymentId>)

  /** PENDING and its backoff has passed: the WHERE clause of the batch query. */
  predicate Due(db: Db, r: RunId) {
    r in db.runs && db.runs[r].status == Pending
    && (db.runs[r].retryAfter.None? || db.runs[r].retryAfter.value <= db.now)
  }

  /** Re-lock the next id of the batch and mark the run RUNNING, if it is still PENDING. */
  function ClaimNext(db: Db, me: WorkerId, w: Worker): After
    requires w.phase.Idle? && w.batch != []
  {
    var r, rest := w.batch[0], w.batch[1..];
    if r !in db.runs || db.runs[r].status != Pending then After(db, Worker(rest, Idle))
    else
      var row := db.runs[r];
      if row.job !in db.jobs || db.jobs[row.job].sub !in db.subs then After(db, Worker(rest, Idle))
      else
        var lease, sub := db.now + db.cfg.lockTimeout, db.jobs[row.job].sub;
        After(
          db.(runs := db.runs[r := row.(status := Running, lock := Some(lease), worker := Some(me))],
              h := db.h.(claims := db.h.claims[r := Claim(me, lease, db.now)])),
          Worker(rest, Busy(Ticket(r, row.job, row.attempt, sub, db.subs[sub].policy, lease), Claimed)))
  }

  /** Snapshot the run, its job and its subscription, and validate the payment configuration. */
  function LoadSnapshot(db: Db, w: Worker): Worker
    requires w.phase.Busy?
  {
    var t := w.phase.ticket;
    if t.run !in db.runs || t.job !in db.jobs || t.sub !in db.subs then w.(phase := Idle)
    else
      var t' := t.(policy := db.subs[t.sub].policy);
      w.(phase := Busy(t', if !db.subs[t.sub].configOk then Burying
                           else if db.jobs[t.job].deps != [] then NeedDag
                           else NeedKey))
  }

  /** Every dependency that has a row is DONE; ids without a row are passed over. */
  predicate DependenciesDone(db: Db, deps: seq<JobId>) {
    forall d :: d in deps && d in db.jobs ==> db.jobs[d].status == Done
  }

  function CheckDependencies(db: Db, w: Worker): Worker
    requires w.phase.Busy?
  {
    var t := w.phase.ticket;
    var deps := if t.job in db.jobs then db.jobs[t.job].deps else [];
    w.(phase := Busy(t, if DependenciesDone(db, deps) then NeedKey else Cancelling))
  }

  /** Look for a key stored for this (run, attempt). */
  function LookUpKey(db: Db, w: Worker): Worker
    requires w.phase.Busy?
  {
    var t := w.phase.ticket;
    var key := ForRun(t.run, t.attempt);
    w.(phase := Busy(t, if key in db.keys then Persisting(db.keys[key]) else Calling))
  }

  /** What a failure leads to: a retry with backoff, or the DLQ. `u` is the jitter draw. */
  function AfterFailure(db: Db, t: Ticket, retryable: bool, u: real): Stage {
    if retryable && !t.policy.IsExhausted(t.attempt)
    then Retrying(db.now + t.policy.NextDelay(t.attempt, u))
    else Burying
  }

  function MadeBy(reply: Reply): Option<PaymentId> {
    match reply
    case Accepted(p) => Some(p)
    case Ambiguous(m) => m
    case Unexpected(m) => m
    case _ => None
  }

  /** The bank gives one payment per key: a key it knows is answered with the payment it stands for. */
  predicate Answers(db: Db, t: Ticket, reply: Reply) {
    var key := ForRun(t.run, t.attempt);
    reply.Accepted? && key in db.bank ==> reply.payment == db.bank[key]
  }

  predicate IsUnsure(reply: Reply) { reply.Ambiguous? || reply.Unexpected? }

  /** The bank answers a call: it may record a payment under the key, and the worker classifies the reply. */
  function ReceiveReply(db: Db, w: Worker, reply: Reply, u: real): After
    requires w.phase.Busy?
  {
    var t := w.phase.ticket;
    var key, made := ForRun(t.run, t.attempt), MadeBy(reply);
    var bank := if made.Some? && key !in db.bank then db.bank[key := made.value] else db.bank;
    var h := db.h.(called := db.h.called + {t.run},
                   unsure := if IsUnsure(reply) then db.h.unsure + {t.run} else db.h.unsure);
    var stage := match reply
      case Accepted(p) => Persisting(p)
      case Permanent => AfterFailure(db, t, false, u)
      case _ => AfterFailure(db, t, true, u);
    After(db.(bank := bank, h := h), w.(phase := Busy(t, stage)))
  }

  /** The success transaction. A stored key for this (run, attempt) rolls it back, and so does the key's foreign key
      on a run without a row; a job or a subscription without a row is not updated. */
  function PersistSuccess(db: Db, w: Worker): After
    requires w.phase.Busy? && w.phase.stage.Persisting?
  {
    var t, p := w.phase.ticket, w.phase.stage.payment;
    var key := ForRun(t.run, t.attempt);
    if key in db.keys || t.run !in db.runs then After(db, w.(phase := Idle))
    else
      var row := db.runs[t.run].(status := Succeeded, payment := Some(p), lock := None);
      var db' := SetRun(db, t.run, row).(
        keys := db.keys[key := p],
        subs := if t.sub in db.subs then db.subs[t.sub := db.subs[t.sub].(failures := 0)] else db.subs,
        h := db.h.(log := db.h.log + [Paid(t.sub)]));
      After(SetJobStatus(db', t.job, Done), w.(phase := Idle))
  }

  /** FAILED run and CANCELLED job, because a dependency is not DONE. */
  function MarkDagCancelled(db: Db, w: Worker): After
    requires w.phase.Busy?
  {
    var t := w.phase.ticket;
    After(SetJobStatus(FinishRun(db, t.run, Failed), t.job, Dropped), w.(phase := Idle))
  }

  /** FAILED run and a PENDING successor that waits for its backoff. */
  function ScheduleRetry(db: Db, w: Worker, id: RunId): After
    requires w.phase.Busy? && w.phase.stage.Retrying?
  {
    var t := w.phase.ticket;
    After(InsertRun(FinishRun(db, t.run, Failed), id, t.job, t.attempt + 1, Some(w.phase.stage.after)),
          w.(phase := Idle))
  }

  function BuryRun(db: Db, w: Worker): After
    requires w.phase.Busy?
  {
    var t := w.phase.ticket;
    After(MoveToDlq(db, t.run, t.job, t.attempt, t.sub, true), w.(phase := Idle))
  }
}
