/** Value objects of the payment scheduler: statuses, keys, fingerprints and the retry policy. */
module Domain {

  datatype Option<+T> = None | Some(value: T)

  type Time = real
  type SubId = int
  type JobId = int
  type RunId = int
  type WorkerId = int
  type PaymentId = int

  /** 1-based. */
  type Attempt = n: nat | 1 <= n witness 1

  datatype SubStatus = Active | Paused | Cancelled

  datatype JobStatus = Waiting | Blocked | Ready | Done | Dropped

  datatype RunStatus = Pending | Running | Succeeded | Failed | Dead

  /** sha256 of "run:attempt", taken to be collision free. */
  datatype IdempotencyKey = ForRun(run: RunId, attempt: Attempt)

  /** sha256 of "subscription:window", taken to be collision free. */
  datatype Fingerprint = ForJob(sub: SubId, window: Time)

  const PAUSE_THRESHOLD: nat := 3

  function Min(a: real, b: real): real { if a <= b then a else b }

  function Pow2(n: nat): nat { if n == 0 then 1 else 2 * Pow2(n - 1) }

  function Jittered(delay: real, u: real): real { delay * (0.5 + u * 0.5) }

  datatype RetryPolicy = RetryPolicy(maxAttempts: nat, baseBackoff: real, maxBackoff: real, jitter: bool) {

    /** The bounds the API schema puts on a policy. */
    predicate Valid() {
      1 <= maxAttempts && 1.0 <= baseBackoff && 60.0 <= maxBackoff
    }

    /** The backoff after `attempt` failed, before jitter. */
    function Backoff(attempt: Attempt): real {
      Min(baseBackoff * Pow2(attempt - 1) as real, maxBackoff)
    }

    /** `u` is the draw of the random generator, in [0, 1). */
    function NextDelay(attempt: Attempt, u: real): real {
      if jitter then Jittered(Backoff(attempt), u) else Backoff(attempt)
    }

    predicate IsExhausted(attempt: Attempt) { maxAttempts <= attempt }
  }

  lemma SomeElement<T>(s: set<T>) returns (x: T)
    requires s != {}
    ensures x in s
  {
    x :| x in s;
  }
}
