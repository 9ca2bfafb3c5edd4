/** The tables as the workers see them: fields that transactions update in place. */
module Database {
  import opened Domain
  import opened Tables

  class Store {
    var cfg: Settings
    var now: Time
    var runs: map<RunId, RunRow>
    var byAttempt: map<(JobId, Attempt), RunId>
    var jobs: map<JobId, JobRow>
    var byWindow: map<Fingerprint, JobId>
    var subs: map<SubId, SubRow>
    var keys: map<IdempotencyKey, PaymentId>
    var dlq: seq<DlqEntry>
    /** What the bank has on its own books. */
    var bank: map<IdempotencyKey, PaymentId>
    ghost var h: History

    ghost function View(): Db
      reads this
    {
      Db(cfg, now, runs, byAttempt, jobs, byWindow, subs, keys, dlq, bank, h)
    }

    constructor (d: Db)
      ensures View() == d
    {
      cfg, now, runs, byAttempt, jobs, byWindow := d.cfg, d.now, d.runs, d.byAttempt, d.jobs, d.byWindow;
      subs, keys, dlq, bank, h := d.subs, d.keys, d.dlq, d.bank, d.h;
    }

    /** Other workers have committed, and time has passed, since this worker last looked. */
    method Meanwhile(d: Db)
      modifies this
      ensures View() == d
    {
      cfg, now, runs, byAttempt, jobs, byWindow := d.cfg, d.now, d.runs, d.byAttempt, d.jobs, d.byWindow;
      subs, keys, dlq, bank, h := d.subs, d.keys, d.dlq, d.bank, d.h;
    }

    /** INSERT INTO job_runs ... ON CONFLICT ON CONSTRAINT uq_run_per_attempt DO NOTHING. */
    method AddRun(id: RunId, job: JobId, attempt: Attempt, retryAfter: Option<Time>)
      modifies this`runs, this`byAttempt
      ensures View() == InsertRun(old(View()), id, job, attempt, retryAfter)
    {
      if (job, attempt) !in byAttempt {
        runs := runs[id := RunRow(job, attempt, Pending, None, retryAfter, None, None)];
        byAttempt := byAttempt[(job, attempt) := id];
      }
    }

    /** UPDATE job_runs SET status, lock_expires_at = NULL WHERE id. */
    method CloseRun(r: RunId, status: RunStatus)
      modifies this`runs
      ensures View() == FinishRun(old(View()), r, status)
    {
      if r in runs {
        runs := runs[r := runs[r].(status := status, lock := None)];
      }
    }

    /** UPDATE scheduled_jobs SET status WHERE id. */
    method MarkJob(job: JobId, status: JobStatus)
      modifies this`jobs
      ensures View() == SetJobStatus(old(View()), job, status)
    {
      if job in jobs {
        jobs := jobs[job := jobs[job].(status := status)];
      }
    }

    /** Count one more failure, read the counter back, and pause at the threshold; no row, no change. */
    method AddFailure(sub: SubId)
      modifies this`subs
      ensures View() == old(View()).(
        subs := if sub in old(subs) then old(subs)[sub := CountFailure(old(subs)[sub])] else old(subs))
    {
      if sub !in subs {
        return;
      }
      subs := subs[sub := subs[sub].(failures := subs[sub].failures + 1)];
      var refreshed := subs[sub];
      if refreshed.failures >= PAUSE_THRESHOLD {
        subs := subs[sub := refreshed.(status := Paused)];
      }
      assert old(subs)[sub := CountFailure(old(subs)[sub])] == subs;
    }

    /** The dead-letter transaction: close the run, add the entry, count the failure. */
    method Bury(r: RunId, job: JobId, attempt: Attempt, sub: SubId, keepWorker: bool)
      modifies this
      ensures View() == MoveToDlq(old(View()), r, job, attempt, sub, keepWorker)
    {
      if r !in runs {
        return;
      }
      var row := runs[r];
      runs := runs[r := row.(status := Dead, lock := None, worker := if keepWorker then row.worker else None)];
      dlq := dlq + [DlqEntry(r, job, sub, attempt)];
      AddFailure(sub);
      h := h.(log := h.log + [Buried(sub)]);
    }
  }
}
