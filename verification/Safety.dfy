/** What every interleaving keeps, with no assumption on timing: executors may outlive their lease.
    The proof is by rely and guarantee: each transaction keeps the database sound and promises the
    other workers that what they remember stays true. */
module Safety {
  import opened Domain
  import opened Tables
  import opened Protocol
  import E = Executor
  import R = Recovery
  import S = Scheduler

  type Runs = map<RunId, RunRow>
  type Index = map<(JobId, Attempt), RunId>

  /** uq_run_per_attempt lists exactly the rows there are. */
  ghost predicate RunIndex(runs: Runs, idx: Index) {
    && (forall r :: r in runs ==> (runs[r].job, runs[r].attempt) in idx && idx[(runs[r].job, runs[r].attempt)] == r)
    && (forall k {:trigger idx[k]} :: k in idx ==> idx[k] in runs && runs[idx[k]].job == k.0 && runs[idx[k]].attempt == k.1)
  }

  predicate HasAttempt(idx: Index, j: JobId, n: Attempt) { (j, n) in idx }

  ghost predicate NoGaps(idx: Index) {
    forall j: JobId, n: Attempt :: HasAttempt(idx, j, n) ==> n == 1 || (j, n - 1) in idx
  }

  predicate Live(row: RunRow) { row.status == Pending || row.status == Running }

  /** Only the last attempt of a job can be PENDING or RUNNING. */
  ghost predicate LiveTop(runs: Runs, idx: Index) {
    forall r {:trigger Live(runs[r])} :: r in runs && Live(runs[r]) ==> (runs[r].job, runs[r].attempt + 1) !in idx
  }

  ghost predicate References(runs: Runs, idx: Index, jobs: map<JobId, JobRow>, subs: map<SubId, SubRow>) {
    && (forall r :: r in runs ==> runs[r].job in jobs)
    && (forall j :: j in jobs ==> jobs[j].sub in subs && (j, 1) in idx)
  }

  /** uq_job_fingerprint lists exactly the jobs there are. */
  ghost predicate JobIndex(jobs: map<JobId, JobRow>, byWindow: map<Fingerprint, JobId>) {
    && (forall j :: j in jobs ==>
          ForJob(jobs[j].sub, jobs[j].window) in byWindow && byWindow[ForJob(jobs[j].sub, jobs[j].window)] == j)
    && (forall f :: f in byWindow ==>
          byWindow[f] in jobs && jobs[byWindow[f]].sub == f.sub && jobs[byWindow[f]].window == f.window)
  }

  ghost predicate ClaimsOk(runs: Runs, claims: map<RunId, Claim>, now: Time) {
    && (forall r :: r in runs && runs[r].status == Pending ==> r !in claims)
    && (forall r :: r in runs && runs[r].status == Running ==> r in claims && runs[r].lock == Some(claims[r].lease))
    && (forall r :: r in claims ==> r in runs && claims[r].at <= now)
  }

  /** A recovered run was claimed, is no longer live, and had let its lease run out. */
  ghost predicate ReapsOk(runs: Runs, claims: map<RunId, Claim>, reaped: map<RunId, WorkerId>, done: set<RunId>, lost: set<RunId>, now: Time) {
    && (forall r :: r in reaped ==> r in claims && r in runs && !Live(runs[r]) && claims[r].lease < now)
    && (forall r :: r in done || r in lost ==> r in reaped)
    && done !! lost
  }

  ghost predicate PoliciesOk(runs: Runs, jobs: map<JobId, JobRow>, subs: map<SubId, SubRow>) {
    && (forall x :: x in subs ==> subs[x].policy.Valid())
    && (forall r :: r in runs && runs[r].job in jobs && jobs[runs[r].job].sub in subs ==>
          runs[r].attempt <= subs[jobs[runs[r].job].sub].policy.maxAttempts)
  }

  ghost predicate Sound(db: Db) {
    && RunIndex(db.runs, db.byAttempt)
    && NoGaps(db.byAttempt)
    && LiveTop(db.runs, db.byAttempt)
    && References(db.runs, db.byAttempt, db.jobs, db.subs)
    && JobIndex(db.jobs, db.byWindow)
    && ClaimsOk(db.runs, db.h.claims, db.now)
    && ReapsOk(db.runs, db.h.claims, db.h.reaped, db.h.resolved, db.h.stranded, db.now)
    && PoliciesOk(db.runs, db.jobs, db.subs)
  }

  ghost predicate TicketOk(db: Db, w: WorkerId, t: E.Ticket) {
    && t.run in db.runs && db.runs[t.run].job == t.job && db.runs[t.run].attempt == t.attempt
    && t.job in db.jobs && db.jobs[t.job].sub == t.sub && t.sub in db.subs && db.subs[t.sub].policy == t.policy
    && t.run in db.h.claims && db.h.claims[t.run].worker == w && db.h.claims[t.run].lease == t.lease
  }

  /** What an executor remembers is true, and a run it holds gets a successor behind its back only by recovery. */
  ghost predicate ExecOk(db: Db, me: WorkerId, w: E.Worker) {
    w.phase.Busy? ==>
      var t := w.phase.ticket;
      && TicketOk(db, me, t)
      && (!IsTop(db, t.run) ==> t.run in db.h.reaped)
      && (w.phase.stage.Retrying? ==> !t.policy.IsExhausted(t.attempt))
  }

  ghost predicate StubOk(db: Db, me: WorkerId, t: R.Stub) {
    && t.run in db.runs && db.runs[t.run].job == t.job && db.runs[t.run].attempt == t.attempt
    && t.job in db.jobs && db.jobs[t.job].sub in db.subs
    && t.sub == Some(db.jobs[t.job].sub) && t.policy == db.subs[db.jobs[t.job].sub].policy
    && t.run in db.h.reaped && db.h.reaped[t.run] == me && t.run !in db.h.resolved && t.run !in db.h.stranded
  }

  ghost predicate RecOk(db: Db, me: WorkerId, p: R.Phase) {
    && (p.Reaping? || p.Holding? ==> p.asOf <= db.now)
    && (p.Holding? ==> StubOk(db, me, p.stub))
  }

  ghost predicate Extends<K, V>(m: map<K, V>, m': map<K, V>) {
    forall k :: k in m ==> k in m' && m'[k] == m[k]
  }

  predicate SameIdentity(row: RunRow, row': RunRow) {
    row'.job == row.job && row'.attempt == row.attempt && row'.retryAfter == row.retryAfter
  }

  ghost predicate RunsGrow(runs: Runs, runs': Runs) {
    forall r :: r in runs ==>
      r in runs' && SameIdentity(runs[r], runs'[r]) && (runs'[r].status == Pending ==> runs[r].status == Pending)
  }

  ghost predicate JobsGrow(jobs: map<JobId, JobRow>, jobs': map<JobId, JobRow>) {
    forall j :: j in jobs ==>
      j in jobs' && jobs'[j].sub == jobs[j].sub && jobs'[j].window == jobs[j].window && jobs'[j].deps == jobs[j].deps
  }

  /** What a subscription keeps from its creation on. */
  predicate SameTerms(row: SubRow, row': SubRow) { row'.policy == row.policy && row'.configOk == row.configOk }

  ghost predicate SubsGrow(subs: map<SubId, SubRow>, subs': map<SubId, SubRow>) {
    forall x :: x in subs ==> x in subs' && SameTerms(subs[x], subs'[x])
  }

  ghost predicate HistoryGrows(h: History, h': History) {
    && Extends(h.claims, h'.claims) && Extends(h.reaped, h'.reaped)
    && h.called <= h'.called && h.unsure <= h'.unsure && h.resolved <= h'.resolved && h.stranded <= h'.stranded
    && h.log <= h'.log
  }

  /** No step deletes or rekeys a row, returns one to PENDING, lowers the clock or forgets an event. */
  ghost predicate Grows(db: Db, db': Db) {
    && db'.cfg == db.cfg && db.now <= db'.now
    && RunsGrow(db.runs, db'.runs) && Extends(db.byAttempt, db'.byAttempt)
    && JobsGrow(db.jobs, db'.jobs) && Extends(db.byWindow, db'.byWindow) && SubsGrow(db.subs, db'.subs)
    && Extends(db.keys, db'.keys) && Extends(db.bank, db'.bank) && db.dlq <= db'.dlq
    && HistoryGrows(db.h, db'.h)
  }

  datatype Actor = Nobody | TheExec(w: WorkerId) | TheRec(w: WorkerId)

  predicate ClaimedBy(h: History, r: RunId, a: Actor) { r in h.claims && a == TheExec(h.claims[r].worker) }

  predicate ReapedBy(h: History, r: RunId, a: Actor) { r in h.reaped && a == TheRec(h.reaped[r]) }

  ghost predicate OwnKeys(m: map<IdempotencyKey, PaymentId>, m': map<IdempotencyKey, PaymentId>, h: History, a: Actor) {
    forall k :: k in m' && k !in m ==> ClaimedBy(h, k.run, a)
  }

  ghost predicate OwnEvents(h: History, h': History, a: Actor) {
    && (forall r :: r in h'.called && r !in h.called ==> ClaimedBy(h, r, a))
    && (forall r :: r in h'.unsure && r !in h.unsure ==> ClaimedBy(h, r, a))
    && (forall r :: r in h'.resolved && r !in h.resolved ==> ReapedBy(h, r, a))
    && (forall r :: r in h'.stranded && r !in h.stranded ==> ReapedBy(h, r, a))
  }

  ghost predicate OwnSuccessors(runs: Runs, idx: Index, idx': Index, h: History, h': History, a: Actor) {
    forall r :: r in runs && (runs[r].job, runs[r].attempt + 1) in idx' && (runs[r].job, runs[r].attempt + 1) !in idx
      ==> r in h'.reaped || ClaimedBy(h, r, a)
  }

  /** What a step of `a` promises the others: their keys, calls and recovered runs are left alone, and
      a run gets a successor only from the executor that claimed it or after it was recovered. */
  ghost predicate Promises(db: Db, db': Db, a: Actor) {
    && OwnKeys(db.keys, db'.keys, db.h, a) && OwnKeys(db.bank, db'.bank, db.h, a)
    && OwnEvents(db.h, db'.h, a)
    && OwnSuccessors(db.runs, db.byAttempt, db'.byAttempt, db.h, db'.h, a)
  }

  ghost predicate Guarantee(db: Db, db': Db, a: Actor) { Grows(db, db') && Promises(db, db', a) }

  /** Every recovered run is resolved, left behind, or in the hands of the worker that took it. */
  ghost predicate Tracked(s: Sys) {
    forall r :: r in s.db.h.reaped && r !in s.db.h.resolved && r !in s.db.h.stranded ==>
      var w := s.db.h.reaped[r];
      w in s.recs && s.recs[w].Holding? && s.recs[w].stub.run == r
  }

  ghost predicate Inv(s: Sys) {
    && Sound(s.db)
    && (forall w :: w in s.execs ==> ExecOk(s.db, w, s.execs[w]))
    && (forall w :: w in s.recs ==> RecOk(s.db, w, s.recs[w]))
    && Tracked(s)
  }

  // ---------- the rely side ----------

  lemma ExecStable(db: Db, db': Db, a: Actor, me: WorkerId, w: E.Worker)
    requires ExecOk(db, me, w) && Guarantee(db, db', a) && a != TheExec(me)
    ensures ExecOk(db', me, w)
  {
  }

  lemma RecStable(db: Db, db': Db, a: Actor, me: WorkerId, p: R.Phase)
    requires RecOk(db, me, p) && Guarantee(db, db', a) && a != TheRec(me)
    ensures RecOk(db', me, p)
  {
  }

  // ---------- statements shared by several transactions ----------

  lemma RunIndexSet(runs: Runs, idx: Index, r: RunId, row: RunRow)
    requires RunIndex(runs, idx) && r in runs && SameIdentity(runs[r], row)
    ensures RunIndex(runs[r := row], idx)
  {
  }

  lemma LiveTopSet(runs: Runs, idx: Index, r: RunId, row: RunRow)
    requires LiveTop(runs, idx) && r in runs && SameIdentity(runs[r], row) && (Live(row) ==> Live(runs[r]))
    ensures LiveTop(runs[r := row], idx)
  {
  }

  lemma PoliciesSet(runs: Runs, jobs: map<JobId, JobRow>, subs: map<SubId, SubRow>, r: RunId, row: RunRow)
    requires PoliciesOk(runs, jobs, subs) && r in runs && SameIdentity(runs[r], row)
    ensures PoliciesOk(runs[r := row], jobs, subs)
  {
  }

  lemma ClaimsSet(runs: Runs, claims: map<RunId, Claim>, now: Time, r: RunId, row: RunRow)
    requires ClaimsOk(runs, claims, now) && r in runs && !Live(row)
    ensures ClaimsOk(runs[r := row], claims, now)
  {
  }

  lemma ReapsSet(runs: Runs, claims: map<RunId, Claim>, reaped: map<RunId, WorkerId>, done: set<RunId>, lost: set<RunId>, now: Time, r: RunId, row: RunRow)
    requires ReapsOk(runs, claims, reaped, done, lost, now) && r in runs && !Live(row)
    ensures ReapsOk(runs[r := row], claims, reaped, done, lost, now)
  {
  }

  lemma ReferencesSet(runs: Runs, idx: Index, jobs: map<JobId, JobRow>, subs: map<SubId, SubRow>, r: RunId, row: RunRow)
    requires References(runs, idx, jobs, subs) && r in runs && SameIdentity(runs[r], row)
    ensures References(runs[r := row], idx, jobs, subs)
  {
  }

  /** Writing a status that is not PENDING or RUNNING keeps the run invariants, whatever the row was before. */
  lemma SettleRow(db: Db, r: RunId, row: RunRow)
    requires Sound(db) && r in db.runs && SameIdentity(db.runs[r], row) && !Live(row)
    ensures Sound(SetRun(db, r, row)) && Grows(db, SetRun(db, r, row))
  {
    hide RunIndex, NoGaps, LiveTop, References, JobIndex, ClaimsOk, ReapsOk, PoliciesOk;
    RunIndexSet(db.runs, db.byAttempt, r, row);
    LiveTopSet(db.runs, db.byAttempt, r, row);
    PoliciesSet(db.runs, db.jobs, db.subs, r, row);
    ClaimsSet(db.runs, db.h.claims, db.now, r, row);
    ReapsSet(db.runs, db.h.claims, db.h.reaped, db.h.resolved, db.h.stranded, db.now, r, row);
    ReferencesSet(db.runs, db.byAttempt, db.jobs, db.subs, r, row);
  }

  lemma RunIndexInsert(runs: Runs, idx: Index, id: RunId, row: RunRow)
    requires RunIndex(runs, idx) && id !in runs && (row.job, row.attempt) !in idx
    ensures RunIndex(runs[id := row], idx[(row.job, row.attempt) := id])
  {
  }

  lemma NoGapsInsert(idx: Index, j: JobId, n: Attempt, id: RunId)
    requires NoGaps(idx) && (n == 1 || (j, n - 1) in idx)
    ensures NoGaps(idx[(j, n) := id])
  {
    var idx' := idx[(j, n) := id];
    forall j': JobId, n': Attempt | HasAttempt(idx', j', n') ensures n' == 1 || (j', n' - 1) in idx' {
      assert (j', n') == (j, n) || HasAttempt(idx, j', n');
    }
  }

  lemma LiveTopInsert(runs: Runs, idx: Index, id: RunId, row: RunRow)
    requires RunIndex(runs, idx) && NoGaps(idx) && LiveTop(runs, idx)
    requires id !in runs && (row.job, row.attempt) !in idx
    requires row.attempt == 1 || ((row.job, row.attempt - 1) in idx && !Live(runs[idx[(row.job, row.attempt - 1)]]))
    ensures LiveTop(runs[id := row], idx[(row.job, row.attempt) := id])
  {
    assert !HasAttempt(idx, row.job, row.attempt + 1);
  }

  lemma ClaimsInsert(runs: Runs, claims: map<RunId, Claim>, now: Time, id: RunId, row: RunRow)
    requires ClaimsOk(runs, claims, now) && id !in runs && row.status == Pending
    ensures ClaimsOk(runs[id := row], claims, now)
  {
  }

  lemma ReapsInsert(runs: Runs, claims: map<RunId, Claim>, reaped: map<RunId, WorkerId>, done: set<RunId>, lost: set<RunId>, now: Time, id: RunId, row: RunRow)
    requires ReapsOk(runs, claims, reaped, done, lost, now) && id !in runs
    ensures ReapsOk(runs[id := row], claims, reaped, done, lost, now)
  {
  }

  lemma PoliciesInsert(runs: Runs, jobs: map<JobId, JobRow>, subs: map<SubId, SubRow>, id: RunId, row: RunRow)
    requires PoliciesOk(runs, jobs, subs) && id !in runs
    requires row.job in jobs && jobs[row.job].sub in subs && row.attempt <= subs[jobs[row.job].sub].policy.maxAttempts
    ensures PoliciesOk(runs[id := row], jobs, subs)
  {
  }

  lemma ReferencesInsert(runs: Runs, idx: Index, jobs: map<JobId, JobRow>, subs: map<SubId, SubRow>, id: RunId, row: RunRow)
    requires References(runs, idx, jobs, subs) && row.job in jobs
    ensures References(runs[id := row], idx[(row.job, row.attempt) := id], jobs, subs)
  {
  }

  /** A new attempt n + 1 whose attempt n is no longer live keeps everything; so does one that is already there. */
  lemma InsertRunKeeps(db: Db, id: RunId, job: JobId, attempt: Attempt, after: Option<Time>)
    requires Sound(db) && id !in db.runs && job in db.jobs && db.jobs[job].sub in db.subs
    requires attempt <= db.subs[db.jobs[job].sub].policy.maxAttempts
    requires attempt > 1
    requires (job, attempt - 1) in db.byAttempt
    requires db.byAttempt[(job, attempt - 1)] in db.runs && !Live(db.runs[db.byAttempt[(job, attempt - 1)]])
    ensures Sound(InsertRun(db, id, job, attempt, after)) && Grows(db, InsertRun(db, id, job, attempt, after))
  {
    hide RunIndex, NoGaps, LiveTop, References, JobIndex, ClaimsOk, ReapsOk, PoliciesOk;
    if (job, attempt) !in db.byAttempt {
      var row := RunRow(job, attempt, Pending, None, after, None, None);
      RunIndexInsert(db.runs, db.byAttempt, id, row);
      NoGapsInsert(db.byAttempt, job, attempt, id);
      LiveTopInsert(db.runs, db.byAttempt, id, row);
      ClaimsInsert(db.runs, db.h.claims, db.now, id, row);
      ReapsInsert(db.runs, db.h.claims, db.h.reaped, db.h.resolved, db.h.stranded, db.now, id, row);
      PoliciesInsert(db.runs, db.jobs, db.subs, id, row);
      ReferencesInsert(db.runs, db.byAttempt, db.jobs, db.subs, id, row);
    }
  }

  lemma JobsSet(db: Db, j: JobId, row: JobRow)
    requires References(db.runs, db.byAttempt, db.jobs, db.subs) && JobIndex(db.jobs, db.byWindow)
    requires PoliciesOk(db.runs, db.jobs, db.subs)
    requires j in db.jobs && row.sub == db.jobs[j].sub && row.window == db.jobs[j].window
    ensures References(db.runs, db.byAttempt, db.jobs[j := row], db.subs)
    ensures JobIndex(db.jobs[j := row], db.byWindow)
    ensures PoliciesOk(db.runs, db.jobs[j := row], db.subs)
  {
  }

  lemma SetJobStatusKeeps(db: Db, j: JobId, status: JobStatus)
    requires Sound(db)
    ensures Sound(SetJobStatus(db, j, status)) && Grows(db, SetJobStatus(db, j, status))
  {
    hide RunIndex, NoGaps, LiveTop, References, JobIndex, ClaimsOk, ReapsOk, PoliciesOk;
    if j in db.jobs {
      JobsSet(db, j, db.jobs[j].(status := status));
    }
  }

  lemma SubsSet(db: Db, x: SubId, row: SubRow)
    requires References(db.runs, db.byAttempt, db.jobs, db.subs) && PoliciesOk(db.runs, db.jobs, db.subs)
    requires x in db.subs && SameTerms(db.subs[x], row)
    ensures References(db.runs, db.byAttempt, db.jobs, db.subs[x := row])
    ensures PoliciesOk(db.runs, db.jobs, db.subs[x := row])
  {
  }

  /** Any change to a subscription but its policy, together with any event in the log. */
  lemma SetSubKeeps(db: Db, db': Db, x: SubId, row: SubRow)
    requires Sound(db) && x in db.subs && SameTerms(db.subs[x], row)
    requires db' == db.(subs := db.subs[x := row], h := db'.h, keys := db'.keys, dlq := db'.dlq)
    requires db'.h == db.h.(log := db'.h.log) && db.h.log <= db'.h.log
    requires Extends(db.keys, db'.keys) && db.dlq <= db'.dlq
    ensures Sound(db') && Grows(db, db')
  {
    hide RunIndex, NoGaps, LiveTop, References, JobIndex, ClaimsOk, ReapsOk, PoliciesOk;
    SubsSet(db, x, row);
  }

  lemma GrowsTransitive(a: Db, b: Db, c: Db)
    requires Grows(a, b) && Grows(b, c)
    ensures Grows(a, c)
  {
  }

  // ---------- the executor's transactions ----------

  lemma SameDb(db: Db, a: Actor)
    ensures Guarantee(db, db, a)
  {
  }
  predicate SameReaps(db: Db, db': Db) {
    db'.h.reaped == db.h.reaped && db'.h.resolved == db.h.resolved && db'.h.stranded == db.h.stranded
  }

  /** The contract of one executor transaction. */
  ghost predicate ExecStepOk(db: Db, me: WorkerId, a: E.After) {
    Sound(a.db) && Guarantee(db, a.db, TheExec(me)) && ExecOk(a.db, me, a.w) && SameReaps(db, a.db)
  }

  lemma ClaimRow(runs: Runs, idx: Index, claims: map<RunId, Claim>, now: Time, r: RunId, row: RunRow, c: Claim)
    requires LiveTop(runs, idx) && ClaimsOk(runs, claims, now)
    requires r in runs && runs[r].status == Pending && SameIdentity(runs[r], row)
    requires row.status == Running && row.lock == Some(c.lease) && c.at <= now
    ensures LiveTop(runs[r := row], idx) && ClaimsOk(runs[r := row], claims[r := c], now)
    ensures r !in claims && (runs[r].job, runs[r].attempt + 1) !in idx
  {
    assert Live(runs[r]);
  }

  lemma ClaimReaps(runs: Runs, claims: map<RunId, Claim>, reaped: map<RunId, WorkerId>, done: set<RunId>, lost: set<RunId>,
    now: Time, r: RunId, row: RunRow, c: Claim)
    requires ReapsOk(runs, claims, reaped, done, lost, now) && r in runs && r !in claims
    ensures ReapsOk(runs[r := row], claims[r := c], reaped, done, lost, now)
  {
  }

  lemma ReferenceOf(db: Db, r: RunId)
    requires Sound(db) && r in db.runs
    ensures db.runs[r].job in db.jobs && db.jobs[db.runs[r].job].sub in db.subs
  {
    hide RunIndex, NoGaps, LiveTop, JobIndex, ClaimsOk, ReapsOk, PoliciesOk;
  }

  lemma ClaimNextSound(db: Db, me: WorkerId, w: E.Worker)
    requires Sound(db) && w.phase.Idle? && w.batch != []
    ensures Sound(E.ClaimNext(db, me, w).db)
  {
    hide RunIndex, NoGaps, LiveTop, References, JobIndex, ClaimsOk, ReapsOk, PoliciesOk;
    var r := w.batch[0];
    if r in db.runs && db.runs[r].status == Pending {
      ReferenceOf(db, r);
      var lease := db.now + db.cfg.lockTimeout;
      var row := db.runs[r].(status := Running, lock := Some(lease), worker := Some(me));
      RunIndexSet(db.runs, db.byAttempt, r, row);
      PoliciesSet(db.runs, db.jobs, db.subs, r, row);
      ReferencesSet(db.runs, db.byAttempt, db.jobs, db.subs, r, row);
      ClaimRow(db.runs, db.byAttempt, db.h.claims, db.now, r, row, Claim(me, lease, db.now));
      ClaimReaps(db.runs, db.h.claims, db.h.reaped, db.h.resolved, db.h.stranded, db.now, r, row, Claim(me, lease, db.now));
    }
  }

  lemma ClaimNextPromises(db: Db, me: WorkerId, w: E.Worker)
    requires Sound(db) && w.phase.Idle? && w.batch != []
    ensures Guarantee(db, E.ClaimNext(db, me, w).db, TheExec(me))
  {
    hide RunIndex, NoGaps, LiveTop, References, JobIndex, ClaimsOk, ReapsOk, PoliciesOk;
    var r := w.batch[0];
    if r in db.runs && db.runs[r].status == Pending {
      NotYetClaimed(db, r);
    }
  }

  lemma NotYetClaimed(db: Db, r: RunId)
    requires Sound(db) && r in db.runs && db.runs[r].status == Pending
    ensures r !in db.h.claims && IsTop(db, r)
  {
    hide RunIndex, NoGaps, References, JobIndex, ReapsOk, PoliciesOk;
    assert Live(db.runs[r]);
  }

  lemma ClaimNextKeeps(db: Db, me: WorkerId, w: E.Worker)
    requires Sound(db) && w.phase.Idle? && w.batch != []
    ensures ExecStepOk(db, me, E.ClaimNext(db, me, w))
  {
    hide RunIndex, NoGaps, LiveTop, References, JobIndex, ClaimsOk, ReapsOk, PoliciesOk, Grows, Promises;
    ClaimNextSound(db, me, w);
    ClaimNextPromises(db, me, w);
    var r := w.batch[0];
    if r in db.runs && db.runs[r].status == Pending {
      NotYetClaimed(db, r);
      ReferenceOf(db, r);
    }
  }

  lemma ReceiveReplyKeeps(db: Db, me: WorkerId, w: E.Worker, reply: E.Reply, u: real)
    requires Sound(db) && ExecOk(db, me, w) && w.phase.Busy?
    ensures ExecStepOk(db, me, E.ReceiveReply(db, w, reply, u))
  {
    hide RunIndex, NoGaps, LiveTop, References, JobIndex, ClaimsOk, ReapsOk, PoliciesOk;
  }

  lemma PersistKeeps(db: Db, me: WorkerId, w: E.Worker)
    requires Sound(db) && ExecOk(db, me, w) && w.phase.Busy? && w.phase.stage.Persisting?
    ensures ExecStepOk(db, me, E.PersistSuccess(db, w))
  {
    hide RunIndex, NoGaps, LiveTop, References, JobIndex, ClaimsOk, ReapsOk, PoliciesOk;
    var t, p := w.phase.ticket, w.phase.stage.payment;
    var key := ForRun(t.run, t.attempt);
    if key !in db.keys {
      var row := db.runs[t.run].(status := Succeeded, payment := Some(p), lock := None);
      var sub := db.subs[t.sub].(failures := 0);
      var db1 := SetRun(db, t.run, row);
      var db2 := db1.(keys := db.keys[key := p], subs := db.subs[t.sub := sub], h := db.h.(log := db.h.log + [Paid(t.sub)]));
      var db3 := SetJobStatus(db2, t.job, Done);
      SettleRow(db, t.run, row);
      SetSubKeeps(db1, db2, t.sub, sub);
      SetJobStatusKeeps(db2, t.job, Done);
      GrowsTransitive(db, db1, db2);
      GrowsTransitive(db, db2, db3);
    }
  }

  lemma FinishRunKeeps(db: Db, r: RunId, status: RunStatus)
    requires Sound(db) && status != Pending && status != Running
    ensures Sound(FinishRun(db, r, status)) && Grows(db, FinishRun(db, r, status))
  {
    hide RunIndex, NoGaps, LiveTop, References, JobIndex, ClaimsOk, ReapsOk, PoliciesOk;
    if r in db.runs {
      SettleRow(db, r, db.runs[r].(status := status, lock := None));
    }
  }

  lemma DagCancelKeeps(db: Db, me: WorkerId, w: E.Worker)
    requires Sound(db) && ExecOk(db, me, w) && w.phase.Busy?
    ensures ExecStepOk(db, me, E.MarkDagCancelled(db, w))
  {
    hide RunIndex, NoGaps, LiveTop, References, JobIndex, ClaimsOk, ReapsOk, PoliciesOk;
    var t := w.phase.ticket;
    var db1 := FinishRun(db, t.run, Failed);
    FinishRunKeeps(db, t.run, Failed);
    SetJobStatusKeeps(db1, t.job, Dropped);
    GrowsTransitive(db, db1, SetJobStatus(db1, t.job, Dropped));
  }

  lemma MaxAttempts(db: Db, r: RunId)
    requires Sound(db) && r in db.runs
    ensures db.runs[r].job in db.jobs && db.jobs[db.runs[r].job].sub in db.subs
    ensures db.runs[r].attempt <= db.subs[db.jobs[db.runs[r].job].sub].policy.maxAttempts
  {
    hide RunIndex, NoGaps, LiveTop, JobIndex, ClaimsOk, ReapsOk;
  }

  lemma IndexOf(db: Db, r: RunId)
    requires Sound(db) && r in db.runs
    ensures (db.runs[r].job, db.runs[r].attempt) in db.byAttempt
    ensures db.byAttempt[(db.runs[r].job, db.runs[r].attempt)] == r
  {
    hide NoGaps, LiveTop, References, JobIndex, ClaimsOk, ReapsOk, PoliciesOk;
  }

  lemma RetryKeeps(db: Db, me: WorkerId, w: E.Worker, id: RunId)
    requires Sound(db) && ExecOk(db, me, w) && w.phase.Busy? && w.phase.stage.Retrying? && id !in db.runs
    ensures ExecStepOk(db, me, E.ScheduleRetry(db, w, id))
  {
    hide RunIndex, NoGaps, LiveTop, References, JobIndex, ClaimsOk, ReapsOk, PoliciesOk, Grows;
    var t := w.phase.ticket;
    var db1 := FinishRun(db, t.run, Failed);
    var db2 := InsertRun(db1, id, t.job, t.attempt + 1, Some(w.phase.stage.after));
    FinishRunKeeps(db, t.run, Failed);
    IndexOf(db1, t.run);
    InsertRunKeeps(db1, id, t.job, t.attempt + 1, Some(w.phase.stage.after));
    GrowsTransitive(db, db1, db2);
    OnlySuccessorOf(db.runs, db.byAttempt, db2.byAttempt, t.run, db.h, db2.h, TheExec(me));
  }

  /** Adding attempt n + 1 of a job gives a successor to attempt n and to no other run. */
  lemma OnlySuccessorOf(runs: Runs, idx: Index, idx': Index, r: RunId, h: History, h': History, a: Actor)
    requires RunIndex(runs, idx) && r in runs
    requires forall k :: k in idx' && k !in idx ==> k == (runs[r].job, runs[r].attempt + 1)
    requires r in h'.reaped || ClaimedBy(h, r, a)
    ensures OwnSuccessors(runs, idx, idx', h, h', a)
  {
  }

  /** The entry, the log and, if it has a row, the subscription's counter. */
  lemma EntryKeeps(db: Db, db': Db, x: SubId)
    requires Sound(db) && db.dlq <= db'.dlq && db.h.log <= db'.h.log
    requires db' == db.(subs := if x in db.subs then db.subs[x := CountFailure(db.subs[x])] else db.subs,
                        dlq := db'.dlq, h := db.h.(log := db'.h.log))
    ensures Sound(db') && Grows(db, db')
  {
    if x in db.subs {
      hide Sound, Grows;
      SetSubKeeps(db, db', x, CountFailure(db.subs[x]));
    }
  }

  lemma MoveToDlqKeeps(db: Db, r: RunId, job: JobId, attempt: Attempt, sub: SubId, keepWorker: bool)
    requires Sound(db)
    ensures Sound(MoveToDlq(db, r, job, attempt, sub, keepWorker)) && Grows(db, MoveToDlq(db, r, job, attempt, sub, keepWorker))
  {
    hide Sound, Grows;
    if r in db.runs {
      var row := db.runs[r].(status := Dead, lock := None, worker := if keepWorker then db.runs[r].worker else None);
      var db1, db2 := SetRun(db, r, row), MoveToDlq(db, r, job, attempt, sub, keepWorker);
      SettleRow(db, r, row);
      EntryKeeps(db1, db2, sub);
      GrowsTransitive(db, db1, db2);
    } else {
      SameDb(db, Nobody);
    }
  }

  lemma BuryKeeps(db: Db, me: WorkerId, w: E.Worker)
    requires Sound(db) && ExecOk(db, me, w) && w.phase.Busy?
    ensures ExecStepOk(db, me, E.BuryRun(db, w))
  {
    hide RunIndex, NoGaps, LiveTop, References, JobIndex, ClaimsOk, ReapsOk, PoliciesOk;
    var t := w.phase.ticket;
    MoveToDlqKeeps(db, t.run, t.job, t.attempt, t.sub, true);
  }

  lemma ExecKeeps(m: Mode, db: Db, me: WorkerId, w: E.Worker, x: ExecStep)
    requires Sound(db) && ExecOk(db, me, w) && ExecEnabled(m, db, w, x)
    ensures ExecStepOk(db, me, ExecApply(m, db, me, w, x))
  {
    hide RunIndex, NoGaps, LiveTop, References, JobIndex, ClaimsOk, ReapsOk, PoliciesOk;
    match x
    case Fetch(_) => SameDb(db, TheExec(me));
    case ClaimNext => ClaimNextKeeps(db, me, w);
    case Load => SameDb(db, TheExec(me));
    case CheckDag => SameDb(db, TheExec(me));
    case LookUp => SameDb(db, TheExec(me));
    case Call(reply, u) => ReceiveReplyKeeps(db, me, w, reply, u);
    case Persist => PersistKeeps(db, me, w);
    case DagCancel => DagCancelKeeps(db, me, w);
    case Retry(run) => RetryKeeps(db, me, w, run);
    case Bury => BuryKeeps(db, me, w);
    case Abandon(_) => SameDb(db, TheExec(me));
  }

  // ---------- the recovery worker's transactions ----------

  /** The contract of one recovery transaction. A run leaves the worker's hands only resolved or stranded. */
  ghost predicate RecStepOk(db: Db, me: WorkerId, p: R.Phase, a: R.After) {
    && Sound(a.db) && Guarantee(db, a.db, TheRec(me)) && RecOk(a.db, me, a.phase)
    && (forall r :: r in a.db.h.reaped && r !in db.h.reaped ==>
          a.db.h.reaped[r] == me && a.phase.Holding? && a.phase.stub.run == r)
    && (p.Holding? ==> p.stub.run in a.db.h.resolved || p.stub.run in a.db.h.stranded)
  }

  lemma ReapRow(runs: Runs, claims: map<RunId, Claim>, reaped: map<RunId, WorkerId>, done: set<RunId>, lost: set<RunId>,
    now: Time, r: RunId, row: RunRow, me: WorkerId)
    requires ReapsOk(runs, claims, reaped, done, lost, now)
    requires r in runs && r in claims && claims[r].lease < now && !Live(row)
    ensures ReapsOk(runs[r := row], claims, reaped[r := me], done, lost, now)
  {
  }

  lemma StuckRun(db: Db, r: RunId, asOf: Time)
    requires Sound(db) && R.Stuck(db, r, asOf)
    ensures r in db.h.claims && db.runs[r].lock == Some(db.h.claims[r].lease) && r !in db.h.reaped && IsTop(db, r)
    ensures r !in db.h.resolved && r !in db.h.stranded
  {
    hide RunIndex, NoGaps, References, JobIndex, PoliciesOk;
    assert Live(db.runs[r]);
  }

  lemma ReapKeeps(db: Db, me: WorkerId, p: R.Phase)
    requires Sound(db) && RecOk(db, me, p) && p.Reaping? && p.ids != []
    ensures RecStepOk(db, me, p, R.ReapNext(db, me, p))
  {
    hide RunIndex, NoGaps, LiveTop, References, JobIndex, ClaimsOk, ReapsOk, PoliciesOk;
    var r := p.ids[0];
    if R.Stuck(db, r, p.asOf) {
      StuckRun(db, r, p.asOf);
      ReferenceOf(db, r);
      var row := db.runs[r].(status := Failed, lock := None, worker := None);
      SettleRow(db, r, row);
      ReapRow(db.runs, db.h.claims, db.h.reaped, db.h.resolved, db.h.stranded, db.now, r, row, me);
    }
  }

  lemma ResolveReaps(runs: Runs, claims: map<RunId, Claim>, reaped: map<RunId, WorkerId>, done: set<RunId>, lost: set<RunId>,
    now: Time, r: RunId)
    requires ReapsOk(runs, claims, reaped, done, lost, now) && r in reaped && r !in lost && r !in done
    ensures ReapsOk(runs, claims, reaped, done + {r}, lost, now) && ReapsOk(runs, claims, reaped, done, lost + {r}, now)
  {
  }

  lemma ReapedRun(db: Db, r: RunId)
    requires Sound(db) && r in db.h.reaped
    ensures r in db.runs && !Live(db.runs[r])
  {
    hide RunIndex, NoGaps, LiveTop, References, JobIndex, ClaimsOk, PoliciesOk;
  }

  lemma ResolvePromises(db: Db, me: WorkerId, p: R.Phase, id: RunId)
    requires Sound(db) && RecOk(db, me, p) && p.Holding?
    ensures Promises(db, R.FollowUp(db, p, id).db, TheRec(me))
  {
    hide RunIndex, NoGaps, LiveTop, References, JobIndex, ClaimsOk, ReapsOk, PoliciesOk;
    var s := p.stub;
    var db2 := R.FollowUp(db, p, id).db;
    OnlySuccessorOf(db.runs, db.byAttempt, db2.byAttempt, s.run, db.h, db2.h, TheRec(me));
  }

  lemma ResolveKeeps(db: Db, me: WorkerId, p: R.Phase, id: RunId)
    requires Sound(db) && RecOk(db, me, p) && p.Holding? && id !in db.runs
    ensures RecStepOk(db, me, p, R.FollowUp(db, p, id))
  {
    hide RunIndex, NoGaps, LiveTop, References, JobIndex, ClaimsOk, ReapsOk, PoliciesOk, Grows, Promises;
    var s := p.stub;
    var db1 := db.(h := db.h.(resolved := db.h.resolved + {s.run}));
    var db2 := R.FollowUp(db, p, id).db;
    ResolvePromises(db, me, p, id);
    ResolveReaps(db.runs, db.h.claims, db.h.reaped, db.h.resolved, db.h.stranded, db.now, s.run);
    MarkResolvedGrows(db, s.run);
    ReapedRun(db, s.run);
    IndexOf(db, s.run);
    if s.policy.IsExhausted(s.attempt) {
      MoveToDlqKeeps(db1, s.run, s.job, s.attempt, s.sub.value, false);
    } else {
      InsertRunKeeps(db1, id, s.job, s.attempt + 1, None);
    }
    GrowsTransitive(db, db1, db2);
  }

  lemma MarkResolvedGrows(db: Db, r: RunId)
    ensures Grows(db, db.(h := db.h.(resolved := db.h.resolved + {r})))
  {
  }

  lemma FailPendingRuns(runs: Runs, idx: Index, jobs: map<JobId, JobRow>, subs: map<SubId, SubRow>, j: JobId)
    requires RunIndex(runs, idx) && LiveTop(runs, idx) && References(runs, idx, jobs, subs) && PoliciesOk(runs, jobs, subs)
    ensures RunIndex(R.FailPending(runs, j), idx) && LiveTop(R.FailPending(runs, j), idx)
    ensures References(R.FailPending(runs, j), idx, jobs, subs) && PoliciesOk(R.FailPending(runs, j), jobs, subs)
    ensures RunsGrow(runs, R.FailPending(runs, j))
  {
    var runs' := R.FailPending(runs, j);
    forall r | r in runs' && Live(runs'[r]) ensures (runs'[r].job, runs'[r].attempt + 1) !in idx {
      assert Live(runs[r]);
    }
  }

  lemma FailPendingHistory(runs: Runs, claims: map<RunId, Claim>, reaped: map<RunId, WorkerId>, done: set<RunId>, lost: set<RunId>,
    now: Time, j: JobId)
    requires ClaimsOk(runs, claims, now) && ReapsOk(runs, claims, reaped, done, lost, now)
    ensures ClaimsOk(R.FailPending(runs, j), claims, now) && ReapsOk(R.FailPending(runs, j), claims, reaped, done, lost, now)
  {
  }

  lemma CancelOrphanKeeps(db: Db, j: JobId)
    requires Sound(db)
    ensures Sound(R.CancelOrphan(db, j)) && Grows(db, R.CancelOrphan(db, j))
  {
    hide RunIndex, NoGaps, LiveTop, References, JobIndex, ClaimsOk, ReapsOk, PoliciesOk;
    var db1 := db.(runs := R.FailPending(db.runs, j));
    FailPendingRuns(db.runs, db.byAttempt, db.jobs, db.subs, j);
    FailPendingHistory(db.runs, db.h.claims, db.h.reaped, db.h.resolved, db.h.stranded, db.now, j);
    SetJobStatusKeeps(db1, j, Dropped);
    GrowsTransitive(db, db1, R.CancelOrphan(db, j));
  }

  /** A step that adds no key, call or attempt and settles no recovered run promises everything. */
  lemma QuietStep(db: Db, db': Db, a: Actor)
    requires db'.keys == db.keys && db'.bank == db.bank && db'.byAttempt == db.byAttempt
    requires db'.h.called == db.h.called && db'.h.unsure == db.h.unsure
    requires db'.h.resolved == db.h.resolved && db'.h.stranded == db.h.stranded
    ensures Promises(db, db', a)
  {
  }

  lemma OrphanEvalKeeps(db: Db, me: WorkerId, p: R.Phase)
    requires Sound(db) && p.Judging? && p.jobs != []
    ensures RecStepOk(db, me, p, R.JudgeNext(db, p))
  {
    hide RunIndex, NoGaps, LiveTop, References, JobIndex, ClaimsOk, ReapsOk, PoliciesOk, Grows, Promises, DeadRuns;
    var db' := R.JudgeNext(db, p).db;
    if db' == db {
      SameDb(db, TheRec(me));
    } else {
      CancelOrphanKeeps(db, p.jobs[0]);
    }
    QuietStep(db, db', TheRec(me));
  }

  lemma GiveUpKeeps(db: Db, me: WorkerId, p: R.Phase)
    requires Sound(db) && RecOk(db, me, p)
    ensures RecStepOk(db, me, p, R.GiveUp(db, p))
  {
    hide RunIndex, NoGaps, LiveTop, References, JobIndex, ClaimsOk, ReapsOk, PoliciesOk;
    if p.Holding? {
      ResolveReaps(db.runs, db.h.claims, db.h.reaped, db.h.resolved, db.h.stranded, db.now, p.stub.run);
    }
  }

  lemma RecKeeps(db: Db, me: WorkerId, p: R.Phase, y: RecStep)
    requires Sound(db) && RecOk(db, me, p) && RecEnabled(db, p, y)
    ensures RecStepOk(db, me, p, RecApply(db, me, p, y))
  {
    hide RunIndex, NoGaps, LiveTop, References, JobIndex, ClaimsOk, ReapsOk, PoliciesOk;
    match y
    case Scan(_, _) => SameDb(db, TheRec(me));
    case Reap => ReapKeeps(db, me, p);
    case Resolve(run) => ResolveKeeps(db, me, p, run);
    case OrphanScan(_) => SameDb(db, TheRec(me));
    case OrphanEval => OrphanEvalKeeps(db, me, p);
    case GiveUp => GiveUpKeeps(db, me, p);
  }

  // ---------- the clock, the routes and the scheduler ----------

  ghost predicate EnvStepOk(db: Db, db': Db) {
    Sound(db') && Guarantee(db, db', Nobody) && SameReaps(db, db')
  }

  lemma AdvanceKeeps(db: Db, to: Time)
    requires Sound(db) && db.now <= to
    ensures EnvStepOk(db, db.(now := to))
  {
    hide RunIndex, NoGaps, LiveTop, References, JobIndex, PoliciesOk;
  }

  lemma NewSub(db: Db, x: SubId, row: SubRow)
    requires References(db.runs, db.byAttempt, db.jobs, db.subs) && PoliciesOk(db.runs, db.jobs, db.subs)
    requires x !in db.subs && row.policy.Valid()
    ensures References(db.runs, db.byAttempt, db.jobs, db.subs[x := row])
    ensures PoliciesOk(db.runs, db.jobs, db.subs[x := row])
  {
  }

  lemma CreateSubKeeps(db: Db, x: SubId, policy: RetryPolicy, configOk: bool, cron: Time -> Time)
    requires Sound(db) && x !in db.subs && policy.Valid()
    ensures EnvStepOk(db, S.CreateSub(db, x, policy, configOk, cron))
  {
    hide RunIndex, NoGaps, LiveTop, References, JobIndex, ClaimsOk, ReapsOk, PoliciesOk;
    NewSub(db, x, S.CreateSub(db, x, policy, configOk, cron).subs[x]);
  }

  lemma UpdateSubKeeps(db: Db, db': Db, x: SubId)
    requires Sound(db) && x in db.subs && x in db'.subs && SameTerms(db.subs[x], db'.subs[x])
    requires db' == db.(subs := db.subs[x := db'.subs[x]], h := db.h.(log := db'.h.log)) && db.h.log <= db'.h.log
    ensures EnvStepOk(db, db')
  {
    hide RunIndex, NoGaps, LiveTop, References, JobIndex, ClaimsOk, ReapsOk, PoliciesOk;
    SetSubKeeps(db, db', x, db'.subs[x]);
  }

  lemma NewJobIndexes(jobs: map<JobId, JobRow>, byWindow: map<Fingerprint, JobId>, j: JobId, row: JobRow)
    requires JobIndex(jobs, byWindow) && j !in jobs && ForJob(row.sub, row.window) !in byWindow
    ensures JobIndex(jobs[j := row], byWindow[ForJob(row.sub, row.window) := j])
  {
  }

  lemma JobOfAttempt(db: Db, k: (JobId, Attempt))
    requires Sound(db) && k in db.byAttempt
    ensures k.0 in db.jobs
  {
    hide NoGaps, LiveTop, JobIndex, ClaimsOk, ReapsOk, PoliciesOk;
    var r := db.byAttempt[k];
  }

  lemma NoRunsYet(db: Db, j: JobId, n: Attempt)
    requires Sound(db) && j !in db.jobs
    ensures (j, n) !in db.byAttempt
  {
    hide Sound;
    if (j, n) in db.byAttempt {
      JobOfAttempt(db, (j, n));
    }
  }

  lemma NewJobRefs(db: Db, j: JobId, run: RunId, row: JobRow, first: RunRow)
    requires References(db.runs, db.byAttempt, db.jobs, db.subs) && PoliciesOk(db.runs, db.jobs, db.subs)
    requires j !in db.jobs && run !in db.runs && row.sub in db.subs && first.job == j && first.attempt == 1
    ensures References(db.runs[run := first], db.byAttempt[(j, 1) := run], db.jobs[j := row], db.subs)
    ensures PoliciesOk(db.runs[run := first], db.jobs[j := row], db.subs)
  {
  }

  lemma InsertJobKeeps(db: Db, j: JobId, run: RunId, row: JobRow)
    requires Sound(db) && j !in db.jobs && run !in db.runs && row.sub in db.subs
    ensures EnvStepOk(db, S.InsertJob(db, j, run, row))
  {
    hide RunIndex, NoGaps, LiveTop, References, JobIndex, ClaimsOk, ReapsOk, PoliciesOk;
    if ForJob(row.sub, row.window) !in db.byWindow {
      var first := RunRow(j, 1, Pending, None, None, None, None);
      NoRunsYet(db, j, 1);
      NewJobIndexes(db.jobs, db.byWindow, j, row);
      RunIndexInsert(db.runs, db.byAttempt, run, first);
      NoGapsInsert(db.byAttempt, j, 1, run);
      LiveTopInsert(db.runs, db.byAttempt, run, first);
      ClaimsInsert(db.runs, db.h.claims, db.now, run, first);
      ReapsInsert(db.runs, db.h.claims, db.h.reaped, db.h.resolved, db.h.stranded, db.now, run, first);
      NewJobRefs(db, j, run, row, first);
      NoNewSuccessors(db, j);
    }
  }

  lemma NoNewSuccessors(db: Db, j: JobId)
    requires Sound(db) && j !in db.jobs
    ensures forall r :: r in db.runs ==> db.runs[r].job != j
  {
    hide RunIndex, NoGaps, LiveTop, JobIndex, ClaimsOk, ReapsOk, PoliciesOk;
  }

  lemma ScheduleKeeps(db: Db, x: SubId, j: JobId, run: RunId, epoch: nat)
    requires Sound(db) && x in db.subs && j !in db.jobs && run !in db.runs
    ensures EnvStepOk(db, S.CreateJob(db, x, j, run, epoch))
  {
    hide RunIndex, NoGaps, LiveTop, References, JobIndex, ClaimsOk, ReapsOk, PoliciesOk;
    var sub := db.subs[x];
    if sub.nextFire.Some? {
      var row := JobRow(x, sub.nextFire.value, [], Ready, epoch);
      var db1 := S.InsertJob(db, j, run, row);
      var db2 := S.AdvanceSchedule(db1, x);
      InsertJobKeeps(db, j, run, row);
      UpdateSubKeeps(db1, db2, x);
      GrowsTransitive(db, db1, db2);
    } else {
      SameDb(db, Nobody);
    }
  }

  lemma EnvKeeps(m: Mode, db: Db, e: EnvStep)
    requires Sound(db) && EnvEnabled(m, db, e)
    ensures EnvStepOk(db, EnvApply(db, e))
  {
    hide RunIndex, NoGaps, LiveTop, References, JobIndex, ClaimsOk, ReapsOk, PoliciesOk;
    match e
    case Advance(to) => AdvanceKeeps(db, to);
    case CreateSub(x, policy, configOk, cron) => CreateSubKeeps(db, x, policy, configOk, cron);
    case ResumeSub(x) =>
      if x in db.subs && db.subs[x].cron.Some? { UpdateSubKeeps(db, S.ResumeSub(db, x), x); } else { SameDb(db, Nobody); }
    case CancelSub(x) =>
      if x in db.subs { UpdateSubKeeps(db, S.CancelSub(db, x), x); } else { SameDb(db, Nobody); }
    case AddJob(j, run, row) => InsertJobKeeps(db, j, run, row);
    case Schedule(x, _, j, run, epoch) => ScheduleKeeps(db, x, j, run, epoch);
  }

  // ---------- every step, every run ----------

  lemma TrackedStep(m: Mode, s: Sys, l: Label)
    requires Inv(s) && Enabled(m, s, l)
    requires l.Env? ==> EnvStepOk(s.db, EnvApply(s.db, l.e))
    requires l.Exec? ==> ExecStepOk(s.db, l.w, ExecApply(m, s.db, l.w, s.execs[l.w], l.x))
    requires l.Rec? ==> RecStepOk(s.db, l.w, s.recs[l.w], RecApply(s.db, l.w, s.recs[l.w], l.y))
    ensures Tracked(Apply(m, s, l))
  {
    hide Sound, Promises, ExecOk, RecOk, EnvApply, ExecApply, RecApply, EnvEnabled, ExecEnabled, RecEnabled;
  }

  function ActorOf(l: Label): Actor {
    match l
    case Env(_) => Nobody
    case Exec(w, _) => TheExec(w)
    case Rec(w, _) => TheRec(w)
  }

  /** One step of anyone, at any time: the invariant is kept and nothing is forgotten. */
  lemma Step(m: Mode, s: Sys, l: Label)
    requires Inv(s) && Enabled(m, s, l)
    ensures Inv(Apply(m, s, l)) && Guarantee(s.db, Apply(m, s, l).db, ActorOf(l))
  {
    hide Sound, Guarantee, ExecOk, RecOk, EnvApply, ExecApply, RecApply, EnvEnabled, ExecEnabled, RecEnabled, Tracked;
    var s' := Apply(m, s, l);
    match l {
      case Env(e) => EnvKeeps(m, s.db, e);
      case Exec(w, x) => ExecKeeps(m, s.db, w, s.execs[w], x);
      case Rec(w, y) => RecKeeps(s.db, w, s.recs[w], y);
    }
    TrackedStep(m, s, l);
    forall w | w in s.execs && ActorOf(l) != TheExec(w) ensures ExecOk(s'.db, w, s.execs[w]) {
      ExecStable(s.db, s'.db, ActorOf(l), w, s.execs[w]);
    }
    forall w | w in s.recs && ActorOf(l) != TheRec(w) ensures RecOk(s'.db, w, s.recs[w]) {
      RecStable(s.db, s'.db, ActorOf(l), w, s.recs[w]);
    }
  }

  lemma EmptyRuns()
    ensures RunIndex(map[], map[]) && NoGaps(map[]) && LiveTop(map[], map[])
  {
  }

  lemma EmptyJobs()
    ensures References(map[], map[], map[], map[]) && JobIndex(map[], map[]) && PoliciesOk(map[], map[], map[])
  {
  }

  lemma EmptyHistory(now: Time)
    ensures ClaimsOk(map[], map[], now) && ReapsOk(map[], map[], map[], {}, {}, now)
  {
  }

  lemma InitSound(db: Db)
    requires db.runs == map[] && db.byAttempt == map[] && db.jobs == map[] && db.byWindow == map[] && db.subs == map[]
    requires db.h == History(map[], {}, {}, map[], {}, {}, [])
    ensures Sound(db)
  {
    hide RunIndex, NoGaps, LiveTop, References, JobIndex, ClaimsOk, ReapsOk, PoliciesOk;
    EmptyRuns();
    EmptyJobs();
    EmptyHistory(db.now);
  }

  lemma InitOk(s: Sys)
    requires Init(s)
    ensures Inv(s)
  {
    hide Sound;
    InitSound(s.db);
  }

  lemma {:induction false} Always(m: Mode, ss: seq<Sys>, ls: seq<Label>, i: nat)
    requires Trace(m, ss, ls) && i < |ss|
    ensures Inv(ss[i])
  {
    hide Inv, Apply, Enabled;
    if i == 0 {
      InitOk(ss[0]);
    } else {
      Always(m, ss, ls, i - 1);
      Step(m, ss[i - 1], ls[i - 1]);
    }
  }

  lemma GrowsReflexive(db: Db)
    ensures Grows(db, db)
  {
  }

  lemma {:induction false} GrowsAlong(m: Mode, ss: seq<Sys>, ls: seq<Label>, i: nat, k: nat)
    requires Trace(m, ss, ls) && i <= k < |ss|
    ensures Grows(ss[i].db, ss[k].db)
    decreases k - i
  {
    hide Inv, Apply, Enabled, Grows, Promises;
    if i == k {
      GrowsReflexive(ss[i].db);
    } else {
      GrowsAlong(m, ss, ls, i, k - 1);
      Always(m, ss, ls, k - 1);
      Step(m, ss[k - 1], ls[k - 1]);
      GrowsTransitive(ss[i].db, ss[k - 1].db, ss[k].db);
    }
  }

  lemma {:induction false} DownClosed(idx: Index, j: JobId, n: Attempt, k: Attempt)
    requires NoGaps(idx) && (j, n) in idx && k <= n
    ensures (j, k) in idx
    decreases n - k
  {
    if k < n {
      assert HasAttempt(idx, j, n);
      DownClosed(idx, j, n - 1, k);
    }
  }

  /** A job has one last attempt. */
  lemma OneTop(db: Db, r: RunId, q: RunId)
    requires Sound(db) && r in db.runs && q in db.runs && db.runs[r].job == db.runs[q].job && IsTop(db, r) && IsTop(db, q)
    ensures r == q
  {
    hide NoGaps, LiveTop, References, JobIndex, ClaimsOk, ReapsOk, PoliciesOk;
    var a, b := db.runs[r].attempt, db.runs[q].attempt;
    if a < b {
      DownClosed(db.byAttempt, db.runs[r].job, b, a + 1);
    } else if b < a {
      DownClosed(db.byAttempt, db.runs[r].job, a, b + 1);
    }
  }
}
