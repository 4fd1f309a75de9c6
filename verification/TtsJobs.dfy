/**
 Durable text-to-speech jobs (app/core/tts_jobs.py). Every SQL transaction is one atomic step
 on the job table; now() is the clock of the step, in whole seconds. The provider is called
 only after mark_provider_started has been accepted (app/api/v1/tts.py:303-307).
 */
module TtsJobs {
  import opened Base

  type JobId = nat
  type WorkerId = string

  /** The unique constraint of the table: tenant, project, user and idempotency key. */
  datatype Key = Key(org: nat, workspace: nat, project: string, user: string, idempotency: string)

  datatype State = Queued | Claimed | ProviderStarting | Streaming | Completed | Failed | Cancelled | AmbiguousOutcome

  datatype Lease = Lease(owner: WorkerId, expiresAt: int)

  datatype Job = Job(
    key: Key,
    requestHash: string,
    createdAt: int,
    state: State,
    attempts: nat,
    maxAttempts: nat,
    token: nat,
    lease: Option<Lease>,
    startedAt: Option<int>,
    firstChunkAt: Option<int>,
    completedAt: Option<int>,
    cancelledAt: Option<int>,
    chunks: nat,
    audioBytes: nat)

  datatype Db = Db(now: int, jobs: map<JobId, Job>)

  /** Transactions on one named job. */
  datatype Action =
    | Claim(worker: WorkerId, seconds: nat)
    | MarkProviderStarted(worker: WorkerId, token: nat)
    | RecordChunk(worker: WorkerId, token: nat, size: nat)
    | Complete(worker: WorkerId, token: nat)
    | MarkAmbiguous(worker: WorkerId, token: nat)
    | MarkCancelled(worker: WorkerId, token: nat)
    | Cancel(org: nat, workspace: nat, user: string)

  datatype Op =
    | Tick(seconds: nat)
    | Submit(id: JobId, key: Key, requestHash: string)
    | ClaimNext(worker: WorkerId, seconds: nat, locked: set<JobId>, pick: JobId)
    | OnJob(id: JobId, action: Action)
    | RecoverExpired

  predicate Terminal(s: State) {
    s.Completed? || s.Failed? || s.Cancelled? || s.AmbiguousOutcome?
  }

  predicate AtProvider(s: State) {
    s.ProviderStarting? || s.Streaming?
  }

  predicate Fenced(job: Job, worker: WorkerId, token: nat) {
    job.lease.Some? && job.lease.value.owner == worker && job.token == token
  }

  predicate Unexpired(now: int, job: Job) {
    job.lease.Some? && now < job.lease.value.expiresAt
  }

  /** The guard of each UPDATE. Only the start of the provider and the recording of a chunk look at the lease's
      expiry. */
  predicate Accepts(now: int, job: Job, action: Action) {
    match action
    case Claim(_, _) => job.state.Queued? && job.cancelledAt.None?
    case MarkProviderStarted(w, t) => job.state.Claimed? && Fenced(job, w, t) && Unexpired(now, job)
        && job.cancelledAt.None?
    case RecordChunk(w, t, _) => AtProvider(job.state) && Fenced(job, w, t) && Unexpired(now, job)
        && job.cancelledAt.None?
    case Complete(w, t) => job.state.Streaming? && Fenced(job, w, t) && job.firstChunkAt.Some? && job.cancelledAt.None?
    case MarkAmbiguous(w, t) => AtProvider(job.state) && Fenced(job, w, t)
    case MarkCancelled(w, t) => AtProvider(job.state) && Fenced(job, w, t)
    case Cancel(org, workspace, user) =>
      !Terminal(job.state) && job.key.org == org && job.key.workspace == workspace && job.key.user == user
  }

  function Act(now: int, job: Job, action: Action): Job {
    if !Accepts(now, job, action) then job else
    match action
    case Claim(w, seconds) =>
      job.(state := Claimed, lease := Some(Lease(w, now + seconds)), attempts := job.attempts + 1,
          token := job.token + 1)
    case MarkProviderStarted(_, _) => job.(state := ProviderStarting, startedAt := Some(now))
    case RecordChunk(w, _, size) =>
      job.(state := Streaming, firstChunkAt := if job.firstChunkAt.Some? then job.firstChunkAt else Some(now),
      chunks := job.chunks + 1, audioBytes := job.audioBytes + size, lease := Some(Lease(w, now + 60)))
    case Complete(_, _) => job.(state := Completed, completedAt := Some(now), lease := None)
    case MarkAmbiguous(_, _) => job.(state := AmbiguousOutcome, lease := None)
    case MarkCancelled(_, _) =>
      job.(state := Cancelled, cancelledAt := if job.cancelledAt.Some? then job.cancelledAt
          else Some(now), lease := None)
    case Cancel(_, _, _) => job.(state := Cancelled, cancelledAt := Some(now), lease := None)
  }

  predicate Requeues(now: int, job: Job) {
    job.state.Claimed? && job.lease.Some? && job.lease.value.expiresAt <= now && job.startedAt.None?
        && job.cancelledAt.None?
  }

  predicate Orphaned(now: int, job: Job) {
    AtProvider(job.state) && job.lease.Some? && job.lease.value.expiresAt <= now
  }

  /** recover_expired on one row: claims not yet sent to the provider go back to the queue, anything later is
      ambiguous. */
  function Recover(now: int, job: Job): Job {
    if Requeues(now, job) then job.(state := Queued, lease := None)
    else if Orphaned(now, job) then job.(state := AmbiguousOutcome, lease := None)
    else job
  }

  predicate Candidate(db: Db, locked: set<JobId>, j: JobId) {
    j in db.jobs && j !in locked && db.jobs[j].state.Queued? && db.jobs[j].cancelledAt.None?
  }

  predicate Earlier(db: Db, a: JobId, b: JobId)
    requires a in db.jobs && b in db.jobs
  {
    db.jobs[a].createdAt < db.jobs[b].createdAt || (db.jobs[a].createdAt == db.jobs[b].createdAt && a <= b)
  }

  /** The row ORDER BY created_at, id ... SKIP LOCKED LIMIT 1 selects. */
  predicate Picked(db: Db, locked: set<JobId>, j: JobId) {
    Candidate(db, locked, j) && forall k | k in db.jobs && Candidate(db, locked, k) :: Earlier(db, j, k)
  }

  /** The action an operation performs on job j, if any. */
  function ActionOn(db: Db, op: Op, j: JobId): Option<Action> {
    match op
    case ClaimNext(w, seconds, locked, pick) => if pick == j && Picked(db, locked, j) then Some(Claim(w, seconds))
        else None
    case OnJob(id, action) => if id == j then Some(action) else None
    case _ => None
  }

  function After(db: Db, op: Op, j: JobId): Job
    requires j in db.jobs
  {
    if op.RecoverExpired? then Recover(db.now, db.jobs[j])
    else if ActionOn(db, op, j).Some? then Act(db.now, db.jobs[j], ActionOn(db, op, j).value)
    else db.jobs[j]
  }

  predicate KeyTaken(db: Db, key: Key) {
    exists j | j in db.jobs :: db.jobs[j].key == key
  }

  function NewJob(now: int, key: Key, requestHash: string): Job {
    Job(key, requestHash, now, Queued, 0, 2, 0, None, None, None, None, None, 0, 0)
  }

  /** One transaction. A submission under a taken key inserts nothing. */
  function Apply(db: Db, op: Op): Db {
    var jobs := map j | j in db.jobs :: After(db, op, j);
    match op
    case Tick(seconds) => Db(db.now + seconds, jobs)
    case Submit(id, key, hash) =>
      if id in db.jobs || KeyTaken(db, key) then db else Db(db.now, jobs[id := NewJob(db.now, key, hash)])
    case _ => Db(db.now, jobs)
  }

  function Run(db: Db, ops: seq<Op>): Db
    decreases |ops|
  {
    if ops == [] then db else Run(Apply(db, ops[0]), ops[1..])
  }

  // ---------------------------------------------------------------- the invariant

  predicate JobInv(job: Job) {
    && job.attempts == job.token
    && (job.lease.Some? <==> job.state.Claimed? || AtProvider(job.state))
    && (job.cancelledAt.Some? <==> job.state.Cancelled?)
    && (job.completedAt.Some? <==> job.state.Completed?)
    && (job.state.Queued? || job.state.Claimed? ==> job.startedAt.None?)
    && (AtProvider(job.state) || job.state.Completed? || job.state.AmbiguousOutcome? ==> job.startedAt.Some?)
    && (job.state.Streaming? || job.state.Completed? ==> job.chunks >= 1)
    && (job.firstChunkAt.Some? <==> job.chunks >= 1)
    && (job.startedAt.None? ==> job.chunks == 0 && job.audioBytes == 0)
  }

  ghost predicate Inv(db: Db) {
    && (forall j | j in db.jobs :: JobInv(db.jobs[j]))
    && (forall i, j | i in db.jobs && j in db.jobs && db.jobs[i].key == db.jobs[j].key :: i == j)
  }

  lemma ActKeeps(now: int, job: Job, action: Action)
    requires JobInv(job)
    ensures JobInv(Act(now, job, action)) && Act(now, job, action).key == job.key
  {
  }

  lemma RowKeeps(db: Db, op: Op, j: JobId)
    requires j in db.jobs && JobInv(db.jobs[j])
    ensures JobInv(After(db, op, j)) && After(db, op, j).key == db.jobs[j].key
  {
    hide Act, Picked;
    if ActionOn(db, op, j).Some? {
      ActKeeps(db.now, db.jobs[j], ActionOn(db, op, j).value);
    }
  }

  /** Every transaction keeps the invariant of every row and the uniqueness of the keys. */
  lemma StepKeepsInv(db: Db, op: Op)
    requires Inv(db)
    ensures Inv(Apply(db, op))
  {
    hide After, JobInv;
    forall j | j in db.jobs ensures JobInv(After(db, op, j)) && After(db, op, j).key == db.jobs[j].key {
      RowKeeps(db, op, j);
    }
    if op.Submit? {
      NewJobIsValid(db.now, op.key, op.requestHash);
    }
  }

  lemma NewJobIsValid(now: int, key: Key, hash: string)
    ensures JobInv(NewJob(now, key, hash))
  {
  }

  lemma {:induction false} RunKeepsInv(db: Db, ops: seq<Op>)
    requires Inv(db)
    ensures Inv(Run(db, ops))
    decreases |ops|
  {
    if ops != [] {
      hide Inv, Apply;
      StepKeepsInv(db, ops[0]);
      RunKeepsInv(Apply(db, ops[0]), ops[1..]);
    }
  }

  // ---------------------------------------------------------------- accounting

  /** Provider starts, claims, chunks and audio bytes. */
  datatype Tally = Tally(starts: nat, claims: nat, chunks: nat, audioBytes: nat)

  function Plus(a: Tally, b: Tally): Tally {
    Tally(a.starts + b.starts, a.claims + b.claims, a.chunks + b.chunks, a.audioBytes + b.audioBytes)
  }

  lemma PlusAssociates(a: Tally, b: Tally, c: Tally)
    ensures Plus(Plus(a, b), c) == Plus(a, Plus(b, c))
  {
  }

  const NOTHING := Tally(0, 0, 0, 0)

  lemma PlusNothing(a: Tally)
    ensures Plus(a, NOTHING) == a
  {
  }

  function Counters(job: Job): Tally {
    Tally(if job.startedAt.Some? then 1 else 0, job.token, job.chunks, job.audioBytes)
  }

  /** What the row of j says has happened so far. */
  function Booked(db: Db, j: JobId): Tally {
    if j in db.jobs then Counters(db.jobs[j]) else NOTHING
  }

  /** What one transaction on a row gets accepted. */
  function Gain(now: int, job: Job, action: Action): Tally {
    if !Accepts(now, job, action) then NOTHING else
    match action
    case MarkProviderStarted(_, _) => Tally(1, 0, 0, 0)
    case Claim(_, _) => Tally(0, 1, 0, 0)
    case RecordChunk(_, _, size) => Tally(0, 0, 1, size)
    case _ => NOTHING
  }

  function Accepted(db: Db, op: Op, j: JobId): Tally {
    var action := ActionOn(db, op, j);
    if j in db.jobs && action.Some? then Gain(db.now, db.jobs[j], action.value) else NOTHING
  }

  function AcceptedInRun(db: Db, ops: seq<Op>, j: JobId): Tally
    decreases |ops|
  {
    if ops == [] then NOTHING
    else Plus(Accepted(db, ops[0], j), AcceptedInRun(Apply(db, ops[0]), ops[1..], j))
  }

  lemma ActIsBooked(now: int, job: Job, action: Action)
    requires JobInv(job)
    ensures Counters(Act(now, job, action)) == Plus(Counters(job), Gain(now, job, action))
  {
  }

  lemma RecoverIsNotBooked(now: int, job: Job)
    ensures Counters(Recover(now, job)) == Counters(job)
  {
  }

  lemma RowIsBooked(db: Db, op: Op, j: JobId)
    requires j in db.jobs && JobInv(db.jobs[j])
    ensures Counters(After(db, op, j)) == Plus(Counters(db.jobs[j]), Accepted(db, op, j))
    ensures op.Submit? ==> After(db, op, j) == db.jobs[j]
  {
    hide Act, Gain, JobInv, Recover, Counters, Picked;
    if ActionOn(db, op, j).Some? {
      ActIsBooked(db.now, db.jobs[j], ActionOn(db, op, j).value);
    }
    RecoverIsNotBooked(db.now, db.jobs[j]);
  }

  lemma StepIsBooked(db: Db, op: Op, j: JobId)
    requires Inv(db)
    ensures Booked(Apply(db, op), j) == Plus(Booked(db, j), Accepted(db, op, j))
  {
    hide KeyTaken, After, JobInv, ActionOn, Gain, Plus;
    PlusNothing(NOTHING);
    if j in db.jobs {
      hide Accepted, Counters;
      RowIsBooked(db, op, j);
    }
  }

  /** The counters of a job are exact over every run: the fencing token counts the accepted claims, chunk_count and
      audio_bytes add up the accepted chunks, and provider_request_started_at records every accepted provider start. */
  lemma {:induction false} RunIsBooked(db: Db, ops: seq<Op>, j: JobId)
    requires Inv(db)
    ensures Booked(Run(db, ops), j) == Plus(Booked(db, j), AcceptedInRun(db, ops, j))
    decreases |ops|
  {
    hide Inv, Apply, Booked, Accepted, Plus;
    if ops == [] {
      PlusNothing(Booked(db, j));
    } else {
      StepKeepsInv(db, ops[0]);
      StepIsBooked(db, ops[0], j);
      RunIsBooked(Apply(db, ops[0]), ops[1..], j);
      PlusAssociates(Booked(db, j), Accepted(db, ops[0], j), AcceptedInRun(Apply(db, ops[0]), ops[1..], j));
    }
  }

  /** Over any run whatever the provider is started at most once for a job, and not at all if it had been started
      before. */
  lemma ProviderStartsAtMostOnce(db: Db, ops: seq<Op>, j: JobId)
    requires Inv(db)
    ensures Booked(db, j).starts + AcceptedInRun(db, ops, j).starts <= 1
  {
    hide Inv;
    RunIsBooked(db, ops, j);
  }

  lemma StartedJobExists(db: Db, ops: seq<Op>, j: JobId)
    requires Inv(db) && AcceptedInRun(db, ops, j).starts > 0
    ensures j in Run(db, ops).jobs && Run(db, ops).jobs[j].startedAt.Some?
  {
    hide Inv;
    RunIsBooked(db, ops, j);
  }

  /** Repeating a submission under one idempotency key never starts the provider again: two jobs that were both started
      in a run carry different keys. */
  lemma OneProviderStartPerKey(db: Db, ops: seq<Op>, i: JobId, j: JobId)
    requires Inv(db) && AcceptedInRun(db, ops, i).starts > 0 && AcceptedInRun(db, ops, j).starts > 0
    ensures i in Run(db, ops).jobs && j in Run(db, ops).jobs
    ensures Run(db, ops).jobs[i].key == Run(db, ops).jobs[j].key ==> i == j
  {
    StartedJobExists(db, ops, i);
    StartedJobExists(db, ops, j);
    RunKeepsInv(db, ops);
  }

  // ---------------------------------------------------------------- outcomes are final

  lemma TerminalStep(db: Db, op: Op, j: JobId)
    requires Inv(db) && j in db.jobs && Terminal(db.jobs[j].state)
    ensures j in Apply(db, op).jobs && Apply(db, op).jobs[j] == db.jobs[j]
  {
    hide Picked, KeyTaken;
    assert JobInv(db.jobs[j]);
  }

  /** Completed, cancelled and ambiguous outcomes are never revised: the whole row is frozen over every run. */
  lemma {:induction false} OutcomesAreFinal(db: Db, ops: seq<Op>, j: JobId)
    requires Inv(db) && j in db.jobs && Terminal(db.jobs[j].state)
    ensures j in Run(db, ops).jobs && Run(db, ops).jobs[j] == db.jobs[j]
    decreases |ops|
  {
    if ops != [] {
      hide Inv, Apply;
      StepKeepsInv(db, ops[0]);
      TerminalStep(db, ops[0], j);
      OutcomesAreFinal(Apply(db, ops[0]), ops[1..], j);
    }
  }

  // ---------------------------------------------------------------- fencing

  /** No mutation presenting this issued token can be accepted any more. */
  predicate Revoked(job: Job, worker: WorkerId, token: nat) {
    token <= job.token && !Fenced(job, worker, token)
  }

  lemma RevokedStep(db: Db, op: Op, j: JobId, worker: WorkerId, token: nat)
    requires Inv(db) && j in db.jobs && Revoked(db.jobs[j], worker, token)
    ensures j in Apply(db, op).jobs && Revoked(Apply(db, op).jobs[j], worker, token)
  {
    hide Picked, KeyTaken;
    assert JobInv(db.jobs[j]);
  }

  /** A worker whose lease was taken back never gets another mutation through, however the job is reclaimed. */
  lemma {:induction false} RevokedStaysRevoked(db: Db, ops: seq<Op>, j: JobId, worker: WorkerId, token: nat)
    requires Inv(db) && j in db.jobs && Revoked(db.jobs[j], worker, token)
    ensures j in Run(db, ops).jobs && Revoked(Run(db, ops).jobs[j], worker, token)
    decreases |ops|
  {
    if ops != [] {
      hide Inv, Apply, Revoked;
      StepKeepsInv(db, ops[0]);
      RevokedStep(db, ops[0], j, worker, token);
      RevokedStaysRevoked(Apply(db, ops[0]), ops[1..], j, worker, token);
    }
  }

  // ---------------------------------------------------------------- attempts are not bounded

  /** A claim whose worker falls silent until its lease is over, and a recovery: the job is queued again with one more
      attempt. */
  function LostClaim(j: JobId, worker: WorkerId, seconds: nat): seq<Op> {
    [OnJob(j, Claim(worker, seconds)), Tick(seconds), RecoverExpired]
  }

  lemma ClaimOnly(db: Db, j: JobId, worker: WorkerId, seconds: nat)
    requires j in db.jobs && JobInv(db.jobs[j]) && db.jobs[j].state.Queued?
    ensures var db' := Apply(db, OnJob(j, Claim(worker, seconds)));
            && db'.now == db.now && j in db'.jobs
            && db'.jobs[j] == db.jobs[j].(state := Claimed, lease := Some(Lease(worker, db.now + seconds)),
                                          attempts := db.jobs[j].attempts + 1, token := db.jobs[j].token + 1)
  {
    hide Picked, KeyTaken;
  }

  lemma TickOnly(db: Db, j: JobId, seconds: nat)
    requires j in db.jobs
    ensures var db' := Apply(db, Tick(seconds));
            db'.now == db.now + seconds && j in db'.jobs && db'.jobs[j] == db.jobs[j]
  {
    hide Picked, KeyTaken;
  }

  lemma RecoverOnly(db: Db, j: JobId)
    requires j in db.jobs && Requeues(db.now, db.jobs[j])
    ensures var db' := Apply(db, RecoverExpired);
            j in db'.jobs && db'.jobs[j] == db.jobs[j].(state := Queued, lease := None)
  {
    hide Picked, KeyTaken;
  }

  lemma LostClaimRequeues(db: Db, j: JobId, worker: WorkerId, seconds: nat)
    requires Inv(db) && j in db.jobs && db.jobs[j].state.Queued?
    ensures var db' := Run(db, LostClaim(j, worker, seconds));
            Inv(db') && j in db'.jobs && db'.jobs[j] ==
                db.jobs[j].(attempts := db.jobs[j].attempts + 1, token := db.jobs[j].token + 1)
  {
    var ops := LostClaim(j, worker, seconds);
    var db1 := Apply(db, ops[0]);
    var db2 := Apply(db1, ops[1]);
    assert JobInv(db.jobs[j]);
    RunKeepsInv(db, ops);
    hide Apply, Inv;
    ClaimOnly(db, j, worker, seconds);
    TickOnly(db1, j, seconds);
    RecoverOnly(db2, j);
    assert ops[1..][1..] == [RecoverExpired] && ops[1..][1..][1..] == [];
    assert Run(db, ops) == Run(db1, ops[1..]) == Run(db2, ops[1..][1..]) == Apply(db2, RecoverExpired);
  }

  lemma {:induction false} RunAppends(db: Db, a: seq<Op>, b: seq<Op>)
    ensures Run(db, a + b) == Run(Run(db, a), b)
    decreases |a|
  {
    if a == [] {
      assert a + b == b;
    } else {
      assert (a + b)[0] == a[0] && (a + b)[1..] == a[1..] + b;
      RunAppends(Apply(db, a[0]), a[1..], b);
    }
  }

  function LostClaims(n: nat, j: JobId, worker: WorkerId, seconds: nat): seq<Op> {
    if n == 0 then [] else LostClaim(j, worker, seconds) + LostClaims(n - 1, j, worker, seconds)
  }

  /** max_attempts is stored but no statement reads it: a queued job can be claimed and requeued any number of times,
      whatever the length of the leases. */
  lemma {:induction false} AttemptsAreUnbounded(db: Db, j: JobId, worker: WorkerId, seconds: nat, n: nat)
    requires Inv(db) && j in db.jobs && db.jobs[j].state.Queued?
    ensures var db' := Run(db, LostClaims(n, j, worker, seconds));
            j in db'.jobs && db'.jobs[j].attempts == db.jobs[j].attempts + n
                && db'.jobs[j].maxAttempts == db.jobs[j].maxAttempts
    decreases n
  {
    if n > 0 {
      hide Run, Inv, LostClaim;
      LostClaimRequeues(db, j, worker, seconds);
      RunAppends(db, LostClaim(j, worker, seconds), LostClaims(n - 1, j, worker, seconds));
      AttemptsAreUnbounded(Run(db, LostClaim(j, worker, seconds)), j, worker, seconds, n - 1);
    } else {
      assert LostClaims(n, j, worker, seconds) == [];
    }
  }

  /** Exactly one transaction breaks the stored limit: a claim of a queued job that has used it up. */
  lemma LimitKeptExactly(now: int, job: Job, action: Action)
    requires JobInv(job) && job.attempts <= job.maxAttempts
    ensures Act(now, job, action).attempts <= Act(now, job, action).maxAttempts <==>
            !(action.Claim? && job.state.Queued? && job.attempts == job.maxAttempts)
  {
  }
}
