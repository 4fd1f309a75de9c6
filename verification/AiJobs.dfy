/**
 The durable AI job queue (app/core/ai_jobs.py, app/core/ai_orchestration.py and the
 handlers that call them). Every SQL transaction is one atomic step on the tables; now() is
 the clock of the step, in whole seconds. All tables but the worker registrations are keyed
 by job, so a job's rows are kept together in one Record.
 */
module AiJobs {
  import opened Base
  import opened ModelProfiles

  type JobId = nat
  type ApprovalId = nat
  type OrgId = nat
  type WorkspaceId = nat
  type WorkerId = string
  type ServiceId = string
  type Hash = string

  datatype JobState =
    | Queued | Available | Leased | Running | RetryWait | Completed | Failed | CancelRequested
    | Cancelled | Expired | DeadLetter | ApprovalRequired | Approved | Rejected

  /** What a job row never changes after it is inserted. */
  datatype Spec = Spec(
    org: OrgId, workspace: WorkspaceId, key: string, requestHash: Hash, profile: Option<Profile>,
    priority: nat, createdAt: int, deadlineAt: Option<int>, needsApproval: bool)

  /** lease_owner and lease_expires_at, which every statement sets and clears together. */
  datatype Lease = Lease(owner: WorkerId, expiresAt: int)

  /** One row of ai_generation_jobs. */
  datatype Job = Job(
    spec: Spec,
    state: JobState,
    attemptCount: nat,
    maxAttempts: nat,
    fencingToken: nat,
    lease: Option<Lease>,
    nextAttemptAt: int,
    cancelRequestedAt: Option<int>,
    completedAt: Option<int>,
    outputBytes: nat)

  datatype Attempt = Attempt(token: nat, worker: WorkerId)

  datatype Chunk = Chunk(token: nat, size: nat, hash: Hash)

  datatype ApprovalState = Pending | Granted | Denied

  datatype Approval = Approval(id: ApprovalId, state: ApprovalState, decidedAt: Option<int>)

  datatype DeadLetterRow = DeadLetterRow(attempts: nat, failedAt: int, requiresNewApproval: bool)

  /** A job row with its attempts (by attempt number), chunks (by sequence), result, usage charge, approval and dead
      letter. */
  datatype Record = Record(
    job: Job,
    attempts: map<nat, Attempt>,
    chunks: map<nat, Chunk>,
    result: Option<Hash>,
    charge: Option<nat>,
    approval: Option<Approval>,
    deadLetter: Option<DeadLetterRow>)

  datatype Registration = Registration(service: ServiceId, maxConcurrency: nat, enabled: bool)

  datatype Db = Db(now: int, records: map<JobId, Record>, workers: map<WorkerId, Registration>)

  datatype Reason =
    | InvalidProfileFilter | WorkerNotEnabled | ConcurrencyLimit | StaleLease | OutputLimitExceeded
    | DuplicateResult | ActiveCommandNotFound | PendingApprovalNotFound | NewApprovalRequired
    | NotRetryable | IdempotencyConflict | CommandIdConflict | QuotaExceeded | ConstraintViolation

  datatype Reply =
    | Refused(reason: Reason)
    | Idle
    | Claimed(job: JobId, token: nat)
    | Replayed(job: JobId)
    | Duplicate(state: JobState)
    | Moved(state: JobState)
    | ChunkStored(inserted: bool)
    | CancelNotRequested(state: JobState)
    | Swept(retried: nat, deadLettered: nat)
    | Expirations(count: nat)
    | Accepted

  datatype NewJob = NewJob(
    org: OrgId, workspace: WorkspaceId, key: string, requestHash: Hash, profile: Option<Profile>,
    priority: nat, deadlineAt: Option<int>, needsApproval: bool, maxAttempts: nat)

  /** An optional restriction to one organization and one workspace. */
  datatype Scope = Scope(org: Option<OrgId>, workspace: Option<WorkspaceId>)

  datatype ClaimRequest = ClaimRequest(
    worker: WorkerId, leaseSeconds: nat, scope: Scope, service: Option<ServiceId>, profiles: Option<seq<Profile>>)

  /** The identity a worker presents with every lease mutation. */
  datatype Caller = Caller(worker: WorkerId, token: nat, scope: Scope)

  datatype Output = Output(hash: Hash, tokens: nat)

  /** Transactions on one named job. */
  datatype Action =
    | Heartbeat(caller: Caller, leaseSeconds: nat)
    | AppendChunk(caller: Caller, sequence: nat, size: nat, hash: Hash, limit: nat)
    | Complete(caller: Caller, submitted: Option<Output>, approvalId: ApprovalId)
    | StoreAndFinish(caller: Caller, output: Output, approvalId: ApprovalId)
    | Finish(caller: Caller, failed: bool, retryable: bool)
    | WorkerCancel(caller: Caller)
    | UserCancel(scope: Scope)
    | ConsoleCancel(scope: Scope)
    | Decide(scope: Scope, approved: bool)
    | GrantApproval(approvalId: ApprovalId)
    | RetryDeadLetter(approvalId: ApprovalId, scope: Scope)

  datatype Op =
    | Tick(seconds: nat)
    | RegisterWorker(worker: WorkerId, registration: Registration)
    | Submit(id: JobId, command: NewJob)
    | Claim(request: ClaimRequest, locked: set<JobId>, pick: Option<JobId>)
    | OnJob(id: JobId, action: Action)
    | RecoverExpired(scope: Scope)
    | ExpireDeadlines(scope: Scope)

  // ---------------------------------------------------------------- leases

  predicate InScope(job: Job, scope: Scope) {
    && (scope.org.None? || job.spec.org == scope.org.value)
    && (scope.workspace.None? || job.spec.workspace == scope.workspace.value)
  }

  /** An unexpired lease held by the worker, under whatever token. */
  predicate HeldBy(now: int, job: Job, worker: WorkerId) {
    && (job.state.Leased? || job.state.CancelRequested?)
    && job.lease.Some? && job.lease.value.owner == worker && now < job.lease.value.expiresAt
  }

  /** assert_lease: the job is leased (or, if allowed, cancel_requested) to exactly this worker and token, unexpired. */
  predicate LeaseOk(now: int, job: Job, c: Caller, allowCancelRequested: bool) {
    && HeldBy(now, job, c.worker)
    && (job.state.Leased? || allowCancelRequested)
    && job.fencingToken == c.token
    && InScope(job, c.scope)
  }

  // ---------------------------------------------------------------- claim, seen from the claimed job

  predicate BeforeDeadline(now: int, job: Job) {
    job.spec.deadlineAt.None? || now < job.spec.deadlineAt.value
  }

  predicate Claimable(now: int, job: Job) {
    && (job.state.Queued? || job.state.RetryWait?)
    && job.nextAttemptAt <= now
    && job.cancelRequestedAt.None?
    && BeforeDeadline(now, job)
  }

  function ClaimRow(now: int, job: Job, worker: WorkerId, leaseSeconds: nat): Job {
    job.(state := Leased, lease := Some(Lease(worker, now + leaseSeconds)),
         fencingToken := job.fencingToken + 1, attemptCount := job.attemptCount + 1)
  }

  /** The claim rolls back if its attempt row would repeat an attempt number. */
  function ClaimRecord(now: int, rec: Record, worker: WorkerId, leaseSeconds: nat): Record {
    var row := ClaimRow(now, rec.job, worker, leaseSeconds);
    if !Claimable(now, rec.job) || row.attemptCount in rec.attempts then rec
    else rec.(job := row, attempts := rec.attempts[row.attemptCount := Attempt(row.fencingToken, worker)])
  }

  // ---------------------------------------------------------------- worker transactions

  function HeartbeatAct(now: int, rec: Record, c: Caller, leaseSeconds: nat): (Record, Reply) {
    if !LeaseOk(now, rec.job, c, true) then (rec, Refused(StaleLease))
    else (rec.(job := rec.job.(lease := Some(Lease(c.worker, now + leaseSeconds)))), Accepted)
  }

  function AppendChunkAct(now: int, rec: Record, c: Caller, sequence: nat, size: nat, hash: Hash,
                          limit: nat): (Record, Reply) {
    if !LeaseOk(now, rec.job, c, false) then (rec, Refused(StaleLease))
    else if rec.job.outputBytes + size > limit then (rec, Refused(OutputLimitExceeded))
    else if sequence in rec.chunks then (rec, ChunkStored(false))
    else (rec.(chunks := rec.chunks[sequence := Chunk(c.token, size, hash)],
               job := rec.job.(outputBytes := rec.job.outputBytes + size)),
          ChunkStored(true))
  }

  function FinishState(job: Job, failed: bool, retryable: bool, completion: JobState): JobState {
    if job.cancelRequestedAt.Some? then Cancelled
    else if !failed then completion
    else if retryable && job.attemptCount < job.maxAttempts then RetryWait
    else DeadLetter
  }

  function Pow2(n: nat): nat {
    if n == 0 then 1 else 2 * Pow2(n - 1)
  }

  function Backoff(attempts: nat): nat {
    var p := Pow2(if attempts <= 8 then attempts else 8);
    if p <= 300 then p else 300
  }

  function FinishRow(now: int, job: Job, state: JobState): Job {
    job.(state := state, lease := None,
         nextAttemptAt := if state.RetryWait? then now + Backoff(job.attemptCount) else job.nextAttemptAt,
         completedAt := if state.Completed? || state.ApprovalRequired? || state.Cancelled? || state.DeadLetter?
             || state.Failed?
                        then Some(now) else None)
  }

  function FinishAct(now: int, rec: Record, c: Caller, failed: bool, retryable: bool,
                     completion: JobState): (Record, Reply) {
    if !LeaseOk(now, rec.job, c, true) then (rec, Refused(StaleLease)) else
      var state := FinishState(rec.job, failed, retryable, completion);
      (rec.(job := FinishRow(now, rec.job, state),
            deadLetter := if state.DeadLetter? then Some(DeadLetterRow(rec.job.attemptCount, now, true))
                else rec.deadLetter),
       Moved(state))
  }

  /** store_result: result, usage charge and pending approval, each inserted only if the job has none. */
  function StoreResult(rec: Record, output: Output, approvalId: ApprovalId): Record {
    rec.(result := if rec.result.Some? then rec.result else Some(output.hash),
         charge := if rec.charge.Some? then rec.charge else Some(output.tokens),
         approval := if rec.job.spec.needsApproval && rec.approval.None? then Some(Approval(approvalId, Pending, None))
             else rec.approval)
  }

  function CompletionState(job: Job): JobState {
    if job.spec.needsApproval then ApprovalRequired else Completed
  }

  /** The in-process worker: store the output and finish in one transaction, rolled back if the lease is stale. */
  function StoreAndFinishAct(now: int, rec: Record, c: Caller, output: Output,
                             approvalId: ApprovalId): (Record, Reply) {
    if !LeaseOk(now, rec.job, c, true) then (rec, Refused(StaleLease))
    else FinishAct(now, StoreResult(rec, output, approvalId), c, false, false, CompletionState(rec.job))
  }

  /** The complete request: a repeated report is answered from the stored result, before any lease check. */
  function CompleteAct(now: int, rec: Record, c: Caller, submitted: Option<Output>,
                       approvalId: ApprovalId): (Record, Reply) {
    if InScope(rec.job, c.scope) && (rec.job.state.Completed? || rec.job.state.ApprovalRequired?) then
      if submitted.Some? && rec.result == Some(submitted.value.hash) then (rec, Duplicate(rec.job.state))
      else (rec, Refused(DuplicateResult))
    else if submitted.None? then FinishAct(now, rec, c, false, false, Completed)
    else if !LeaseOk(now, rec.job, c, false) then (rec, Refused(StaleLease))
    else StoreAndFinishAct(now, rec, c, submitted.value, approvalId)
  }

  /** The attempts table names the worker as the one the token was issued to. */
  predicate OnceHeld(rec: Record, token: nat, worker: WorkerId) {
    exists n | n in rec.attempts :: rec.attempts[n] == Attempt(token, worker)
  }

  function WorkerCancelAct(now: int, rec: Record, c: Caller): (Record, Reply) {
    if LeaseOk(now, rec.job, c, true) then
      if rec.job.cancelRequestedAt.Some? then (rec.(job := FinishRow(now, rec.job, Cancelled)), Moved(Cancelled))
      else (rec, CancelNotRequested(rec.job.state))
    else if InScope(rec.job, c.scope) && rec.job.state.Cancelled? && rec.job.fencingToken == c.token
        && OnceHeld(rec, c.token, c.worker)
    then (rec, Duplicate(Cancelled))
    else (rec, Refused(StaleLease))
  }

  // ---------------------------------------------------------------- users, approvals, dead letters

  function RequestedAt(now: int, job: Job): Option<int> {
    if job.cancelRequestedAt.Some? then job.cancelRequestedAt else Some(now)
  }

  predicate UserCancellable(job: Job) {
    !(job.state.Completed? || job.state.Failed? || job.state.Cancelled? || job.state.Expired? || job.state.DeadLetter?
        || job.state.Rejected?)
  }

  function UserCancelRow(now: int, job: Job): Job {
    var direct := job.state.Queued? || job.state.Available? || job.state.RetryWait? || job.state.ApprovalRequired?;
    job.(cancelRequestedAt := RequestedAt(now, job),
         state := if direct then Cancelled else CancelRequested,
         completedAt := if direct then Some(now) else job.completedAt)
  }

  function UserCancelAct(now: int, rec: Record, scope: Scope): (Record, Reply) {
    if InScope(rec.job, scope) && UserCancellable(rec.job)
    then (rec.(job := UserCancelRow(now, rec.job)), Moved(UserCancelRow(now, rec.job).state))
    else (rec, Refused(ActiveCommandNotFound))
  }

  predicate ConsoleCancellable(job: Job) {
    !(job.state.Completed? || job.state.Failed? || job.state.Cancelled? || job.state.DeadLetter?)
  }

  /** The console's cancel records the request but moves the state only of a job that is waiting. */
  function ConsoleCancelRow(now: int, job: Job): Job {
    var direct := job.state.Queued? || job.state.RetryWait?;
    job.(cancelRequestedAt := RequestedAt(now, job),
         state := if direct then Cancelled else job.state,
         completedAt := if direct then Some(now) else job.completedAt)
  }

  function ConsoleCancelAct(now: int, rec: Record, scope: Scope): (Record, Reply) {
    if InScope(rec.job, scope) && ConsoleCancellable(rec.job)
    then (rec.(job := ConsoleCancelRow(now, rec.job)), Moved(ConsoleCancelRow(now, rec.job).state))
    else (rec, Refused(ActiveCommandNotFound))
  }

  /** decide: settles the pending approval, then overwrites the job state whatever it is. */
  function DecideAct(now: int, rec: Record, scope: Scope, approved: bool): (Record, Reply) {
    if InScope(rec.job, scope) && rec.approval.Some? && rec.approval.value.state.Pending? then
      var state := if approved then Approved else Rejected;
      (rec.(approval :=
          Some(rec.approval.value.(state := if approved then Granted else Denied, decidedAt := Some(now))),
            job := rec.job.(state := state)),
       Moved(state))
    else (rec, Refused(PendingApprovalNotFound))
  }

  /** An operator inserts an approved row; the table admits one approval per job. */
  function GrantApprovalAct(now: int, rec: Record, approvalId: ApprovalId): (Record, Reply) {
    if rec.approval.Some? then (rec, Refused(ConstraintViolation))
    else (rec.(approval := Some(Approval(approvalId, Granted, Some(now)))), Accepted)
  }

  predicate RetryAuthorised(rec: Record, approvalId: ApprovalId, scope: Scope) {
    && InScope(rec.job, scope)
    && rec.deadLetter.Some? && rec.deadLetter.value.requiresNewApproval
    && rec.approval.Some? && rec.approval.value.id == approvalId && rec.approval.value.state.Granted?
    && rec.approval.value.decidedAt.Some? && rec.deadLetter.value.failedAt < rec.approval.value.decidedAt.value
  }

  function RetryDeadLetterAct(now: int, rec: Record, approvalId: ApprovalId, scope: Scope): (Record, Reply) {
    if !RetryAuthorised(rec, approvalId, scope) then (rec, Refused(NewApprovalRequired))
    else if !(rec.job.state.DeadLetter? && rec.job.maxAttempts < 10) then (rec, Refused(NotRetryable))
    else (rec.(job := rec.job.(state := RetryWait, maxAttempts := rec.job.maxAttempts + 1, nextAttemptAt := now,
        completedAt := None),
               deadLetter := Some(rec.deadLetter.value.(requiresNewApproval := false))),
          Moved(RetryWait))
  }

  function Act(now: int, rec: Record, action: Action): (Record, Reply) {
    match action
    case Heartbeat(c, seconds) => HeartbeatAct(now, rec, c, seconds)
    case AppendChunk(c, sequence, size, hash, limit) => AppendChunkAct(now, rec, c, sequence, size, hash, limit)
    case Complete(c, submitted, approvalId) => CompleteAct(now, rec, c, submitted, approvalId)
    case StoreAndFinish(c, output, approvalId) => StoreAndFinishAct(now, rec, c, output, approvalId)
    case Finish(c, failed, retryable) => FinishAct(now, rec, c, failed, retryable, Completed)
    case WorkerCancel(c) => WorkerCancelAct(now, rec, c)
    case UserCancel(scope) => UserCancelAct(now, rec, scope)
    case ConsoleCancel(scope) => ConsoleCancelAct(now, rec, scope)
    case Decide(scope, approved) => DecideAct(now, rec, scope, approved)
    case GrantApproval(approvalId) => GrantApprovalAct(now, rec, approvalId)
    case RetryDeadLetter(approvalId, scope) => RetryDeadLetterAct(now, rec, approvalId, scope)
  }

  /** The refusal when the named job does not exist. */
  function Absent(action: Action): Reason {
    match action
    case UserCancel(_) => ActiveCommandNotFound
    case ConsoleCancel(_) => ActiveCommandNotFound
    case Decide(_, _) => PendingApprovalNotFound
    case GrantApproval(_) => ConstraintViolation
    case RetryDeadLetter(_, _) => NewApprovalRequired
    case _ => StaleLease
  }

  // ---------------------------------------------------------------- sweeps, seen from one job

  predicate LeaseLapsed(now: int, job: Job) {
    job.lease.Some? && job.lease.value.expiresAt <= now
  }

  predicate SweepsToRetry(now: int, job: Job) {
    job.state.Leased? && LeaseLapsed(now, job) && job.attemptCount < job.maxAttempts && BeforeDeadline(now, job)
  }

  predicate SweepsToDeadLetter(now: int, job: Job) {
    job.state.Leased? && LeaseLapsed(now, job) && job.attemptCount >= job.maxAttempts && BeforeDeadline(now, job)
  }

  /** The three updates of recover_expired; a dead letter is inserted only for a job that has none. */
  function SweepRecord(now: int, rec: Record): Record {
    if rec.job.state.CancelRequested? && LeaseLapsed(now, rec.job) then
      rec.(job := rec.job.(state := Cancelled, lease := None, completedAt := Some(now)))
    else if SweepsToRetry(now, rec.job) then
      rec.(job := rec.job.(state := RetryWait, lease := None, nextAttemptAt := now))
    else if SweepsToDeadLetter(now, rec.job) then
      rec.(job := rec.job.(state := DeadLetter, lease := None, completedAt := Some(now)),
           deadLetter := if rec.deadLetter.Some? then rec.deadLetter
               else Some(DeadLetterRow(rec.job.attemptCount, now, true)))
    else rec
  }

  predicate DeadlinePassed(now: int, job: Job) {
    (job.state.Queued? || job.state.RetryWait? || job.state.Leased?) && job.spec.deadlineAt.Some?
        && job.spec.deadlineAt.value <= now
  }

  function DeadlineRecord(now: int, rec: Record): Record {
    if DeadlinePassed(now, rec.job)
        then rec.(job := rec.job.(state := Expired, lease := None, completedAt := Some(now))) else rec
  }

  // ---------------------------------------------------------------- which job is claimed

  function ActiveJobs(db: Db, worker: WorkerId, scope: Scope): set<JobId> {
    set j | j in db.records && HeldBy(db.now, db.records[j].job, worker) && InScope(db.records[j].job, scope)
  }

  function ProfilesOf(db: Db, jobs: set<JobId>): set<Option<Profile>>
    requires jobs <= db.records.Keys
  {
    set j | j in jobs :: db.records[j].job.spec.profile
  }

  predicate FilterIllFormed(profiles: Option<seq<Profile>>) {
    profiles.Some? && (profiles.value == [] || exists i | 0 <= i < |profiles.value| ::
        profiles.value[i] !in MODEL_PROFILES)
  }

  function ClaimLimit(r: Registration): nat {
    if r.maxConcurrency <= WORKER_HARD_SAFETY_CAP then r.maxConcurrency else WORKER_HARD_SAFETY_CAP
  }

  /** The exception a claim raises before it looks for work, if any. */
  function ClaimGate(db: Db, r: ClaimRequest): Option<Reason> {
    if FilterIllFormed(r.profiles) then Some(InvalidProfileFilter)
    else if r.service.None? then None
    else if !(r.worker in db.workers && db.workers[r.worker].service == r.service.value && db.workers[r.worker].enabled)
    then Some(WorkerNotEnabled)
    else if |ActiveJobs(db, r.worker, r.scope)| >= ClaimLimit(db.workers[r.worker]) then Some(ConcurrencyLimit)
    else None
  }

  /** Profiles this claim may take: server policy beside the worker's live leases, cut by the client's filter. */
  function ClaimProfiles(db: Db, r: ClaimRequest): set<Profile> {
    EffectiveProfiles(if r.service.Some? then ProfilesOf(db, ActiveJobs(db, r.worker, r.scope)) else {}, r.profiles)
  }

  predicate Candidate(db: Db, r: ClaimRequest, j: JobId) {
    && j in db.records
    && Claimable(db.now, db.records[j].job)
    && InScope(db.records[j].job, r.scope)
    && var profile := db.records[j].job.spec.profile;
       if r.service.Some? || r.profiles.Some? then profile.Some? && profile.value in ClaimProfiles(db, r)
       else profile.None? || profile.value in MODEL_PROFILES
  }

  predicate OrderedBefore(a: Spec, b: Spec) {
    a.priority < b.priority || (a.priority == b.priority && a.createdAt < b.createdAt)
  }

  /** j is a first unlocked candidate in (priority, created_at) order. */
  predicate Picked(db: Db, r: ClaimRequest, locked: set<JobId>, j: JobId) {
    && Candidate(db, r, j) && j !in locked
    && forall k | k in db.records :: Candidate(db, r, k) && k !in locked ==>
         !OrderedBefore(db.records[k].job.spec, db.records[j].job.spec)
  }

  predicate Grants(db: Db, r: ClaimRequest, locked: set<JobId>, j: JobId) {
    ClaimGate(db, r).None? && ClaimProfiles(db, r) != {} && Picked(db, r, locked, j)
  }

  // ---------------------------------------------------------------- submit

  predicate SameKey(job: Job, command: NewJob) {
    job.spec.org == command.org && job.spec.workspace == command.workspace && job.spec.key == command.key
  }

  predicate Inserts(db: Db, id: JobId, command: NewJob) {
    && (forall k | k in db.records :: !SameKey(db.records[k].job, command))
    && id !in db.records
    && 1 <= command.maxAttempts <= 10
  }

  function NewRecord(now: int, c: NewJob): Record {
    Record(Job(Spec(c.org, c.workspace, c.key, c.requestHash, c.profile, c.priority, now, c.deadlineAt,
        c.needsApproval),
               Queued, 0, c.maxAttempts, 0, None, now, None, None, 0),
           map[], map[], None, None, None, None)
  }

  // ---------------------------------------------------------------- runs

  /** What a transaction does to one job. */
  datatype Move = Stay | ByClaim(worker: WorkerId, leaseSeconds: nat) | ByAction(action: Action) | BySweep | ByDeadline

  function After(now: int, rec: Record, move: Move): Record {
    match move
    case Stay => rec
    case ByClaim(worker, seconds) => ClaimRecord(now, rec, worker, seconds)
    case ByAction(action) => Act(now, rec, action).0
    case BySweep => SweepRecord(now, rec)
    case ByDeadline => DeadlineRecord(now, rec)
  }

  function MoveOf(db: Db, op: Op, j: JobId): Move
    requires j in db.records
  {
    match op
    case Tick(_) => Stay
    case RegisterWorker(_, _) => Stay
    case Submit(_, _) => Stay
    case Claim(r, locked, pick) => if pick == Some(j) && Grants(db, r, locked, j) then ByClaim(r.worker, r.leaseSeconds)
        else Stay
    case OnJob(id, action) => if id == j then ByAction(action) else Stay
    case RecoverExpired(scope) => if InScope(db.records[j].job, scope) then BySweep else Stay
    case ExpireDeadlines(scope) => if InScope(db.records[j].job, scope) then ByDeadline else Stay
  }

  /** The tables after one transaction. */
  function Apply(db: Db, op: Op): Db {
    var moved := map j | j in db.records :: After(db.now, db.records[j], MoveOf(db, op, j));
    Db(if op.Tick? then db.now + op.seconds else db.now,
       if op.Submit? && Inserts(db, op.id, op.command) then moved[op.id := NewRecord(db.now, op.command)] else moved,
       if op.RegisterWorker? then db.workers[op.worker := op.registration] else db.workers)
  }

  /** The tables after a sequence of transactions. */
  function Run(db: Db, ops: seq<Op>): Db
    decreases |ops|
  {
    if ops == [] then db else Run(Apply(db, ops[0]), ops[1..])
  }

  /** Empty tables, apart from worker registrations. */
  predicate Initial(db: Db) {
    db.records == map[]
  }
}
