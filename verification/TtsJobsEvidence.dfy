/**
 The text-to-speech jobs, said of the fields of their rows: who may do what, which transaction
 takes a job into which state, and who did it in every run from an empty table.
 */
module TtsJobsEvidence {
  import opened Base
  import opened TtsJobs

  // ---------------------------------------------------------------- fencing

  /** The row names this worker as the owner of its lease, under this token. */
  predicate Owns(job: Job, worker: WorkerId, token: nat) {
    job.lease.Some? && job.lease.value.owner == worker && job.token == token
  }

  predicate Running(job: Job) {
    job.state.ProviderStarting? || job.state.Streaming?
  }

  predicate Lapsed(now: int, job: Job) {
    job.lease.Some? && job.lease.value.expiresAt <= now
  }

  /** The transactions that present a worker and a token. */
  predicate ByWorker(action: Action) {
    action.MarkProviderStarted? || action.RecordChunk? || action.Complete? || action.MarkAmbiguous?
    || action.MarkCancelled?
  }

  /** Nobody but the owner of the lease gets any of them through. */
  lemma StrangersAreRefused(now: int, job: Job, action: Action)
    requires ByWorker(action) && !Owns(job, action.worker, action.token)
    ensures !Accepts(now, job, action) && Act(now, job, action) == job
  {
  }

  lemma RefusedChangesNothing(db: Db, j: JobId, action: Action)
    requires j in db.jobs && Act(db.now, db.jobs[j], action) == db.jobs[j]
    ensures Apply(db, OnJob(j, action)) == db
  {
    hide Act;
    assert Apply(db, OnJob(j, action)).jobs == db.jobs;
  }

  /** Fencing, end to end: once an issued token is taken back, no transaction that presents it is accepted or changes
      the table in any later state of any run - above all not the one that starts the paid provider. */
  lemma TakenBackForGood(db: Db, ops: seq<Op>, j: JobId, action: Action)
    requires Inv(db) && j in db.jobs && ByWorker(action)
    requires action.token <= db.jobs[j].token && !Owns(db.jobs[j], action.worker, action.token)
    ensures var later := Run(db, ops);
            && j in later.jobs && !Accepts(later.now, later.jobs[j], action)
            && Apply(later, OnJob(j, action)) == later
  {
    RevokedStaysRevoked(db, ops, j, action.worker, action.token);
    var later := Run(db, ops);
    hide Run, Inv, Apply, Accepts, Act;
    StrangersAreRefused(later.now, later.jobs[j], action);
    RefusedChangesNothing(later, j, action);
  }

  // ---------------------------------------------------------------- the state graph

  predicate Free(db: Db, locked: set<JobId>, j: JobId) {
    j in db.jobs && j !in locked && db.jobs[j].state.Queued? && db.jobs[j].cancelledAt.None?
  }

  /** The transaction hands job j to the worker: by name, or as the oldest queued job nobody else has locked. */
  predicate HandsOut(db: Db, op: Op, j: JobId, worker: WorkerId, seconds: nat)
    requires j in db.jobs
  {
    || op == OnJob(j, Claim(worker, seconds))
    || (op.ClaimNext? && op.pick == j && op.worker == worker && op.seconds == seconds && Free(db, op.locked, j)
        && forall k | k in db.jobs && Free(db, op.locked, k) ::
             db.jobs[j].createdAt < db.jobs[k].createdAt || (db.jobs[j].createdAt == db.jobs[k].createdAt && j <= k))
  }

  predicate ActsOn(op: Op, j: JobId) {
    op.OnJob? && op.id == j
  }

  /** The owner of the lease asks for it. */
  predicate OwnerAsks(db: Db, op: Op, j: JobId)
    requires j in db.jobs
  {
    ActsOn(op, j) && ByWorker(op.action) && Owns(db.jobs[j], op.action.worker, op.action.token)
  }

  /** The edges of the graph into each state. */
  predicate Cause(db: Db, op: Op, j: JobId, s: State)
    requires j in db.jobs
  {
    var job := db.jobs[j];
    match s
    case Claimed =>
      && job.state.Queued? && job.cancelledAt.None?
      && (if op.ClaimNext? then HandsOut(db, op, j, op.worker, op.seconds)
          else ActsOn(op, j) && op.action.Claim? && HandsOut(db, op, j, op.action.worker, op.action.seconds))
    case ProviderStarting =>
      && job.state.Claimed? && OwnerAsks(db, op, j) && op.action.MarkProviderStarted?
      && !Lapsed(db.now, job) && job.cancelledAt.None?
    case Streaming =>
      && job.state.ProviderStarting? && OwnerAsks(db, op, j) && op.action.RecordChunk?
      && !Lapsed(db.now, job) && job.cancelledAt.None?
    case Completed =>
      job.state.Streaming? && OwnerAsks(db, op, j) && op.action.Complete? && job.cancelledAt.None?
    case AmbiguousOutcome =>
      && Running(job)
      && ((OwnerAsks(db, op, j) && op.action.MarkAmbiguous?) || (op.RecoverExpired? && Lapsed(db.now, job)))
    case Cancelled =>
      || (Running(job) && OwnerAsks(db, op, j) && op.action.MarkCancelled?)
      || (ActsOn(op, j) && op.action.Cancel? && op.action.org == job.key.org && op.action.user == job.key.user
          && op.action.workspace == job.key.workspace
          && (job.state.Queued? || job.state.Claimed? || Running(job)))
    case Queued => op.RecoverExpired? && job.state.Claimed? && Lapsed(db.now, job)
    case Failed => false
  }

  lemma PickExactly(db: Db, op: Op, j: JobId)
    requires op.ClaimNext? && j in db.jobs
    ensures ActionOn(db, op, j) ==
              if HandsOut(db, op, j, op.worker, op.seconds) then Some(Claim(op.worker, op.seconds)) else None
  {
    assert forall k | k in db.jobs :: Free(db, op.locked, k) <==> Candidate(db, op.locked, k);
  }

  /** A job enters a state if and only if the transaction is one of that state's causes. */
  lemma EntersExactly(db: Db, op: Op, j: JobId, s: State)
    requires j in db.jobs && JobInv(db.jobs[j]) && db.jobs[j].state != s
    ensures After(db, op, j).state == s <==> Cause(db, op, j, s)
  {
    if op.ClaimNext? {
      PickExactly(db, op, j);
      hide HandsOut, ActionOn;
    }
  }

  // ---------------------------------------------------------------- what is written on the way

  /** provider_request_started_at is set exactly by the recorded owner, under the current token, before its lease runs
      out and while nobody has cancelled. */
  lemma StartIsWritten(db: Db, op: Op, j: JobId)
    requires j in db.jobs && JobInv(db.jobs[j])
    ensures var job, job' := db.jobs[j], After(db, op, j);
            if OwnerAsks(db, op, j) && op.action.MarkProviderStarted? && job.state.Claimed?
               && db.now < job.lease.value.expiresAt && job.cancelledAt.None?
            then job.startedAt.None? && job'.startedAt == Some(db.now) else job'.startedAt == job.startedAt
  {
    hide Picked;
  }

  /** Chunks and bytes are counted exactly for the owner of a running job, before its lease runs out and while nobody
      has cancelled; each chunk renews the lease for a minute. */
  lemma ChunkIsWritten(db: Db, op: Op, j: JobId)
    requires j in db.jobs && JobInv(db.jobs[j])
    ensures var job, job' := db.jobs[j], After(db, op, j);
            if OwnerAsks(db, op, j) && op.action.RecordChunk? && Running(job)
               && db.now < job.lease.value.expiresAt && job.cancelledAt.None?
            then && job'.chunks == job.chunks + 1 && job'.audioBytes == job.audioBytes + op.action.size
                 && job'.lease == Some(Lease(op.action.worker, db.now + 60))
                 && job'.firstChunkAt == if job.chunks == 0 then Some(db.now) else job.firstChunkAt
            else && job'.chunks == job.chunks && job'.audioBytes == job.audioBytes
                 && job'.firstChunkAt == job.firstChunkAt
  {
    hide Picked;
  }

  /** A claim writes the claimant, the end of its lease and the next token; an outcome is dated and ends the lease. */
  lemma OutcomeIsWritten(db: Db, op: Op, j: JobId)
    requires j in db.jobs && JobInv(db.jobs[j]) && After(db, op, j).state != db.jobs[j].state
    ensures var job, job' := db.jobs[j], After(db, op, j);
            && (job'.state.Claimed? ==>
                  && HandsOut(db, op, j, job'.lease.value.owner, job'.lease.value.expiresAt - db.now)
                  && job'.token == job.token + 1 == job'.attempts)
            && (job'.state.Completed? ==> job'.completedAt == Some(db.now))
            && (job'.state.Cancelled? ==> job'.cancelledAt == Some(db.now))
            && (Terminal(job'.state) || job'.state.Queued? ==> job'.lease.None?)
  {
    if op.ClaimNext? {
      PickExactly(db, op, j);
      hide HandsOut, ActionOn;
    }
  }

  // ---------------------------------------------------------------- evidence over runs

  lemma {:induction false} RunSplits(start: Db, ops: seq<Op>)
    requires ops != []
    ensures Run(start, ops) == Apply(Run(start, ops[..|ops| - 1]), ops[|ops| - 1])
    decreases |ops|
  {
    hide Apply;
    if |ops| > 1 {
      RunSplits(Apply(start, ops[0]), ops[1..]);
      assert ops[..|ops| - 1][1..] == ops[1..][..|ops| - 2];
    } else {
      assert ops[..0] == [] && ops[1..] == [];
    }
  }

  lemma StepMoves(db: Db, op: Op, j: JobId)
    ensures j in db.jobs ==> j in Apply(db, op).jobs && Apply(db, op).jobs[j] == After(db, op, j)
    ensures j !in db.jobs && j in Apply(db, op).jobs ==>
              op.Submit? && op.id == j && Apply(db, op).jobs[j] == NewJob(db.now, op.key, op.requestHash)
  {
    hide Act, Picked, NewJob, Recover;
    if op.Submit? {
      hide KeyTaken;
    }
  }

  /** Whatever holds of a job at the end of a run from an empty table was made true by one of its transactions. */
  lemma {:induction false} TurningPoint(start: Db, ops: seq<Op>, j: JobId, p: Job -> bool) returns (n: nat)
    requires start.jobs == map[] && j in Run(start, ops).jobs && p(Run(start, ops).jobs[j])
    ensures n < |ops|
    ensures var before := Run(start, ops[..n]);
            && Inv(before)
            && (if j in before.jobs then !p(before.jobs[j]) && p(After(before, ops[n], j))
                else ops[n].Submit? && ops[n].id == j && p(NewJob(before.now, ops[n].key, ops[n].requestHash)))
    decreases |ops|
  {
    assert ops != [];
    var m := |ops| - 1;
    var prefix := ops[..m];
    var before := Run(start, prefix);
    RunKeepsInv(start, prefix);
    RunSplits(start, ops);
    StepMoves(before, ops[m], j);
    hide Inv, Apply, After, NewJob, Run;
    if j in before.jobs && p(before.jobs[j]) {
      n := TurningPoint(start, prefix, j, p);
      assert prefix[..n] == ops[..n] && prefix[n] == ops[n];
    } else {
      n := m;
    }
  }

  /** Every job that is not queued was brought into its state by one of the causes of that state. */
  lemma EveryStateHasItsCause(start: Db, ops: seq<Op>, j: JobId) returns (n: nat)
    requires start.jobs == map[] && j in Run(start, ops).jobs && !Run(start, ops).jobs[j].state.Queued?
    ensures n < |ops|
    ensures var before := Run(start, ops[..n]);
            j in before.jobs && Cause(before, ops[n], j, Run(start, ops).jobs[j].state)
  {
    var s := Run(start, ops).jobs[j].state;
    n := TurningPoint(start, ops, j, (job: Job) => job.state == s);
    var before := Run(start, ops[..n]);
    hide Run, After, Cause;
    EntersExactly(before, ops[n], j, s);
  }

  /** Every provider start on record was made, at the recorded time, by the worker that owned the job's lease under its
      token then. */
  lemma EveryStartHasItsOwner(start: Db, ops: seq<Op>, j: JobId) returns (n: nat)
    requires start.jobs == map[] && j in Run(start, ops).jobs && Run(start, ops).jobs[j].startedAt.Some?
    ensures n < |ops|
    ensures var before := Run(start, ops[..n]);
            && j in before.jobs && OwnerAsks(before, ops[n], j) && ops[n].action.MarkProviderStarted?
            && before.now < before.jobs[j].lease.value.expiresAt && before.jobs[j].cancelledAt.None?
            && Run(start, ops).jobs[j].startedAt == Some(before.now)
  {
    var at := Run(start, ops).jobs[j].startedAt;
    n := TurningPoint(start, ops, j, (job: Job) => job.startedAt == at);
    var before := Run(start, ops[..n]);
    hide Run, After;
    StartIsWritten(before, ops[n], j);
  }

  /** A submission inserts its job exactly when no job has its tenant, project, user and idempotency key. */
  lemma InsertedExactly(db: Db, op: Op, j: JobId)
    requires j !in db.jobs
    ensures j in Apply(db, op).jobs <==> op.Submit? && op.id == j && forall k | k in db.jobs :: db.jobs[k].key != op.key
  {
    hide After, NewJob;
  }

  /** Every job of every run was submitted, under the key and with the request it carries. */
  lemma EveryJobWasSubmitted(start: Db, ops: seq<Op>, j: JobId) returns (n: nat)
    requires start.jobs == map[] && j in Run(start, ops).jobs
    ensures n < |ops| && j !in Run(start, ops[..n]).jobs
    ensures var job := Run(start, ops).jobs[j];
            ops[n] == Submit(j, job.key, job.requestHash) && job.createdAt == Run(start, ops[..n]).now
  {
    var job := Run(start, ops).jobs[j];
    n := TurningPoint(start, ops, j,
                      (o: Job) => o.key == job.key && o.requestHash == job.requestHash && o.createdAt == job.createdAt);
    var before := Run(start, ops[..n]);
    if j in before.jobs {
      hide Run, Picked;
    }
  }
}
