/** What every transaction on the AI job tables keeps, over every run. */
module AiJobsInvariant {
  import opened Base
  import opened ModelProfiles
  import opened AiJobs
  import opened AiJobsSteps

  /** The job row alone. */
  predicate RowInv(job: Job) {
    // one fencing token per attempt, never more than the attempt limit, which is never more than ten
    && job.fencingToken == job.attemptCount <= job.maxAttempts
    && 1 <= job.maxAttempts <= 10
    && (job.state.Queued? || job.state.RetryWait? ==> job.attemptCount < job.maxAttempts)
    // a lease is held only in the two leased states, and only between claim and completion
    && (job.state.Leased? ==> job.lease.Some?)
    && (job.lease.Some? ==> (job.state.Leased? || job.state.CancelRequested?) && 1 <= job.fencingToken)
    && (job.completedAt.None? <==> job.state.Queued? || job.state.RetryWait? || job.lease.Some?)
    // where a cancellation request shows
    && (job.state.CancelRequested? || job.state.Cancelled? ==> job.cancelRequestedAt.Some?)
    && (job.state.Queued? || job.state.Completed? ==> job.cancelRequestedAt.None?)
    // declared by the schema, produced by no transaction
    && !job.state.Available? && !job.state.Running? && !job.state.Failed?
  }

  /** One attempt row for each token ever issued; the current lease belongs to the last of them. */
  ghost predicate AttemptsInv(rec: Record) {
    && (forall n: nat :: n in rec.attempts <==> 1 <= n <= rec.job.fencingToken)
    && (forall n | n in rec.attempts :: rec.attempts[n].token == n)
    && (rec.job.lease.Some? && rec.job.fencingToken in rec.attempts ==>
          rec.attempts[rec.job.fencingToken].worker == rec.job.lease.value.owner)
  }

  ghost function ChunkBytes(chunks: map<nat, Chunk>): nat {
    SumOf(map s | s in chunks :: chunks[s].size)
  }

  /** output_bytes counts exactly the stored chunks, each stored under an issued token. */
  ghost predicate ChunksInv(rec: Record) {
    && rec.job.outputBytes == ChunkBytes(rec.chunks)
    && (forall s | s in rec.chunks :: 1 <= rec.chunks[s].token <= rec.job.fencingToken)
  }

  /** A job no claim or report can touch again: completed, or settled after completion or cancellation. */
  predicate PastReports(job: Job) {
    job.state.Completed? || job.state.ApprovalRequired? || job.state.Cancelled? || job.state.Approved?
        || job.state.Rejected?
    || (job.state.CancelRequested? && job.lease.None?)
  }

  /** A result and its usage charge appear together; a pending approval waits on a finished job; a dead job has its
      evidence. */
  predicate OutcomeInv(now: int, rec: Record) {
    && (rec.result.Some? <==> rec.charge.Some?)
    && (rec.result.Some? ==> PastReports(rec.job))
    && (rec.approval.Some? ==>
          && (rec.approval.value.state.Pending? <==> rec.approval.value.decidedAt.None?)
          && (rec.approval.value.decidedAt.Some? ==> rec.approval.value.decidedAt.value <= now)
          && (rec.approval.value.state.Pending? ==>
                rec.job.spec.needsApproval && (rec.job.state.ApprovalRequired? || rec.job.state.Cancelled?)))
    && (rec.deadLetter.Some? ==> rec.deadLetter.value.failedAt <= now)
    && (rec.job.state.DeadLetter? ==> rec.deadLetter.Some?)
  }

  ghost predicate RecInv(now: int, rec: Record) {
    RowInv(rec.job) && AttemptsInv(rec) && ChunksInv(rec) && OutcomeInv(now, rec)
  }

  predicate KeysClash(a: Spec, b: Spec) {
    a.org == b.org && a.workspace == b.workspace && a.key == b.key
  }

  ghost predicate KeysUnique(db: Db) {
    forall j, k | j in db.records && k in db.records && KeysClash(db.records[j].job.spec, db.records[k].job.spec) ::
        j == k
  }

  ghost predicate Inv(db: Db) {
    KeysUnique(db) && forall j | j in db.records :: RecInv(db.now, db.records[j])
  }

  // ---------------------------------------------------------------- one move

  ghost predicate RowKept(now: int, a: Record, b: Record) {
    RowInv(b.job) && OutcomeInv(now, b) && b.job.spec == a.job.spec && a.job.fencingToken <= b.job.fencingToken
  }

  lemma WorkerStepKeeps(now: int, a: Record, b: Record)
    requires RowInv(a.job) && OutcomeInv(now, a) && WorkerStep(now, a, b)
    ensures RowKept(now, a, b)
  {
    hide Backoff;
  }

  lemma CancelAskedKeeps(now: int, a: Record, b: Record)
    requires RowInv(a.job) && OutcomeInv(now, a) && CancelAsked(now, a, b)
    ensures RowKept(now, a, b)
  {
  }

  lemma OperatorStepKeeps(now: int, a: Record, b: Record)
    requires RowInv(a.job) && OutcomeInv(now, a) && OperatorStep(now, a, b)
    ensures RowKept(now, a, b)
  {
    if CancelAsked(now, a, b) {
      CancelAskedKeeps(now, a, b);
    } else {
      hide CancelAsked;
    }
  }

  lemma SweepKeeps(now: int, a: Record)
    requires RowInv(a.job) && OutcomeInv(now, a)
    ensures RowKept(now, a, SweepRecord(now, a))
  {
    hide BeforeDeadline;
  }

  lemma DeadlineKeeps(now: int, a: Record)
    requires RowInv(a.job) && OutcomeInv(now, a)
    ensures RowKept(now, a, DeadlineRecord(now, a))
  {
  }

  lemma SweepStepKeeps(now: int, a: Record, b: Record)
    requires RowInv(a.job) && OutcomeInv(now, a) && SweepStep(now, a, b)
    ensures RowKept(now, a, b)
  {
    hide RowInv, OutcomeInv, RowKept, SweepRecord, DeadlineRecord;
    SweepKeeps(now, a);
    DeadlineKeeps(now, a);
  }

  lemma StepKeepsRow(now: int, a: Record, b: Record)
    requires RowInv(a.job) && OutcomeInv(now, a) && Step(now, a, b)
    ensures RowKept(now, a, b)
  {
    hide WorkerStep, OperatorStep, SweepStep, RowInv, OutcomeInv;
    if WorkerStep(now, a, b) {
      WorkerStepKeeps(now, a, b);
    } else if OperatorStep(now, a, b) {
      OperatorStepKeeps(now, a, b);
    } else if SweepStep(now, a, b) {
      SweepStepKeeps(now, a, b);
    }
  }

  /** Attempts and chunks, and the columns that count them, are untouched. */
  ghost predicate Quiet(a: Record, b: Record) {
    && b.attempts == a.attempts && b.chunks == a.chunks
    && b.job.fencingToken == a.job.fencingToken && b.job.outputBytes == a.job.outputBytes
    && (b.job.lease.Some? ==> a.job.lease.Some? && b.job.lease.value.owner == a.job.lease.value.owner)
  }

  lemma StepIsQuiet(now: int, a: Record, b: Record)
    requires RowInv(a.job) && Step(now, a, b)
    ensures LeaseTaken(now, a, b) || OutputExtended(now, a, b) || Quiet(a, b)
  {
    hide Backoff, Stored, NothingStored, RetryAuthorised, LeaseTaken, OutputExtended;
  }

  lemma StepKeepsAttempts(now: int, a: Record, b: Record)
    requires RowInv(a.job) && AttemptsInv(a) && Step(now, a, b)
    ensures AttemptsInv(b)
  {
    hide Step;
    StepIsQuiet(now, a, b);
  }

  lemma ChunkCounted(a: Record, b: Record, s: nat)
    requires ChunksInv(a) && s in b.chunks && s !in a.chunks && b.chunks == a.chunks[s := b.chunks[s]]
    ensures ChunkBytes(b.chunks) == ChunkBytes(a.chunks) + b.chunks[s].size
  {
    var before := map k | k in a.chunks :: a.chunks[k].size;
    SumOfInsert(before, s, b.chunks[s].size);
    assert before[s := b.chunks[s].size] == map k | k in b.chunks :: b.chunks[k].size;
  }

  lemma StepKeepsChunks(now: int, a: Record, b: Record)
    requires RowInv(a.job) && ChunksInv(a) && Step(now, a, b)
    ensures ChunksInv(b)
  {
    hide Step, ChunkBytes;
    StepIsQuiet(now, a, b);
    if OutputExtended(now, a, b) {
      var s :| s in b.chunks && s !in a.chunks && b.chunks[s].token == a.job.fencingToken
          && b.chunks == a.chunks[s := b.chunks[s]]
               && b == a.(chunks := b.chunks, job := a.job.(outputBytes := a.job.outputBytes + b.chunks[s].size));
      ChunkCounted(a, b, s);
    }
  }

  lemma MoveKeeps(now: int, rec: Record, move: Move)
    requires RecInv(now, rec)
    ensures RecInv(now, After(now, rec, move)) && After(now, rec, move).job.spec == rec.job.spec
    ensures Step(now, rec, After(now, rec, move))
  {
    hide Step, After, RowInv, AttemptsInv, ChunksInv, OutcomeInv;
    var rec' := After(now, rec, move);
    MoveSteps(now, rec, move);
    StepKeepsRow(now, rec, rec');
    StepKeepsAttempts(now, rec, rec');
    StepKeepsChunks(now, rec, rec');
  }

  // ---------------------------------------------------------------- one transaction, and every run

  /** Every transaction keeps every record, and moves it by exactly the move addressed to it. */
  lemma StepMoves(db: Db, op: Op, j: JobId)
    requires j in db.records
    ensures j in Apply(db, op).records
    ensures Apply(db, op).records[j] == After(db.now, db.records[j], MoveOf(db, op, j))
  {
    hide After, MoveOf, NewRecord;
  }

  lemma StepAdds(db: Db, op: Op, j: JobId)
    requires j in Apply(db, op).records && j !in db.records
    ensures op.Submit? && j == op.id && Inserts(db, j, op.command)
    ensures Apply(db, op).records[j] == NewRecord(db.now, op.command)
  {
    hide After, MoveOf, NewRecord;
  }

  lemma TimePasses(now: int, now': int, rec: Record)
    requires RecInv(now, rec) && now <= now'
    ensures RecInv(now', rec)
  {
    hide AttemptsInv, ChunksInv, RowInv;
  }

  lemma FreshRecord(now: int, command: NewJob)
    requires 1 <= command.maxAttempts <= 10
    ensures RecInv(now, NewRecord(now, command))
  {
  }

  lemma StepKeepsRecord(db: Db, op: Op, j: JobId)
    requires Inv(db) && j in Apply(db, op).records
    ensures db.now <= Apply(db, op).now
    ensures RecInv(Apply(db, op).now, Apply(db, op).records[j])
    ensures j in db.records ==> Apply(db, op).records[j].job.spec == db.records[j].job.spec
  {
    var db' := Apply(db, op);
    if j in db.records {
      StepMoves(db, op, j);
      MoveKeeps(db.now, db.records[j], MoveOf(db, op, j));
    } else {
      StepAdds(db, op, j);
      FreshRecord(db.now, op.command);
    }
    hide RecInv, After, MoveOf, NewRecord, Inserts;
    TimePasses(db.now, db'.now, db'.records[j]);
  }

  lemma StepGrows(db: Db, op: Op)
    ensures db.now <= Apply(db, op).now && db.records.Keys <= Apply(db, op).records.Keys
  {
    hide After, MoveOf, NewRecord, Inserts;
  }

  /** No insertion repeats an idempotency key in use. */
  lemma StepKeepsKeys(db: Db, op: Op, j: JobId, k: JobId)
    requires Inv(db) && j in Apply(db, op).records && k in Apply(db, op).records
    requires KeysClash(Apply(db, op).records[j].job.spec, Apply(db, op).records[k].job.spec)
    ensures j == k
  {
    hide Apply, RecInv;
    StepKeepsRecord(db, op, j);
    StepKeepsRecord(db, op, k);
    if j !in db.records {
      StepAdds(db, op, j);
    }
    if k !in db.records {
      StepAdds(db, op, k);
    }
    assert j in db.records && k !in db.records ==> !SameKey(db.records[j].job, op.command);
    assert k in db.records && j !in db.records ==> !SameKey(db.records[k].job, op.command);
  }

  lemma StepKeepsInv(db: Db, op: Op)
    requires Inv(db)
    ensures Inv(Apply(db, op))
  {
    hide Apply, RecInv;
    var db' := Apply(db, op);
    forall j | j in db'.records ensures RecInv(db'.now, db'.records[j]) {
      StepKeepsRecord(db, op, j);
    }
    forall j, k | j in db'.records && k in db'.records && KeysClash(db'.records[j].job.spec, db'.records[k].job.spec)
        ensures j == k {
      StepKeepsKeys(db, op, j, k);
    }
  }

  /** Every reachable state satisfies the invariant. */
  lemma {:induction false} RunKeepsInv(db: Db, ops: seq<Op>)
    requires Inv(db)
    ensures Inv(Run(db, ops)) && db.now <= Run(db, ops).now && db.records.Keys <= Run(db, ops).records.Keys
    decreases |ops|
  {
    if ops != [] {
      hide Apply, Inv;
      StepKeepsInv(db, ops[0]);
      StepGrows(db, ops[0]);
      RunKeepsInv(Apply(db, ops[0]), ops[1..]);
    }
  }

  lemma InitialInv(db: Db)
    requires Initial(db)
    ensures Inv(db)
  {
  }
}
