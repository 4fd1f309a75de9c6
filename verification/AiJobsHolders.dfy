/** Who may change a leased job, said of the fields of its row. */
module AiJobsHolders {
  import opened Base
  import opened AiJobs
  import opened AiJobsSteps
  import opened AiJobsInvariant
  import opened AiJobsTheorems

  /** The scope names no other organization and no other workspace than the job's. */
  predicate Covers(scope: Scope, spec: Spec) {
    && (scope.org.Some? ==> scope.org.value == spec.org)
    && (scope.workspace.Some? ==> scope.workspace.value == spec.workspace)
  }

  /** The row is leased to this very worker under this very token, in this scope, and the lease has not run out. */
  predicate IsHolder(now: int, job: Job, c: Caller) {
    && (job.state.Leased? || job.state.CancelRequested?)
    && job.lease.Some? && job.lease.value.owner == c.worker && job.fencingToken == c.token
    && now < job.lease.value.expiresAt && Covers(c.scope, job.spec)
  }

  /** The transactions a worker asks for, each presenting a worker, a token and a scope. */
  predicate ByWorker(action: Action) {
    action.Heartbeat? || action.AppendChunk? || action.Complete? || action.StoreAndFinish? || action.Finish?
    || action.WorkerCancel?
  }

  lemma ScopeTest(job: Job, scope: Scope)
    ensures InScope(job, scope) <==> Covers(scope, job.spec)
  {
  }

  lemma LeaseTest(now: int, job: Job, c: Caller)
    ensures LeaseOk(now, job, c, true) <==> IsHolder(now, job, c)
    ensures LeaseOk(now, job, c, false) <==> IsHolder(now, job, c) && job.state.Leased?
  {
  }

  /** Nobody but the holder changes a row through a worker's transaction - heartbeats and output included - and nobody
      else is told that anything was done. */
  lemma OnlyTheHolderIsHeard(now: int, rec: Record, action: Action)
    requires ByWorker(action) && !IsHolder(now, rec.job, action.caller)
    ensures Act(now, rec, action).0 == rec
    ensures Act(now, rec, action).1.Refused? || Act(now, rec, action).1.Duplicate?
  {
    LeaseTest(now, rec.job, action.caller);
    hide LeaseOk, IsHolder, InScope, OnceHeld, StoreResult;
  }

  /** The issued pair no longer names the holder. */
  predicate TakenBack(now: int, job: Job, worker: WorkerId, token: nat) {
    token <= job.fencingToken && !IsHolder(now, job, Caller(worker, token, Scope(None, None)))
  }

  /** Fencing, end to end: once an issued (worker, token) is not the holder's any more, no later transaction of any kind
      that presents it changes any table, in any run. */
  lemma TakenBackForGood(db: Db, ops: seq<Op>, j: JobId, action: Action)
    requires Inv(db) && j in db.records && ByWorker(action)
    requires TakenBack(db.now, db.records[j].job, action.caller.worker, action.caller.token)
    ensures var later := Run(db, ops);
            && j in later.records && Apply(later, OnJob(j, action)) == later
            && (Act(later.now, later.records[j], action).1.Refused?
                || Act(later.now, later.records[j], action).1.Duplicate?)
  {
    var worker, token := action.caller.worker, action.caller.token;
    TakenBackIsDead(db.now, db.records[j], worker, token);
    hide Inv, Apply, Act;
    DeadLeasesStayDead(db, ops, j, worker, token);
    var later := Run(db, ops);
    DeadIsNotTheHolder(later.now, later.records[j], action.caller);
    OnlyTheHolderIsHeard(later.now, later.records[j], action);
    IgnoredChangesNothing(later, j, action);
  }

  lemma TakenBackIsDead(now: int, rec: Record, worker: WorkerId, token: nat)
    ensures TakenBack(now, rec.job, worker, token) <==> Dead(now, rec, worker, token)
  {
  }

  lemma DeadIsNotTheHolder(now: int, rec: Record, c: Caller)
    requires Dead(now, rec, c.worker, c.token)
    ensures !IsHolder(now, rec.job, c)
  {
  }

  /** The holder's heartbeat moves the end of the lease to now + seconds and nothing else. */
  lemma HeartbeatExactly(now: int, rec: Record, c: Caller, seconds: nat)
    ensures Act(now, rec, Heartbeat(c, seconds)).1.Accepted? <==> IsHolder(now, rec.job, c)
    ensures IsHolder(now, rec.job, c) ==>
              Act(now, rec, Heartbeat(c, seconds)).0 ==
                rec.(job := rec.job.(lease := Some(Lease(rec.job.lease.value.owner, now + seconds))))
  {
  }

  /** A chunk goes in if and only if it comes from the live, uncancelled holder, its sequence number is unused and the
      output stays within the limit; it then carries the holder's token, and the bytes are counted. */
  lemma ChunkStoredExactly(now: int, rec: Record, c: Caller, sequence: nat, size: nat, hash: Hash, limit: nat)
    ensures var (rec', reply) := Act(now, rec, AppendChunk(c, sequence, size, hash, limit));
            && (reply == ChunkStored(true) <==>
                  IsHolder(now, rec.job, c) && rec.job.state.Leased? && sequence !in rec.chunks
                  && rec.job.outputBytes + size <= limit)
            && (reply == ChunkStored(true) ==>
                  && rec'.chunks == rec.chunks[sequence := Chunk(rec.job.fencingToken, size, hash)]
                  && rec' == rec.(chunks := rec'.chunks,
                                  job := rec.job.(outputBytes := rec.job.outputBytes + size)))
            && (reply != ChunkStored(true) ==> rec' == rec)
            && (reply == ChunkStored(false) ==> IsHolder(now, rec.job, c) && sequence in rec.chunks)
  {
  }

  /** A cancellation is acknowledged exactly to the holder of a requested job, and repeated exactly to the worker the
      cancelled job's token was issued to. */
  lemma CancelAnsweredExactly(now: int, rec: Record, c: Caller)
    requires RecInv(now, rec)
    ensures var (rec', reply) := Act(now, rec, WorkerCancel(c));
            && (reply == Moved(Cancelled) <==> IsHolder(now, rec.job, c) && rec.job.cancelRequestedAt.Some?)
            && (reply == Duplicate(Cancelled) <==>
                  && rec.job.state.Cancelled? && Covers(c.scope, rec.job.spec) && rec.job.fencingToken == c.token
                  && c.token in rec.attempts && rec.attempts[c.token].worker == c.worker)
            && (rec' != rec ==> reply == Moved(Cancelled))
  {
    LeaseTest(now, rec.job, c);
    ScopeTest(rec.job, c.scope);
    hide LeaseOk, InScope, ChunksInv, OutcomeInv;
  }
}
