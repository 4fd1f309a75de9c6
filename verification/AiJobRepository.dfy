/**
 The repository functions as they run: statement by statement on the tables. Each method is
 proved to leave the tables exactly as the corresponding transaction of AiJobs does.
 */
module AiJobRepository {
  import opened Base
  import opened ModelProfiles
  import opened AiJobs
  import opened AiJobsHolders

  /** A transaction on one job rewrites that job's record and nothing else. */
  lemma OneRecordWritten(db: Db, id: JobId, action: Action)
    ensures id !in db.records ==> Apply(db, OnJob(id, action)) == db
    ensures id in db.records ==>
              Apply(db, OnJob(id, action)) == db.(records := db.records[id := Act(db.now, db.records[id], action).0])
  {
    hide Act;
    var db' := Apply(db, OnJob(id, action));
    if id in db.records {
      assert db'.records == db.records[id := Act(db.now, db.records[id], action).0];
    } else {
      assert db'.records == db.records;
    }
  }

  lemma SubmissionAdds(db: Db, id: JobId, command: NewJob)
    ensures Apply(db, Op.Submit(id, command)) ==
            if Inserts(db, id, command) then db.(records := db.records[id := NewRecord(db.now, command)]) else db
  {
    hide NewRecord, Inserts;
    assert (map j | j in db.records :: After(db.now, db.records[j], MoveOf(db, Op.Submit(id, command), j))) ==
        db.records;
  }

  /** What submit compares a new command with: the workspace's quotas, the day's ledger and the global emergency
      limit. */
  datatype Limits = Limits(
    maxQueued: nat, maxPayload: Option<nat>, payload: nat, dailyTokens: nat, tokensUsed: nat, tokenBudget: nat,
        emergency: nat)

  predicate Counted(job: Job, command: NewJob) {
    && job.spec.org == command.org && job.spec.workspace == command.workspace
    && (job.state.Queued? || job.state.Available? || job.state.RetryWait? || job.state.ApprovalRequired?)
  }

  predicate InUse(job: Job) {
    job.state.Queued? || job.state.Available? || job.state.Leased? || job.state.Running? || job.state.RetryWait?
  }

  predicate OverQuota(db: Db, command: NewJob, limits: Limits) {
    || |set j | j in db.records && Counted(db.records[j].job, command)| >= limits.maxQueued
    || (limits.maxPayload.Some? && limits.payload > limits.maxPayload.value)
    || limits.tokensUsed + limits.tokenBudget > limits.dailyTokens
    || (limits.emergency > 0 && |set j | j in db.records && InUse(db.records[j].job)| >= limits.emergency)
  }

  lemma StoringKeepsTheLease(now: int, rec: Record, output: Output, approvalId: ApprovalId, c: Caller)
    ensures LeaseOk(now, StoreResult(rec, output, approvalId).job, c, true) == LeaseOk(now, rec.job, c, true)
  {
  }

  function ReplyTo(db: Db, id: JobId, action: Action): Reply {
    if id in db.records then Act(db.now, db.records[id], action).1 else Refused(Absent(action))
  }

  predicate LapsedCancel(now: int, job: Job) {
    job.state.CancelRequested? && LeaseLapsed(now, job)
  }

  function CancelLapsedRow(now: int, rec: Record): Record {
    rec.(job := rec.job.(state := Cancelled, lease := None, completedAt := Some(now)))
  }

  function RetryLapsedRow(now: int, rec: Record): Record {
    rec.(job := rec.job.(state := RetryWait, lease := None, nextAttemptAt := now))
  }

  function BuryLapsedRow(now: int, rec: Record): Record {
    rec.(job := rec.job.(state := DeadLetter, lease := None, completedAt := Some(now)),
         deadLetter := if rec.deadLetter.Some? then rec.deadLetter
             else Some(DeadLetterRow(rec.job.attemptCount, now, true)))
  }

  function RewriteRow(now: int, rec: Record, scope: Scope, condition: (int, Job) -> bool,
                      row: (int, Record) -> Record): Record {
    if InScope(rec.job, scope) && condition(now, rec.job) then row(now, rec) else rec
  }

  /** UPDATE ... WHERE scope AND condition. */
  function Rewrite(now: int, records: map<JobId, Record>, scope: Scope, condition: (int, Job) -> bool,
                   row: (int, Record) -> Record): map<JobId, Record> {
    map j | j in records :: RewriteRow(now, records[j], scope, condition, row)
  }

  function Hits(now: int, records: map<JobId, Record>, scope: Scope, condition: (int, Job) -> bool): set<JobId> {
    set j | j in records && InScope(records[j].job, scope) && condition(now, records[j].job)
  }

  /** Some of the rows have been rewritten. */
  function Partly(now: int, records: map<JobId, Record>, done: set<JobId>,
                  row: (int, Record) -> Record): map<JobId, Record> {
    map j | j in records :: if j in done then row(now, records[j]) else records[j]
  }

  lemma PartlyDone(now: int, records: map<JobId, Record>, scope: Scope, condition: (int, Job) -> bool,
                   row: (int, Record) -> Record)
    ensures Partly(now, records, {}, row) == records
    ensures Partly(now, records, Hits(now, records, scope, condition), row) ==
              Rewrite(now, records, scope, condition, row)
  {
    hide InScope;
  }

  lemma HitOne(now: int, records: map<JobId, Record>, scope: Scope, condition: (int, Job) -> bool, done: set<JobId>,
               row: (int, Record) -> Record, j: JobId)
    requires j in Hits(now, records, scope, condition) && j !in done
    ensures j in Partly(now, records, done, row) && Partly(now, records, done, row)[j] == records[j]
    ensures Partly(now, records, done, row)[j := row(now, records[j])] == Partly(now, records, done + {j}, row)
  {
    hide InScope;
  }

  lemma ThreeRewritesOfARow(now: int, rec: Record, scope: Scope)
    ensures var r1 := RewriteRow(now, rec, scope, LapsedCancel, CancelLapsedRow);
            var r2 := RewriteRow(now, r1, scope, SweepsToRetry, RetryLapsedRow);
            RewriteRow(now, r2, scope, SweepsToDeadLetter, BuryLapsedRow) ==
                (if InScope(rec.job, scope) then SweepRecord(now, rec) else rec)
  {
  }

  function SweptOnce(now: int, records: map<JobId, Record>, scope: Scope): map<JobId, Record> {
    var r1 := Rewrite(now, records, scope, LapsedCancel, CancelLapsedRow);
    var r2 := Rewrite(now, r1, scope, SweepsToRetry, RetryLapsedRow);
    Rewrite(now, r2, scope, SweepsToDeadLetter, BuryLapsedRow)
  }

  lemma SweepApplied(db: Db, scope: Scope)
    ensures Apply(db, RecoverExpired(scope)) ==
            db.(records := map j | j in db.records ::
                if InScope(db.records[j].job, scope) then SweepRecord(db.now, db.records[j]) else db.records[j])
  {
    hide SweepRecord, InScope, Grants;
  }

  /** The sweep's three updates run one after another do to each row what SweepRecord does at once. */
  lemma ThreeUpdatesAreOneSweep(db: Db, scope: Scope)
    ensures db.(records := SweptOnce(db.now, db.records, scope)) == Apply(db, RecoverExpired(scope))
  {
    hide RewriteRow, SweepRecord, Apply, InScope;
    SweepApplied(db, scope);
    forall j | j in db.records
      ensures SweptOnce(db.now, db.records, scope)[j] ==
                (if InScope(db.records[j].job, scope) then SweepRecord(db.now, db.records[j]) else db.records[j])
    {
      ThreeRewritesOfARow(db.now, db.records[j], scope);
    }
  }

  /** Rows an earlier update rewrites are not counted by a later one, and no others are missed. */
  lemma SweepCounts(now: int, records: map<JobId, Record>, scope: Scope)
    ensures var r1 := Rewrite(now, records, scope, LapsedCancel, CancelLapsedRow);
            var r2 := Rewrite(now, r1, scope, SweepsToRetry, RetryLapsedRow);
            && Hits(now, r1, scope, SweepsToRetry) == Hits(now, records, scope, SweepsToRetry)
            && Hits(now, r2, scope, SweepsToDeadLetter) == Hits(now, records, scope, SweepsToDeadLetter)
  {
  }

  lemma NothingClaimed(db: Db, r: ClaimRequest, locked: set<JobId>)
    ensures Apply(db, Op.Claim(r, locked, None)) == db
  {
    assert Apply(db, Op.Claim(r, locked, None)).records == db.records;
  }

  lemma PickClaimed(db: Db, r: ClaimRequest, locked: set<JobId>, j: JobId)
    requires j in db.records && Grants(db, r, locked, j)
    ensures Apply(db, Op.Claim(r, locked, Some(j))) ==
            db.(records := db.records[j := ClaimRecord(db.now, db.records[j], r.worker, r.leaseSeconds)])
    ensures Claimable(db.now, db.records[j].job)
  {
    hide ClaimGate, ClaimProfiles;
    assert Apply(db, Op.Claim(r, locked, Some(j))).records ==
           db.records[j := ClaimRecord(db.now, db.records[j], r.worker, r.leaseSeconds)];
  }

  lemma OneUpdateExpires(db: Db, scope: Scope)
    ensures db.(records := Rewrite(db.now, db.records, scope, DeadlinePassed, ExpireRow)) ==
              Apply(db, ExpireDeadlines(scope))
  {
    assert Apply(db, ExpireDeadlines(scope)).records == Rewrite(db.now, db.records, scope, DeadlinePassed, ExpireRow);
  }

  function ExpireRow(now: int, rec: Record): Record {
    rec.(job := rec.job.(state := Expired, lease := None, completedAt := Some(now)))
  }

  class Repository {
    var now: int
    var records: map<JobId, Record>
    var workers: map<WorkerId, Registration>

    function Snapshot(): Db
      reads this
    {
      Db(now, records, workers)
    }

    method Heartbeat(id: JobId, c: Caller, leaseSeconds: nat) returns (reply: Reply)
      modifies this`records
      ensures Snapshot() == Apply(old(Snapshot()), OnJob(id, Action.Heartbeat(c, leaseSeconds)))
      ensures reply == ReplyTo(old(Snapshot()), id, Action.Heartbeat(c, leaseSeconds))
    {
      OneRecordWritten(Snapshot(), id, Action.Heartbeat(c, leaseSeconds));
      hide Apply;
      if id !in records || !LeaseOk(now, records[id].job, c, true) {
        return Refused(StaleLease);
      }
      var rec := records[id];
      records :=
          records[id := rec.(job := rec.job.(lease := Some(Lease(rec.job.lease.value.owner, now + leaseSeconds))))];
      reply := Accepted;
    }

    method AppendChunk(id: JobId, c: Caller, sequence: nat, size: nat, hash: Hash, limit: nat) returns (reply: Reply)
      modifies this`records
      ensures Snapshot() == Apply(old(Snapshot()), OnJob(id, Action.AppendChunk(c, sequence, size, hash, limit)))
      ensures reply == ReplyTo(old(Snapshot()), id, Action.AppendChunk(c, sequence, size, hash, limit))
      ensures reply == ChunkStored(true) <==>
                && id in old(records)
                && var rec := old(records)[id];
                   IsHolder(now, rec.job, c) && rec.job.state.Leased? && sequence !in rec.chunks
                   && rec.job.outputBytes + size <= limit
      ensures reply == ChunkStored(true) ==>
                id in records && records[id].chunks == old(records)[id].chunks[sequence := Chunk(c.token, size, hash)]
    {
      if id in records {
        LeaseTest(now, records[id].job, c);
      }
      OneRecordWritten(Snapshot(), id, Action.AppendChunk(c, sequence, size, hash, limit));
      hide Apply;
      if id !in records || !LeaseOk(now, records[id].job, c, false) {
        return Refused(StaleLease);
      }
      var rec := records[id];
      if rec.job.outputBytes + size > limit {
        return Refused(OutputLimitExceeded);
      }
      var inserted := sequence !in rec.chunks;
      if inserted {
        rec := rec.(chunks := rec.chunks[sequence := Chunk(c.token, size, hash)]);
        records := records[id := rec];
        records := records[id := rec.(job := rec.job.(outputBytes := rec.job.outputBytes + size))];
      }
      reply := ChunkStored(inserted);
    }

    /** The back-off delay, doubled once per attempt up to eight times. */
    method Delay(attempts: nat) returns (delay: nat)
      ensures delay == Backoff(attempts)
    {
      var n := if attempts <= 8 then attempts else 8;
      delay := 1;
      for i := 0 to n
        invariant delay == Pow2(i)
      {
        delay := delay * 2;
      }
      if delay > 300 {
        delay := 300;
      }
    }

    method FinishWith(id: JobId, c: Caller, failed: bool, retryable: bool, completion: JobState) returns (reply: Reply)
      modifies this`records
      ensures id !in old(records) ==> records == old(records) && reply == Refused(StaleLease)
      ensures id in old(records) ==>
                && records == old(records)[id := FinishAct(now, old(records)[id], c, failed, retryable, completion).0]
                && reply == FinishAct(now, old(records)[id], c, failed, retryable, completion).1
    {
      if id !in records || !LeaseOk(now, records[id].job, c, true) {
        return Refused(StaleLease);
      }
      var rec := records[id];
      var state := DeadLetter;
      if rec.job.cancelRequestedAt.Some? {
        state := Cancelled;
      } else if !failed {
        state := completion;
      } else if retryable && rec.job.attemptCount < rec.job.maxAttempts {
        state := RetryWait;
      }
      var delay := Delay(rec.job.attemptCount);
      var final := state.Completed? || state.ApprovalRequired? || state.Cancelled? || state.DeadLetter?
          || state.Failed?;
      rec := rec.(job := rec.job.(state := state, lease := None,
                                  nextAttemptAt := if state.RetryWait? then now + delay else rec.job.nextAttemptAt,
                                  completedAt := if final then Some(now) else None));
      records := records[id := rec];
      if state.DeadLetter? {
        records := records[id := rec.(deadLetter := Some(DeadLetterRow(rec.job.attemptCount, now, true)))];
      }
      reply := Reply.Moved(state);
    }

    /** fail and release. */
    method Finish(id: JobId, c: Caller, failed: bool, retryable: bool) returns (reply: Reply)
      modifies this`records
      ensures Snapshot() == Apply(old(Snapshot()), OnJob(id, Action.Finish(c, failed, retryable)))
      ensures reply == ReplyTo(old(Snapshot()), id, Action.Finish(c, failed, retryable))
    {
      OneRecordWritten(Snapshot(), id, Action.Finish(c, failed, retryable));
      hide Apply, FinishAct;
      reply := FinishWith(id, c, failed, retryable, Completed);
    }

    /** store_result: three inserts that do nothing on conflict. */
    method StoreRows(id: JobId, output: Output, approvalId: ApprovalId) returns (completion: JobState)
      requires id in records
      modifies this`records
      ensures records == old(records)[id := StoreResult(old(records)[id], output, approvalId)]
      ensures completion == CompletionState(old(records)[id].job)
      ensures id in records && var a, b := old(records)[id], records[id];
              && (a.result.None? ==> b.result == Some(output.hash))
              && (a.charge.None? ==> b.charge == Some(output.tokens))
              && (a.result.Some? ==> b.result == a.result) && (a.charge.Some? ==> b.charge == a.charge)
    {
      var rec := records[id];
      if rec.result.None? {
        rec := rec.(result := Some(output.hash));
      }
      if rec.charge.None? {
        rec := rec.(charge := Some(output.tokens));
      }
      completion := Completed;
      if rec.job.spec.needsApproval {
        completion := ApprovalRequired;
        if rec.approval.None? {
          rec := rec.(approval := Some(Approval(approvalId, Pending, None)));
        }
      }
      records := records[id := rec];
    }

    /** complete: the stored result answers a repeat; otherwise result and state are written together or not at all. */
    method Complete(id: JobId, c: Caller, submitted: Option<Output>, approvalId: ApprovalId) returns (reply: Reply)
      modifies this`records
      ensures Snapshot() == Apply(old(Snapshot()), OnJob(id, Action.Complete(c, submitted, approvalId)))
      ensures reply == ReplyTo(old(Snapshot()), id, Action.Complete(c, submitted, approvalId))
    {
      OneRecordWritten(Snapshot(), id, Action.Complete(c, submitted, approvalId));
      hide Apply, FinishAct, StoreResult;
      if id !in records {
        return Refused(StaleLease);
      }
      var rec := records[id];
      if InScope(rec.job, c.scope) && (rec.job.state.Completed? || rec.job.state.ApprovalRequired?) {
        if submitted.Some? && rec.result == Some(submitted.value.hash) {
          return Duplicate(rec.job.state);
        }
        return Refused(DuplicateResult);
      }
      var completion := Completed;
      if submitted.Some? {
        if !LeaseOk(now, rec.job, c, false) {
          return Refused(StaleLease);
        }
        completion := StoreRows(id, submitted.value, approvalId);
      }
      reply := FinishWith(id, c, false, false, completion);
    }

    method RetryDeadLetter(id: JobId, approvalId: ApprovalId, scope: Scope) returns (reply: Reply)
      modifies this`records
      ensures Snapshot() == Apply(old(Snapshot()), OnJob(id, Action.RetryDeadLetter(approvalId, scope)))
      ensures reply == ReplyTo(old(Snapshot()), id, Action.RetryDeadLetter(approvalId, scope))
    {
      OneRecordWritten(Snapshot(), id, Action.RetryDeadLetter(approvalId, scope));
      hide Apply;
      if id !in records || !RetryAuthorised(records[id], approvalId, scope) {
        return Refused(NewApprovalRequired);
      }
      var rec := records[id];
      if !rec.job.state.DeadLetter? || rec.job.maxAttempts >= 10 {
        return Refused(NotRetryable);
      }
      rec := rec.(job := rec.job.(state := RetryWait, maxAttempts := rec.job.maxAttempts + 1, nextAttemptAt := now,
          completedAt := None));
      records := records[id := rec];
      records := records[id := rec.(deadLetter := Some(rec.deadLetter.value.(requiresNewApproval := false)))];
      reply := Reply.Moved(RetryWait);
    }

    /** submit: the first job under the key answers every repeat; a new one is refused exactly when a quota is
        used up. */
    method Submit(id: JobId, command: NewJob, limits: Limits) returns (reply: Reply)
      requires 1 <= command.maxAttempts <= 10
      modifies this`records
      ensures reply.Accepted? <==> Inserts(old(Snapshot()), id, command) && !OverQuota(old(Snapshot()), command, limits)
      ensures Snapshot() == if reply.Accepted? then Apply(old(Snapshot()), Op.Submit(id, command)) else old(Snapshot())
      ensures reply.Replayed? ==> reply.job in records && SameKey(records[reply.job].job, command)
                                  && records[reply.job].job.spec.requestHash == command.requestHash
      ensures reply == Refused(IdempotencyConflict) ==> exists k | k in records ::
                SameKey(records[k].job, command) && records[k].job.spec.requestHash != command.requestHash
      ensures reply.Replayed? || reply == Refused(IdempotencyConflict) <==>
              exists k | k in old(records) :: SameKey(old(records)[k].job, command)
      ensures reply == Refused(QuotaExceeded) <==>
                Inserts(old(Snapshot()), id, command) && OverQuota(old(Snapshot()), command, limits)
    {
      SubmissionAdds(Snapshot(), id, command);
      hide Apply;
      if k :| k in records && SameKey(records[k].job, command) {
        return if records[k].job.spec.requestHash == command.requestHash then Replayed(k)
               else Refused(IdempotencyConflict);
      }
      if id in records {
        return Refused(CommandIdConflict);
      }
      var queued := |set j | j in records && Counted(records[j].job, command)|;
      if queued >= limits.maxQueued {
        return Refused(QuotaExceeded);
      }
      if limits.maxPayload.Some? && limits.payload > limits.maxPayload.value {
        return Refused(QuotaExceeded);
      }
      if limits.tokensUsed + limits.tokenBudget > limits.dailyTokens {
        return Refused(QuotaExceeded);
      }
      if limits.emergency > 0 {
        var active := |set j | j in records && InUse(records[j].job)|;
        if active >= limits.emergency {
          return Refused(QuotaExceeded);
        }
      }
      records := records[id := NewRecord(now, command)];
      reply := Accepted;
    }

    /** The in-process worker stores its output and finishes in one transaction, rolled back when the lease is no longer
        its own. */
    method StoreAndFinish(id: JobId, c: Caller, output: Output, approvalId: ApprovalId) returns (reply: Reply)
      modifies this`records
      ensures Snapshot() == Apply(old(Snapshot()), OnJob(id, Action.StoreAndFinish(c, output, approvalId)))
      ensures reply == ReplyTo(old(Snapshot()), id, Action.StoreAndFinish(c, output, approvalId))
    {
      OneRecordWritten(Snapshot(), id, Action.StoreAndFinish(c, output, approvalId));
      hide Apply, FinishAct, StoreResult;
      var before := records;
      if id !in records {
        return Refused(StaleLease);
      }
      var completion := StoreRows(id, output, approvalId);
      StoringKeepsTheLease(now, before[id], output, approvalId, c);
      if !LeaseOk(now, records[id].job, c, true) {
        records := before;
        return Refused(StaleLease);
      }
      reply := FinishWith(id, c, false, false, completion);
    }

    /** The console's cancel: it records the request, and cancels the job only if it is waiting. */
    method ConsoleCancel(id: JobId, scope: Scope) returns (reply: Reply)
      modifies this`records
      ensures Snapshot() == Apply(old(Snapshot()), OnJob(id, Action.ConsoleCancel(scope)))
      ensures reply == ReplyTo(old(Snapshot()), id, Action.ConsoleCancel(scope))
    {
      OneRecordWritten(Snapshot(), id, Action.ConsoleCancel(scope));
      hide Apply;
      if id !in records || !InScope(records[id].job, scope) {
        return Refused(ActiveCommandNotFound);
      }
      var job := records[id].job;
      if job.state.Completed? || job.state.Failed? || job.state.Cancelled? || job.state.DeadLetter? {
        return Refused(ActiveCommandNotFound);
      }
      var waiting := job.state.Queued? || job.state.RetryWait?;
      if job.cancelRequestedAt.None? {
        job := job.(cancelRequestedAt := Some(now));
      }
      if waiting {
        job := job.(state := Cancelled, completedAt := Some(now));
      }
      records := records[id := records[id].(job := job)];
      reply := Reply.Moved(job.state);
    }

    /** cancel: a waiting job is cancelled at once, any other active one is asked to stop. */
    method UserCancel(id: JobId, scope: Scope) returns (reply: Reply)
      modifies this`records
      ensures Snapshot() == Apply(old(Snapshot()), OnJob(id, Action.UserCancel(scope)))
      ensures reply == ReplyTo(old(Snapshot()), id, Action.UserCancel(scope))
    {
      OneRecordWritten(Snapshot(), id, Action.UserCancel(scope));
      hide Apply;
      if id !in records || !InScope(records[id].job, scope) || !UserCancellable(records[id].job) {
        return Refused(ActiveCommandNotFound);
      }
      var job := records[id].job;
      var waiting := job.state.Queued? || job.state.Available? || job.state.RetryWait? || job.state.ApprovalRequired?;
      if job.cancelRequestedAt.None? {
        job := job.(cancelRequestedAt := Some(now));
      }
      job := if waiting then job.(state := Cancelled, completedAt := Some(now)) else job.(state := CancelRequested);
      records := records[id := records[id].(job := job)];
      reply := Reply.Moved(job.state);
    }

    method Decide(id: JobId, scope: Scope, approved: bool) returns (reply: Reply)
      modifies this`records
      ensures Snapshot() == Apply(old(Snapshot()), OnJob(id, Action.Decide(scope, approved)))
      ensures reply == ReplyTo(old(Snapshot()), id, Action.Decide(scope, approved))
    {
      OneRecordWritten(Snapshot(), id, Action.Decide(scope, approved));
      hide Apply;
      if id !in records || !InScope(records[id].job, scope) || records[id].approval.None?
          || !records[id].approval.value.state.Pending? {
        return Refused(PendingApprovalNotFound);
      }
      var rec := records[id];
      rec := rec.(approval := Some(Approval(rec.approval.value.id, if approved then Granted else Denied, Some(now))));
      records := records[id := rec];
      var state := if approved then Approved else Rejected;
      records := records[id := rec.(job := rec.job.(state := state))];
      reply := Reply.Moved(state);
    }

    /** worker_cancel: acknowledges a requested cancellation; a repeat by the worker that held the lease is answered the
        same. */
    method WorkerCancel(id: JobId, c: Caller) returns (reply: Reply)
      modifies this`records
      ensures Snapshot() == Apply(old(Snapshot()), OnJob(id, Action.WorkerCancel(c)))
      ensures reply == ReplyTo(old(Snapshot()), id, Action.WorkerCancel(c))
    {
      OneRecordWritten(Snapshot(), id, Action.WorkerCancel(c));
      hide Apply;
      if id !in records {
        return Refused(StaleLease);
      }
      var rec := records[id];
      if !LeaseOk(now, rec.job, c, true) {
        if InScope(rec.job, c.scope) && rec.job.state.Cancelled? && rec.job.fencingToken == c.token
            && OnceHeld(rec, c.token, c.worker) {
          return Duplicate(Cancelled);
        }
        return Refused(StaleLease);
      }
      if rec.job.cancelRequestedAt.None? {
        return CancelNotRequested(rec.job.state);
      }
      records := records[id := rec.(job := rec.job.(state := Cancelled, lease := None, completedAt := Some(now)))];
      reply := Reply.Moved(Cancelled);
    }

    /** UPDATE ... WHERE scope AND condition, row by row; the result counts the rows. */
    method UpdateWhere(scope: Scope, condition: (int, Job) -> bool, row: (int, Record) -> Record) returns (count: nat)
      modifies this`records
      ensures records == Rewrite(now, old(records), scope, condition, row)
      ensures count == |Hits(now, old(records), scope, condition)|
    {
      var start := records;
      var hits := Hits(now, records, scope, condition);
      var todo := hits;
      count := 0;
      PartlyDone(now, start, scope, condition, row);
      assert hits - todo == {};
      hide Hits, Rewrite, Partly;
      while todo != {}
        invariant todo <= hits && count + |todo| == |hits|
        invariant records == Partly(now, start, hits - todo, row)
      {
        var j :| j in todo;
        HitOne(now, start, scope, condition, hits - todo, row, j);
        assert hits - todo + {j} == hits - (todo - {j});
        records := records[j := row(now, records[j])];
        todo := todo - {j};
        count := count + 1;
      }
      assert hits - todo == hits;
    }

    method RecoverExpired(scope: Scope) returns (retried: nat, deadLettered: nat)
      modifies this`records
      ensures Snapshot() == Apply(old(Snapshot()), Op.RecoverExpired(scope))
      ensures retried == |Hits(now, old(records), scope, SweepsToRetry)|
      ensures deadLettered == |Hits(now, old(records), scope, SweepsToDeadLetter)|
    {
      ThreeUpdatesAreOneSweep(Snapshot(), scope);
      SweepCounts(now, records, scope);
      hide Apply;
      var _ := UpdateWhere(scope, LapsedCancel, CancelLapsedRow);
      retried := UpdateWhere(scope, SweepsToRetry, RetryLapsedRow);
      deadLettered := UpdateWhere(scope, SweepsToDeadLetter, BuryLapsedRow);
    }

    method ExpireDeadlines(scope: Scope) returns (count: nat)
      modifies this`records
      ensures Snapshot() == Apply(old(Snapshot()), Op.ExpireDeadlines(scope))
      ensures count == |Hits(now, old(records), scope, DeadlinePassed)|
    {
      OneUpdateExpires(Snapshot(), scope);
      hide Apply;
      count := UpdateWhere(scope, DeadlinePassed, ExpireRow);
    }

    /** ORDER BY priority, created_at SKIP LOCKED LIMIT 1. */
    method FirstCandidate(r: ClaimRequest, locked: set<JobId>) returns (pick: Option<JobId>)
      ensures pick.Some? ==> Picked(Snapshot(), r, locked, pick.value)
      ensures pick.None? ==> forall k | k in records :: Candidate(Snapshot(), r, k) ==> k in locked
    {
      var db := Snapshot();
      hide Candidate;
      pick := None;
      var todo := records.Keys;
      while todo != {}
        invariant todo <= records.Keys
        invariant pick.Some? ==> pick.value in records && Candidate(db, r, pick.value) && pick.value !in locked
        invariant pick.Some? ==> forall k | k in records.Keys - todo :: Candidate(db, r, k) && k !in locked ==>
                                   !OrderedBefore(records[k].job.spec, records[pick.value].job.spec)
        invariant pick.None? ==> forall k | k in records.Keys - todo :: Candidate(db, r, k) ==> k in locked
      {
        var j :| j in todo;
        if Candidate(db, r, j) && j !in locked
            && (pick.None? || OrderedBefore(records[j].job.spec, records[pick.value].job.spec)) {
          pick := Some(j);
        }
        todo := todo - {j};
      }
    }

    /** Raises, finds nothing unlocked to do, or leases the first unlocked candidate and records the attempt. */
    method Claim(r: ClaimRequest, locked: set<JobId>) returns (reply: Reply, pick: Option<JobId>)
      modifies this`records
      ensures Snapshot() == Apply(old(Snapshot()), Op.Claim(r, locked, pick))
      ensures pick.Some? ==> Grants(old(Snapshot()), r, locked, pick.value)
      ensures pick.None? && ClaimGate(old(Snapshot()), r).None? ==>
                forall k | k in old(records) :: Candidate(old(Snapshot()), r, k) ==>
                    k in locked || ClaimProfiles(old(Snapshot()), r) == {}
      ensures reply == (if ClaimGate(old(Snapshot()), r).Some? then Refused(ClaimGate(old(Snapshot()), r).value)
                        else if pick.None? then Idle
                        else if old(records)[pick.value].job.attemptCount + 1 in old(records)[pick.value].attempts
                            then Refused(ConstraintViolation)
                        else Claimed(pick.value, old(records)[pick.value].job.fencingToken + 1))
    {
      ghost var db := Snapshot();
      NothingClaimed(db, r, locked);
      pick := None;
      var gate := ClaimGate(Snapshot(), r);
      if gate.Some? {
        return Refused(gate.value), None;
      }
      if ClaimProfiles(Snapshot(), r) == {} {
        return Idle, None;
      }
      pick := FirstCandidate(r, locked);
      if pick.None? {
        return Idle, None;
      }
      var j := pick.value;
      PickClaimed(db, r, locked, j);
      hide Apply, Candidate, ClaimGate, ClaimProfiles;
      var rec := records[j];
      var row := ClaimRow(now, rec.job, r.worker, r.leaseSeconds);
      if row.attemptCount in rec.attempts {
        return Refused(ConstraintViolation), pick;
      }
      records := records[j := rec.(job := row)];
      records :=
          records[j := records[j].(attempts := rec.attempts[row.attemptCount := Attempt(row.fencingToken, r.worker)])];
      reply := Claimed(j, row.fencingToken);
    }
  }
}
