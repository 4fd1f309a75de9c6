/** The state graph of an AI job: which transaction takes it into which state, said of the fields of its row. */
module AiJobsTransitions {
  import opened Base
  import opened AiJobs
  import opened AiJobsSteps
  import opened AiJobsInvariant
  import opened AiJobsHolders

  // ---------------------------------------------------------------- the vocabulary of the graph

  predicate Waiting(job: Job) {
    job.state.Queued? || job.state.RetryWait?
  }

  predicate Overdue(now: int, job: Job) {
    job.spec.deadlineAt.Some? && job.spec.deadlineAt.value <= now
  }

  predicate Lapsed(now: int, job: Job) {
    job.lease.Some? && job.lease.value.expiresAt <= now
  }

  /** The holder reports. A result is not taken from a holder that has been asked to stop; only the in-process worker
      gets it stored. */
  predicate HolderReports(now: int, job: Job, move: Move) {
    && move.ByAction? && (move.action.Complete? || move.action.StoreAndFinish? || move.action.Finish?)
    && IsHolder(now, job, move.action.caller)
    && (move.action.Complete? && move.action.submitted.Some? ==> job.state.Leased?)
  }

  predicate Fails(action: Action) {
    action.Finish? && action.failed
  }

  /** The report carries an output to keep. */
  predicate Delivers(action: Action) {
    action.StoreAndFinish? || (action.Complete? && action.submitted.Some?)
  }

  /** An operator lets a dead letter try again: an approval under this id, decided after the failure, not yet used. */
  predicate Revives(rec: Record, move: Move) {
    && move.ByAction? && move.action.RetryDeadLetter? && Covers(move.action.scope, rec.job.spec)
    && rec.job.state.DeadLetter? && rec.job.maxAttempts < 10
    && rec.deadLetter.Some? && rec.deadLetter.value.requiresNewApproval
    && rec.approval.Some? && rec.approval.value.id == move.action.approvalId && rec.approval.value.state.Granted?
    && rec.approval.value.decidedAt.Some? && rec.deadLetter.value.failedAt < rec.approval.value.decidedAt.value
  }

  predicate Rules(rec: Record, move: Move, approved: bool) {
    && move.ByAction? && move.action.Decide? && Covers(move.action.scope, rec.job.spec)
    && move.action.approved == approved && rec.approval.Some? && rec.approval.value.state.Pending?
  }

  /** The edges of the graph into each state. */
  predicate Cause(now: int, rec: Record, move: Move, s: JobState) {
    var job := rec.job;
    var requested := job.cancelRequestedAt.Some?;
    match s
    case Leased =>
      move.ByClaim? && Waiting(job) && job.nextAttemptAt <= now && !requested && !Overdue(now, job)
    case Completed =>
      && HolderReports(now, job, move) && !requested && !Fails(move.action)
      && (Delivers(move.action) ==> !job.spec.needsApproval)
    case ApprovalRequired =>
      HolderReports(now, job, move) && !requested && Delivers(move.action) && job.spec.needsApproval
    case RetryWait =>
      || (HolderReports(now, job, move) && !requested && Fails(move.action) && move.action.retryable
          && job.attemptCount < job.maxAttempts)
      || (move.BySweep? && job.state.Leased? && Lapsed(now, job) && !Overdue(now, job)
          && job.attemptCount < job.maxAttempts)
      || Revives(rec, move)
    case DeadLetter =>
      || (HolderReports(now, job, move) && !requested && Fails(move.action)
          && !(move.action.retryable && job.attemptCount < job.maxAttempts))
      || (move.BySweep? && job.state.Leased? && Lapsed(now, job) && !Overdue(now, job)
          && job.attemptCount >= job.maxAttempts)
    case Cancelled =>
      || (HolderReports(now, job, move) && requested)
      || (move.ByAction? && move.action.WorkerCancel? && requested && IsHolder(now, job, move.action.caller))
      || (move.ByAction? && move.action.UserCancel? && Covers(move.action.scope, job.spec)
          && (Waiting(job) || job.state.ApprovalRequired?))
      || (move.ByAction? && move.action.ConsoleCancel? && Covers(move.action.scope, job.spec) && Waiting(job))
      || (move.BySweep? && job.state.CancelRequested? && Lapsed(now, job))
    case CancelRequested =>
      && move.ByAction? && move.action.UserCancel? && Covers(move.action.scope, job.spec)
      && (job.state.Leased? || job.state.Approved?)
    case Expired =>
      move.ByDeadline? && (Waiting(job) || job.state.Leased?) && Overdue(now, job)
    case Approved => Rules(rec, move, true)
    case Rejected => Rules(rec, move, false)
    case _ => false
  }

  // ---------------------------------------------------------------- every move follows the graph

  lemma ClaimFollows(now: int, rec: Record, worker: WorkerId, seconds: nat, s: JobState)
    requires RecInv(now, rec) && rec.job.state != s
    ensures ClaimRecord(now, rec, worker, seconds).job.state == s <==> Cause(now, rec, ByClaim(worker, seconds), s)
  {
    hide ChunksInv, OutcomeInv;
  }

  lemma SweepsFollow(now: int, rec: Record, s: JobState)
    requires RowInv(rec.job) && rec.job.state != s
    ensures SweepRecord(now, rec).job.state == s <==> Cause(now, rec, BySweep, s)
    ensures DeadlineRecord(now, rec).job.state == s <==> Cause(now, rec, ByDeadline, s)
  {
  }

  lemma ReportsFollow(now: int, rec: Record, action: Action, s: JobState)
    requires RowInv(rec.job) && rec.job.state != s && ByWorker(action)
    ensures Act(now, rec, action).0.job.state == s <==> Cause(now, rec, ByAction(action), s)
  {
    LeaseTest(now, rec.job, action.caller);
    hide LeaseOk, IsHolder, InScope, OnceHeld, Backoff;
  }

  lemma OperatorsFollow(now: int, rec: Record, action: Action, s: JobState)
    requires RowInv(rec.job) && rec.job.state != s && !ByWorker(action) && !action.GrantApproval?
    ensures Act(now, rec, action).0.job.state == s <==> Cause(now, rec, ByAction(action), s)
  {
    ScopeTest(rec.job, action.scope);
    hide InScope, Covers;
  }

  /** A job enters a state if and only if the transaction is one of that state's causes. */
  lemma EntersExactly(now: int, rec: Record, move: Move, s: JobState)
    requires RecInv(now, rec) && rec.job.state != s
    ensures After(now, rec, move).job.state == s <==> Cause(now, rec, move, s)
  {
    match move
    case Stay =>
    case ByClaim(worker, seconds) => hide Cause, ClaimRecord; ClaimFollows(now, rec, worker, seconds, s);
    case ByAction(action) =>
      if ByWorker(action) {
        hide Cause, Act;
        ReportsFollow(now, rec, action, s);
      } else if !action.GrantApproval? {
        hide Cause, Act;
        OperatorsFollow(now, rec, action, s);
      }
    case BySweep => hide Cause, SweepRecord; SweepsFollow(now, rec, s);
    case ByDeadline => hide Cause, DeadlineRecord; SweepsFollow(now, rec, s);
  }

  // ---------------------------------------------------------------- what is written on the way

  /** A claim writes the claimant, the end of its lease, the next token and the attempt; nothing else. */
  lemma LeaseIsWritten(now: int, rec: Record, move: Move)
    requires RecInv(now, rec) && !rec.job.state.Leased? && After(now, rec, move).job.state.Leased?
    ensures move.ByClaim?
    ensures var token := rec.job.fencingToken + 1;
            After(now, rec, move) ==
              rec.(job := rec.job.(state := Leased, lease := Some(Lease(move.worker, now + move.leaseSeconds)),
                                   fencingToken := token, attemptCount := token),
                   attempts := rec.attempts[token := Attempt(token, move.worker)])
  {
    EntersExactly(now, rec, move, Leased);
    hide ChunksInv, OutcomeInv, Act, SweepRecord, DeadlineRecord;
  }

  /** The job has just ended, and its row and dead letter say so. */
  predicate Ended(now: int, rec: Record, rec': Record, swept: bool) {
    && rec'.job.completedAt == Some(now) && rec'.job.lease.None?
    && (rec'.job.state.DeadLetter? ==>
          rec'.deadLetter == if swept && rec.deadLetter.Some? then rec.deadLetter
                             else Some(DeadLetterRow(rec.job.attemptCount, now, true)))
  }

  predicate IsEnd(s: JobState) {
    s.Completed? || s.ApprovalRequired? || s.DeadLetter? || s.Cancelled? || s.Expired?
  }

  lemma EndByAction(now: int, rec: Record, action: Action)
    requires RowInv(rec.job)
    ensures var rec' := Act(now, rec, action).0;
            IsEnd(rec'.job.state) && rec'.job.state != rec.job.state ==> Ended(now, rec, rec', false)
  {
    hide Backoff, InScope, OnceHeld, RetryAuthorised;
  }

  /** A job that ends - completed, awaiting approval, dead, cancelled or expired - is dated and has no lease. */
  lemma EndIsWritten(now: int, rec: Record, move: Move)
    requires RecInv(now, rec)
    ensures var rec' := After(now, rec, move);
            IsEnd(rec'.job.state) && rec'.job.state != rec.job.state ==> Ended(now, rec, rec', move.BySweep?)
  {
    hide AttemptsInv, ChunksInv, OutcomeInv, Act;
    if move.ByAction? {
      EndByAction(now, rec, move.action);
    }
  }

  /** A reported failure waits twice as long after each attempt, 256 seconds from the eighth on: the written cap of 300
      is never reached. */
  lemma BackoffDoubles(n: nat)
    ensures Backoff(0) == 1 && (n < 8 ==> Backoff(n + 1) == 2 * Backoff(n)) && (n >= 8 ==> Backoff(n) == 256)
  {
    assert Pow2(8) == 256 by {
      assert Pow2(4) == 16 && Pow2(6) == 4 * Pow2(4) && Pow2(8) == 4 * Pow2(6);
    }
    if n < 8 {
      Pow2Grows(n, 8);
    }
  }

  lemma {:induction false} Pow2Grows(n: nat, m: nat)
    requires n <= m
    ensures Pow2(n) <= Pow2(m)
    decreases m - n
  {
    if n < m {
      Pow2Grows(n + 1, m);
    }
  }

  /** A job that goes back to waiting may be claimed at once, or after the back-off if its worker reported a failure;
      only a revived dead letter gets a further attempt. */
  lemma RetryIsScheduled(now: int, rec: Record, move: Move)
    requires RecInv(now, rec) && !rec.job.state.RetryWait? && After(now, rec, move).job.state.RetryWait?
    ensures var job' := After(now, rec, move).job;
            && job'.nextAttemptAt == (if HolderReports(now, rec.job, move) then now + Backoff(rec.job.attemptCount)
                                      else now)
            && job'.maxAttempts == rec.job.maxAttempts + (if Revives(rec, move) then 1 else 0)
            && job'.attemptCount == rec.job.attemptCount < job'.maxAttempts
            && job'.lease.None? && job'.completedAt.None?
  {
    EntersExactly(now, rec, move, RetryWait);
    hide AttemptsInv, ChunksInv, OutcomeInv, Backoff, InScope, LeaseOk, OnceHeld, ClaimRecord, IsHolder, Covers;
  }

  lemma OthersRequestNothing(now: int, rec: Record, action: Action)
    requires !action.UserCancel? && !action.ConsoleCancel?
    ensures Act(now, rec, action).0.job.cancelRequestedAt == rec.job.cancelRequestedAt
  {
    hide Backoff, InScope, LeaseOk, OnceHeld, RetryAuthorised;
  }

  /** A cancellation request is recorded exactly by a cancel in scope of a job that is not over for that cancel, with
      the time it came; nothing changes or removes it. */
  lemma RequestIsWritten(now: int, rec: Record, move: Move)
    requires RecInv(now, rec)
    ensures var job, job' := rec.job, After(now, rec, move).job;
            if job.cancelRequestedAt.Some? then job'.cancelRequestedAt == job.cancelRequestedAt
            else if move.ByAction? && (move.action.UserCancel? || move.action.ConsoleCancel?)
                 && Covers(move.action.scope, job.spec)
                 && !job.state.Completed? && !job.state.Cancelled? && !job.state.DeadLetter?
                 && (move.action.UserCancel? ==> !job.state.Expired? && !job.state.Rejected?)
            then job'.cancelRequestedAt == Some(now) else job'.cancelRequestedAt.None?
  {
    if move.ByAction? && (move.action.UserCancel? || move.action.ConsoleCancel?) {
      ScopeTest(rec.job, move.action.scope);
    } else if move.ByAction? {
      OthersRequestNothing(now, rec, move.action);
      hide Act;
    }
    hide AttemptsInv, ChunksInv, OutcomeInv, InScope, Covers;
  }

  /** A pending approval is settled exactly by a ruling in scope, to what was ruled, under its own id and dated. */
  lemma RulingIsWritten(now: int, rec: Record, move: Move)
    requires RecInv(now, rec) && rec.approval.Some? && rec.approval.value.state.Pending?
    ensures After(now, rec, move).approval ==
              if Rules(rec, move, true) then Some(Approval(rec.approval.value.id, Granted, Some(now)))
              else if Rules(rec, move, false) then Some(Approval(rec.approval.value.id, Denied, Some(now)))
              else rec.approval
  {
    if move.ByAction? && move.action.Decide? {
      ScopeTest(rec.job, move.action.scope);
    }
    hide AttemptsInv, ChunksInv, RowInv, Backoff, InScope, LeaseOk, OnceHeld, RetryAuthorised, Covers;
  }
}
