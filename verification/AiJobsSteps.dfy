/** The few shapes a transaction's effect on one job can take. */
module AiJobsSteps {
  import opened Base
  import opened AiJobs

  predicate Live(now: int, job: Job) {
    (job.state.Leased? || job.state.CancelRequested?) && job.lease.Some? && now < job.lease.value.expiresAt
  }

  predicate LeaseTaken(now: int, a: Record, b: Record) {
    && Claimable(now, a.job) && b.job.lease.Some?
    && a.job.attemptCount + 1 !in a.attempts
    && var job := a.job.(state := Leased, lease := b.job.lease, fencingToken := a.job.fencingToken + 1,
                         attemptCount := a.job.attemptCount + 1);
       var attempt := Attempt(job.fencingToken, b.job.lease.value.owner);
       b == a.(job := job, attempts := a.attempts[job.attemptCount := attempt])
  }

  predicate LeaseRenewed(now: int, a: Record, b: Record) {
    && Live(now, a.job) && b.job.lease.Some? && b.job.lease.value.owner == a.job.lease.value.owner
    && b == a.(job := a.job.(lease := b.job.lease))
  }

  predicate OutputExtended(now: int, a: Record, b: Record) {
    && Live(now, a.job) && a.job.state.Leased?
    && exists s | s in b.chunks ::
         && s !in a.chunks && b.chunks[s].token == a.job.fencingToken && b.chunks == a.chunks[s := b.chunks[s]]
         && b == a.(chunks := b.chunks, job := a.job.(outputBytes := a.job.outputBytes + b.chunks[s].size))
  }

  predicate NothingStored(a: Record, b: Record) {
    b.result == a.result && b.charge == a.charge && b.approval == a.approval
  }

  /** Result and charge are there, and an approval if the job needs one; what was stored before stays. */
  predicate Stored(a: Record, b: Record) {
    && !b.job.state.RetryWait? && !b.job.state.DeadLetter? && (b.job.state.Completed? ==> !a.job.spec.needsApproval)
    && b.result.Some? && b.charge.Some? && (a.result.Some? ==> b.result == a.result)
         && (a.charge.Some? ==> b.charge == a.charge)
    && (if a.job.spec.needsApproval && a.approval.None?
        then b.approval.Some? && b.approval.value.state.Pending? && b.approval.value.decidedAt.None?
        else b.approval == a.approval)
  }

  /** The holder's report: the lease ends. */
  predicate Reported(now: int, a: Record, b: Record) {
    && Live(now, a.job)
    && b.job == FinishRow(now, a.job, b.job.state) && b.attempts == a.attempts && b.chunks == a.chunks
    && (if a.job.cancelRequestedAt.Some? then b.job.state.Cancelled?
        else b.job.state.Completed? || b.job.state.ApprovalRequired? || b.job.state.DeadLetter?
             || (b.job.state.RetryWait? && a.job.attemptCount < a.job.maxAttempts))
    && (NothingStored(a, b) || Stored(a, b))
    && b.deadLetter == (if b.job.state.DeadLetter? then Some(DeadLetterRow(a.job.attemptCount, now, true))
         else a.deadLetter)
  }

  predicate CancelAsked(now: int, a: Record, b: Record) {
    || (UserCancellable(a.job) && b == a.(job := UserCancelRow(now, a.job)))
    || (ConsoleCancellable(a.job) && b == a.(job := ConsoleCancelRow(now, a.job)))
  }

  predicate Decided(now: int, a: Record, b: Record) {
    && a.approval.Some? && a.approval.value.state.Pending?
    && b.approval.Some? && !b.approval.value.state.Pending? && b.approval.value.id == a.approval.value.id
         && b.approval.value.decidedAt == Some(now)
    && (b.job.state.Approved? || b.job.state.Rejected?)
    && b == a.(approval := b.approval, job := a.job.(state := b.job.state))
  }

  predicate ApprovalInserted(now: int, a: Record, b: Record) {
    && a.approval.None? && b.approval.Some? && b.approval.value.state.Granted?
         && b.approval.value.decidedAt == Some(now)
    && b == a.(approval := b.approval)
  }

  predicate Retried(now: int, a: Record, b: Record) {
    && a.approval.Some? && RetryAuthorised(a, a.approval.value.id, Scope(None, None))
    && a.job.state.DeadLetter? && a.job.maxAttempts < 10
    && b ==
         a.(job := a.job.(state := RetryWait, maxAttempts := a.job.maxAttempts + 1, nextAttemptAt := now,
             completedAt := None),
               deadLetter := Some(a.deadLetter.value.(requiresNewApproval := false)))
  }

  predicate WorkerStep(now: int, a: Record, b: Record) {
    LeaseTaken(now, a, b) || LeaseRenewed(now, a, b) || OutputExtended(now, a, b) || Reported(now, a, b)
  }

  predicate OperatorStep(now: int, a: Record, b: Record) {
    CancelAsked(now, a, b) || Decided(now, a, b) || ApprovalInserted(now, a, b) || Retried(now, a, b)
  }

  predicate SweepStep(now: int, a: Record, b: Record) {
    b == SweepRecord(now, a) || b == DeadlineRecord(now, a)
  }

  predicate Step(now: int, a: Record, b: Record) {
    b == a || WorkerStep(now, a, b) || OperatorStep(now, a, b) || SweepStep(now, a, b)
  }

  lemma ReportSteps(now: int, rec: Record, c: Caller, failed: bool, retryable: bool, output: Output,
                    approvalId: ApprovalId)
    ensures Step(now, rec, FinishAct(now, rec, c, failed, retryable, Completed).0)
    ensures Step(now, rec, StoreAndFinishAct(now, rec, c, output, approvalId).0)
    ensures Step(now, rec, WorkerCancelAct(now, rec, c).0)
  {
    hide Backoff, InScope, OnceHeld, LeaseTaken, LeaseRenewed, OutputExtended, CancelAsked, Decided, ApprovalInserted;
    hide Retried, SweepRecord, DeadlineRecord;
    if LeaseOk(now, rec.job, c, true) {
      assert Reported(now, rec, FinishAct(now, rec, c, failed, retryable, Completed).0);
      assert Reported(now, rec, StoreAndFinishAct(now, rec, c, output, approvalId).0);
      assert rec.job.cancelRequestedAt.Some? ==> Reported(now, rec, WorkerCancelAct(now, rec, c).0);
    }
  }

  lemma ActSteps(now: int, rec: Record, action: Action)
    ensures Step(now, rec, Act(now, rec, action).0)
  {
    hide Reported, FinishAct, StoreAndFinishAct, WorkerCancelAct, SweepRecord, DeadlineRecord, OnceHeld;
    match action
    case Complete(c, submitted, approvalId) =>
      ReportSteps(now, rec, c, false, false, if submitted.Some? then submitted.value else Output("", 0), approvalId);
    case StoreAndFinish(c, output, approvalId) => ReportSteps(now, rec, c, false, false, output, approvalId);
    case Finish(c, failed, retryable) => ReportSteps(now, rec, c, failed, retryable, Output("", 0), 0);
    case WorkerCancel(c) => ReportSteps(now, rec, c, false, false, Output("", 0), 0);
    case _ =>
  }

  lemma MoveSteps(now: int, rec: Record, move: Move)
    ensures Step(now, rec, After(now, rec, move))
  {
    hide Act, Reported, LeaseRenewed, OutputExtended, CancelAsked, Decided, Retried, SweepRecord, DeadlineRecord;
    if move.ByAction? {
      ActSteps(now, rec, move.action);
    }
  }
}
