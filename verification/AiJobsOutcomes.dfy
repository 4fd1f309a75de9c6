/** Cancellation requests and dead-letter retries of the AI job queue, over every run. */
module AiJobsOutcomes {
  import opened Base
  import opened AiJobs
  import opened AiJobsSteps
  import opened AiJobsInvariant
  import opened AiJobsTheorems

  // ---------------------------------------------------------------- cancellation

  /** The request has won: the job can only be stopping, stopped, or have its finished proposal decided. */
  predicate Settled(job: Job) {
    job.cancelRequestedAt.Some? && (job.state.CancelRequested? || job.state.Cancelled? || job.state.Approved?
        || job.state.Rejected?)
  }

  lemma StepKeepsSettled(now: int, a: Record, b: Record)
    requires RowInv(a.job) && Step(now, a, b) && Settled(a.job)
    ensures Settled(b.job)
  {
    hide Backoff, Stored, NothingStored, RetryAuthorised;
  }

  /** Cancellation wins: a settled job is never again queued, leased, retried, completed, awaiting approval,
      dead-lettered or expired, whatever its worker, the sweeps or the users do next. */
  lemma CancellationWins(db: Db, ops: seq<Op>, j: JobId)
    requires Inv(db) && j in db.records && Settled(db.records[j].job)
    ensures j in Run(db, ops).records && Settled(Run(db, ops).records[j].job)
  {
    hide Inv, RecInv;
    SettledIsStable();
    StableOverRuns(SettledFact(), db, ops, j);
  }

  ghost function SettledFact(): (int, Record) -> bool {
    (now: int, rec: Record) => Settled(rec.job)
  }

  lemma SettledIsStable()
    ensures Stable(SettledFact())
  {
    hide Step, Settled, RecInv;
    forall now, a, b | Step(now, a, b) && RecInv(now, a) && Settled(a.job) ensures Settled(b.job) {
      RecImpliesRow(now, a);
      StepKeepsSettled(now, a, b);
    }
  }

  /** The command cancel settles every job it accepts. */
  lemma UserCancelSettles(now: int, rec: Record, scope: Scope)
    requires RecInv(now, rec)
    ensures UserCancelAct(now, rec, scope).1.Moved? <==> InScope(rec.job, scope) && UserCancellable(rec.job)
    ensures UserCancelAct(now, rec, scope).1.Moved? ==> Settled(UserCancelAct(now, rec, scope).0.job)
    ensures !UserCancelAct(now, rec, scope).1.Moved? ==> UserCancelAct(now, rec, scope).0 == rec
  {
    hide RecInv, InScope;
  }

  /** The console cancel settles a job it accepts exactly when no lease is running, no proposal waits and no deadline
      has passed. */
  lemma ConsoleCancelSettlesExactly(now: int, rec: Record, scope: Scope)
    requires RecInv(now, rec) && InScope(rec.job, scope) && ConsoleCancellable(rec.job)
    ensures Settled(ConsoleCancelAct(now, rec, scope).0.job) <==>
            !rec.job.state.Leased? && !rec.job.state.ApprovalRequired? && !rec.job.state.Expired?
  {
    hide AttemptsInv, ChunksInv, InScope;
  }

  /** What goes wrong otherwise: a console-cancelled lease whose worker falls silent is swept back to retry_wait, or to
      dead_letter when its attempts are used up, with the request still on it. */
  lemma ConsoleCancelledLeaseIsSwept(now: int, rec: Record, scope: Scope, later: int)
    requires RecInv(now, rec) && rec.job.state.Leased? && InScope(rec.job, scope)
    requires now <= later && LeaseLapsed(later, rec.job) && BeforeDeadline(later, rec.job)
    ensures var swept := SweepRecord(later, ConsoleCancelAct(now, rec, scope).0).job;
            && swept.cancelRequestedAt.Some?
            && swept.state == (if rec.job.attemptCount < rec.job.maxAttempts then RetryWait else DeadLetter)
  {
  }

  /** A requested job, whoever requested it: no further lease is issued, it never completes, and it is leased or
      awaiting approval only if it already was. */
  predicate Winding(job: Job, token: nat, wasLeased: bool, wasProposed: bool) {
    && job.cancelRequestedAt.Some? && job.fencingToken == token
    && !job.state.Completed? && (job.state.Leased? ==> wasLeased) && (job.state.ApprovalRequired? ==> wasProposed)
  }

  lemma StepKeepsWinding(now: int, a: Record, b: Record, token: nat, wasLeased: bool, wasProposed: bool)
    requires RowInv(a.job) && Step(now, a, b) && Winding(a.job, token, wasLeased, wasProposed)
    ensures Winding(b.job, token, wasLeased, wasProposed)
  {
    hide Backoff, Stored, NothingStored, RetryAuthorised;
  }

  ghost function WindingFact(token: nat, wasLeased: bool, wasProposed: bool): (int, Record) -> bool {
    (now: int, rec: Record) => Winding(rec.job, token, wasLeased, wasProposed)
  }

  lemma WindingIsStable(token: nat, wasLeased: bool, wasProposed: bool)
    ensures Stable(WindingFact(token, wasLeased, wasProposed))
  {
    hide Step, Winding, RecInv;
    forall now, a, b | Step(now, a, b) && RecInv(now, a) && Winding(a.job, token, wasLeased, wasProposed)
      ensures Winding(b.job, token, wasLeased, wasProposed)
    {
      RecImpliesRow(now, a);
      StepKeepsWinding(now, a, b, token, wasLeased, wasProposed);
    }
  }

  lemma RequestedJobIsNeverRunAgain(db: Db, ops: seq<Op>, j: JobId)
    requires Inv(db) && j in db.records && db.records[j].job.cancelRequestedAt.Some?
    ensures j in Run(db, ops).records
    ensures Winding(Run(db, ops).records[j].job, TokenOf(db, j), db.records[j].job.state.Leased?,
              db.records[j].job.state.ApprovalRequired?)
    ensures ClaimCount(db, ops, j) == 0
  {
    var token, leased, proposed := TokenOf(db, j), db.records[j].job.state.Leased?,
        db.records[j].job.state.ApprovalRequired?;
    assert RecInv(db.now, db.records[j]);
    hide Inv, RecInv;
    WindingIsStable(token, leased, proposed);
    StableOverRuns(WindingFact(token, leased, proposed), db, ops, j);
    ClaimsAreTokens(db, ops, j);
  }

  // ---------------------------------------------------------------- dead-letter retries

  /** The approval has been used: the dead letter asks for no approval, or for one newer than this. */
  predicate Spent(now: int, rec: Record, id: ApprovalId) {
    && rec.approval.Some? && rec.approval.value.id == id && rec.approval.value.state.Granted?
    && rec.approval.value.decidedAt.Some? && rec.approval.value.decidedAt.value <= now
    && rec.deadLetter.Some?
    && (rec.deadLetter.value.requiresNewApproval ==>
         rec.approval.value.decidedAt.value <= rec.deadLetter.value.failedAt)
  }

  lemma StepKeepsSpent(now: int, a: Record, b: Record, id: ApprovalId)
    requires RowInv(a.job) && Step(now, a, b) && Spent(now, a, id)
    ensures Spent(now, b, id)
  {
    hide Backoff, RowInv;
  }

  ghost function SpentFact(id: ApprovalId): (int, Record) -> bool {
    (now: int, rec: Record) => Spent(now, rec, id)
  }

  lemma SpentIsStable(id: ApprovalId)
    ensures Stable(SpentFact(id))
  {
    hide Step, Spent, RecInv;
    forall now, a, b | Step(now, a, b) && RecInv(now, a) && Spent(now, a, id) ensures Spent(now, b, id) {
      RecImpliesRow(now, a);
      StepKeepsSpent(now, a, b, id);
    }
    forall now, later, a | now <= later && Spent(now, a, id) ensures Spent(later, a, id) {
      SpentLater(now, later, a, id);
    }
  }

  lemma SpentLater(now: int, later: int, a: Record, id: ApprovalId)
    requires now <= later && Spent(now, a, id)
    ensures Spent(later, a, id)
  {
  }

  lemma RetrySpends(now: int, rec: Record, id: ApprovalId, scope: Scope)
    requires RecInv(now, rec) && RetryDeadLetterAct(now, rec, id, scope).1.Moved?
    ensures Spent(now, RetryDeadLetterAct(now, rec, id, scope).0, id)
  {
    hide AttemptsInv, ChunksInv, InScope, RowInv;
  }

  lemma SpentRefuses(now: int, rec: Record, id: ApprovalId, id': ApprovalId, scope: Scope)
    requires Spent(now, rec, id)
    ensures RetryDeadLetterAct(now, rec, id', scope).1.Refused?
  {
  }

  lemma RetryLeavesSpent(db: Db, j: JobId, id: ApprovalId, scope: Scope)
    requires Inv(db) && j in db.records && RetryDeadLetterAct(db.now, db.records[j], id, scope).1.Moved?
    ensures var db1 := Apply(db, OnJob(j, RetryDeadLetter(id, scope)));
            j in db1.records && Spent(db1.now, db1.records[j], id) && Inv(db1)
  {
    assert RecInv(db.now, db.records[j]);
    hide Inv, RecInv, Spent, RetryDeadLetterAct;
    StepKeepsInv(db, OnJob(j, RetryDeadLetter(id, scope)));
    ActionMoves(db, j, RetryDeadLetter(id, scope));
    hide Apply;
    RetrySpends(db.now, db.records[j], id, scope);
  }

  /** A job is retried from the dead letters at most once: the approval that allowed it is spent, the sweep does not
      renew the dead letter, a later failure is newer than the approval, and the table admits no second approval. */
  lemma AtMostOneDeadLetterRetry(db: Db, j: JobId, id: ApprovalId, scope: Scope, ops: seq<Op>, id': ApprovalId,
                                 scope': Scope)
    requires Inv(db) && j in db.records && RetryDeadLetterAct(db.now, db.records[j], id, scope).1.Moved?
    ensures var later := Run(Apply(db, OnJob(j, RetryDeadLetter(id, scope))), ops);
            j in later.records && RetryDeadLetterAct(later.now, later.records[j], id', scope').1.Refused?
  {
    var db1 := Apply(db, OnJob(j, RetryDeadLetter(id, scope)));
    RetryLeavesSpent(db, j, id, scope);
    hide Apply, Inv, Spent, RetryDeadLetterAct;
    SpentIsStable(id);
    StableOverRuns(SpentFact(id), db1, ops, j);
    SpentRefuses(Run(db1, ops).now, Run(db1, ops).records[j], id, id', scope');
  }

  lemma OnlyGrantsInsert(now: int, rec: Record, move: Move)
    requires rec.approval.None? && !(move.ByAction? && move.action.GrantApproval?)
    ensures After(now, rec, move).approval.Some? ==> After(now, rec, move).approval.value.state.Pending?
  {
    hide Backoff, InScope, OnceHeld, RetryAuthorised;
  }

  /** A decided approval is final, so a job whose one approval row an operator inserted for a retry can never have its
      own proposal decided afterwards. */
  lemma SettledApprovalIsFinal(db: Db, ops: seq<Op>, j: JobId, scope: Scope, approved: bool)
    requires Inv(db) && j in db.records && db.records[j].approval.Some? && !db.records[j].approval.value.state.Pending?
    ensures j in Run(db, ops).records && Run(db, ops).records[j].approval == db.records[j].approval
    ensures DecideAct(Run(db, ops).now, Run(db, ops).records[j], scope, approved).1.Refused?
  {
    var row := db.records[j].approval;
    hide Inv, RecInv;
    FinalIsStable(row);
    StableOverRuns(FinalFact(row), db, ops, j);
  }

  ghost function FinalFact(row: Option<Approval>): (int, Record) -> bool {
    (now: int, rec: Record) => rec.approval == row
  }

  lemma FinalIsStable(row: Option<Approval>)
    requires row.Some? && !row.value.state.Pending?
    ensures Stable(FinalFact(row))
  {
    hide Step, RecInv;
    forall now, a, b | Step(now, a, b) && RecInv(now, a) && a.approval == row ensures b.approval == row {
      FinalApproval(now, a, b);
    }
  }

  lemma FinalApproval(now: int, a: Record, b: Record)
    requires Step(now, a, b) && a.approval.Some? && !a.approval.value.state.Pending?
    ensures b.approval == a.approval
  {
    hide Backoff, FinishRow, UserCancelRow, ConsoleCancelRow, RetryAuthorised;
  }
}
