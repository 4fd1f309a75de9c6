/** When a dead-letter retry is accepted, exactly, over every run of the AI job queue. */
module AiJobsRetries {
  import opened Base
  import opened ModelProfiles
  import opened AiJobs
  import opened AiJobsSteps
  import opened AiJobsInvariant
  import opened AiJobsTheorems
  import opened AiJobsOutcomes

  // ---------------------------------------------------------------- the dead-letter ledger

  /** What the dead letter and the approval of a job say about each other. An approval without a result was inserted by
      hand. A dead letter asks for an approval only until the job has been retried; while it asks, it dates from the
      job's last failure, and once it no longer asks, the approval it used is older than any later failure. */
  predicate Ledger(rec: Record) {
    && (rec.approval.Some? && rec.result.None? ==>
         rec.approval.value.state.Granted? && rec.approval.value.decidedAt.Some?)
    && (rec.job.state.DeadLetter? ==> rec.deadLetter.Some? && rec.job.completedAt.Some?)
    && (rec.deadLetter.Some? && rec.deadLetter.value.requiresNewApproval ==>
          rec.job.state.DeadLetter? && rec.job.completedAt == Some(rec.deadLetter.value.failedAt))
    && (rec.deadLetter.Some? && !rec.deadLetter.value.requiresNewApproval ==>
          && rec.approval.Some? && rec.approval.value.decidedAt.Some?
          && (rec.job.state.DeadLetter? ==> rec.approval.value.decidedAt.value <= rec.job.completedAt.value))
  }

  lemma WorkerKeepsLedger(now: int, a: Record, b: Record)
    requires RowInv(a.job) && OutcomeInv(now, a) && WorkerStep(now, a, b) && Ledger(a)
    ensures Ledger(b)
  {
    hide Backoff;
  }

  lemma OperatorKeepsLedger(now: int, a: Record, b: Record)
    requires RowInv(a.job) && OutcomeInv(now, a) && OperatorStep(now, a, b) && Ledger(a)
    ensures Ledger(b)
  {
    if CancelAsked(now, a, b) {
      hide RetryAuthorised, OutcomeInv;
    }
  }

  lemma SweepKeepsLedger(now: int, a: Record, b: Record)
    requires RowInv(a.job) && OutcomeInv(now, a) && SweepStep(now, a, b) && Ledger(a)
    ensures Ledger(b)
  {
    hide BeforeDeadline;
  }

  lemma StepKeepsLedger(now: int, a: Record, b: Record)
    requires RowInv(a.job) && OutcomeInv(now, a) && Step(now, a, b) && Ledger(a)
    ensures Ledger(b)
  {
    hide RowInv, OutcomeInv, WorkerStep, OperatorStep, SweepStep, Ledger;
    if WorkerStep(now, a, b) {
      WorkerKeepsLedger(now, a, b);
    } else if OperatorStep(now, a, b) {
      OperatorKeepsLedger(now, a, b);
    } else if SweepStep(now, a, b) {
      SweepKeepsLedger(now, a, b);
    }
  }

  predicate Ledgers(db: Db) {
    forall j | j in db.records :: Ledger(db.records[j])
  }

  lemma StepKeepsLedgers(db: Db, op: Op)
    requires Inv(db) && Ledgers(db)
    ensures Ledgers(Apply(db, op))
  {
    var db' := Apply(db, op);
    forall j | j in db'.records ensures Ledger(db'.records[j]) {
      if j in db.records {
        assert RecInv(db.now, db.records[j]);
        hide Apply, After, Ledger, Step, RowInv, OutcomeInv, MoveOf;
        StepMoves(db, op, j);
        MoveSteps(db.now, db.records[j], MoveOf(db, op, j));
        StepKeepsLedger(db.now, db.records[j], db'.records[j]);
      } else {
        hide Apply, Inv;
        StepAdds(db, op, j);
      }
    }
  }

  lemma {:induction false} RunKeepsLedgers(db: Db, ops: seq<Op>)
    requires Inv(db) && Ledgers(db)
    ensures Ledgers(Run(db, ops))
    decreases |ops|
  {
    if ops != [] {
      hide Inv, Apply, Ledgers;
      StepKeepsInv(db, ops[0]);
      StepKeepsLedgers(db, ops[0]);
      RunKeepsLedgers(Apply(db, ops[0]), ops[1..]);
    }
  }

  /** A retry is accepted exactly for a dead letter below the cap of ten attempts whose approval was decided after its
      last failure. */
  predicate Retryable(rec: Record, id: ApprovalId, scope: Scope) {
    && InScope(rec.job, scope) && rec.job.state.DeadLetter? && rec.job.maxAttempts < 10
    && rec.approval.Some? && rec.approval.value.id == id && rec.approval.value.decidedAt.Some?
         && rec.job.completedAt.Some?
    && rec.job.completedAt.value < rec.approval.value.decidedAt.value
  }

  lemma AcceptedWhenRetryable(now: int, rec: Record, id: ApprovalId, scope: Scope)
    requires RecInv(now, rec) && Ledger(rec)
    ensures RetryDeadLetterAct(now, rec, id, scope).1.Moved? <==> Retryable(rec, id, scope)
  {
    hide AttemptsInv, ChunksInv, InScope, RowInv;
  }

  // ---------------------------------------------------------------- who inserted the approval

  /** The n-th transaction of the run is an operator inserting the job's approval row. */
  predicate InsertsApproval(start: Db, ops: seq<Op>, n: nat, j: JobId, id: ApprovalId)
    requires n < |ops|
  {
    && ops[n] == OnJob(j, GrantApproval(id))
    && var before := Run(start, ops[..n]); j in before.records && before.records[j].approval.None?
  }

  lemma GrantLeaves(db: Db, j: JobId, id: ApprovalId)
    requires Inv(db) && j in db.records && db.records[j].approval.None?
    ensures var db' := Apply(db, OnJob(j, GrantApproval(id)));
            Inv(db') && j in db'.records && db'.records[j].approval == Some(Approval(id, Granted, Some(db.now)))
  {
    hide Inv, Apply;
    StepKeepsInv(db, OnJob(j, GrantApproval(id)));
    ActionMoves(db, j, GrantApproval(id));
  }

  /** The row an operator inserts is there for good, dated with the clock of its insertion. */
  lemma InsertedStays(start: Db, ops: seq<Op>, n: nat, j: JobId, id: ApprovalId)
    requires Inv(start) && n < |ops| && InsertsApproval(start, ops, n, j, id)
    ensures j in Run(start, ops).records
    ensures Run(start, ops).records[j].approval == Some(Approval(id, Granted, Some(Run(start, ops[..n]).now)))
  {
    var before := Run(start, ops[..n]);
    RunKeepsInv(start, ops[..n]);
    RunSplits(start, ops, n);
    hide Inv, Apply, Run, DecideAct;
    GrantLeaves(before, j, id);
    SettledApprovalIsFinal(Apply(before, ops[n]), ops[n + 1..], j, Scope(None, None), true);
  }

  lemma NewApprovalMove(now: int, rec: Record, move: Move)
    requires rec.approval.None? && Ledger(After(now, rec, move))
    requires After(now, rec, move).approval.Some? && After(now, rec, move).result.None?
    ensures move == ByAction(GrantApproval(After(now, rec, move).approval.value.id))
  {
    if move.ByAction? && move.action.GrantApproval? {
      hide Ledger;
    } else {
      hide After;
      OnlyGrantsInsert(now, rec, move);
    }
  }

  /** Only an operator's insert gives an approval to a job without a result. */
  lemma NewApprovalStep(db: Db, op: Op, j: JobId)
    requires Inv(db) && Ledgers(db) && j in Apply(db, op).records
    requires Apply(db, op).records[j].approval.Some? && Apply(db, op).records[j].result.None?
    requires j !in db.records || db.records[j].approval.None?
    ensures j in db.records && op == OnJob(j, GrantApproval(Apply(db, op).records[j].approval.value.id))
  {
    StepKeepsLedgers(db, op);
    hide Apply, Inv, After, MoveOf;
    if j in db.records {
      StepMoves(db, op, j);
      NewApprovalMove(db.now, db.records[j], MoveOf(db, op, j));
      MoveNamesOp(db, op, j, GrantApproval(Apply(db, op).records[j].approval.value.id));
    } else {
      StepAdds(db, op, j);
    }
  }

  lemma ResultsStay(now: int, a: Record, b: Record)
    requires RecInv(now, a) && Step(now, a, b) && b.result.None?
    ensures a.result.None?
  {
    hide Step, RecInv;
    if a.result.Some? {
      StoredStays(now, a, b);
    }
  }

  /** Before a step that leaves an approval on a job without a result, the job had that very approval or none. */
  lemma ApprovalStep(db: Db, op: Op, j: JobId)
    requires Inv(db) && Ledgers(db) && j in db.records && db.records[j].approval.Some?
    requires j in Apply(db, op).records && Apply(db, op).records[j].result.None?
    ensures db.records[j].result.None? && Apply(db, op).records[j].approval == db.records[j].approval
  {
    assert RecInv(db.now, db.records[j]) && Ledger(db.records[j]);
    hide Inv, Apply, After, MoveOf, Step, RecInv;
    StepMoves(db, op, j);
    MoveSteps(db.now, db.records[j], MoveOf(db, op, j));
    ResultsStay(db.now, db.records[j], Apply(db, op).records[j]);
    FinalApproval(db.now, db.records[j], Apply(db, op).records[j]);
  }

  lemma {:induction false} ApprovalWasInserted(start: Db, ops: seq<Op>, j: JobId) returns (n: nat)
    requires Initial(start) && j in Run(start, ops).records
    requires Run(start, ops).records[j].approval.Some? && Run(start, ops).records[j].result.None?
    ensures n < |ops| && InsertsApproval(start, ops, n, j, Run(start, ops).records[j].approval.value.id)
    decreases |ops|
  {
    InitialInv(start);
    assert ops != [];
    var m := |ops| - 1;
    var prefix := ops[..m];
    var before := Run(start, prefix);
    RunKeepsInv(start, prefix);
    RunKeepsLedgers(start, prefix);
    LastStep(start, ops);
    hide Inv, Apply, Ledgers, Run;
    if j in before.records && before.records[j].approval.Some? {
      ApprovalStep(before, ops[m], j);
      n := ApprovalWasInserted(start, prefix, j);
      assert prefix[..n] == ops[..n] && prefix[n] == ops[n];
    } else {
      NewApprovalStep(before, ops[m], j);
      n := m;
    }
  }

  // ---------------------------------------------------------------- the exact condition

  /** Over every run from empty tables: a dead-letter retry is accepted if and only if the job, in scope, is a dead
      letter below the cap of ten attempts, and an operator inserted its one approval row, under the id presented, after
      its last failure. */
  lemma RetryAcceptedExactly(start: Db, ops: seq<Op>, j: JobId, id: ApprovalId, scope: Scope)
    requires Initial(start) && j in Run(start, ops).records
    ensures var db := Run(start, ops); var job := db.records[j].job;
            RetryDeadLetterAct(db.now, db.records[j], id, scope).1.Moved? <==>
            && InScope(job, scope) && job.state.DeadLetter? && job.maxAttempts < 10 && job.completedAt.Some?
            && exists n | 0 <= n < |ops| ::
                 InsertsApproval(start, ops, n, j, id) && job.completedAt.value < Run(start, ops[..n]).now
  {
    var db := Run(start, ops);
    var rec := db.records[j];
    InitialInv(start);
    RunKeepsInv(start, ops);
    RunKeepsLedgers(start, ops);
    assert RecInv(db.now, rec) && Ledger(rec);
    AcceptedWhenRetryable(db.now, rec, id, scope);
    hide Inv, Ledgers, RetryDeadLetterAct, InsertsApproval;
    if Retryable(rec, id, scope) {
      assert rec.result.None? by { DeadLettersHaveNoResult(db.now, rec); }
      var n := ApprovalWasInserted(start, ops, j);
      InsertedStays(start, ops, n, j, id);
    }
    forall n | 0 <= n < |ops| && InsertsApproval(start, ops, n, j, id)
      ensures rec.approval == Some(Approval(id, Granted, Some(Run(start, ops[..n]).now)))
    {
      InsertedStays(start, ops, n, j, id);
    }
  }

  /** No operator inserts an approval by hand. */
  predicate Unaided(ops: seq<Op>) {
    forall i | 0 <= i < |ops| :: !(ops[i].OnJob? && ops[i].action.GrantApproval?)
  }

  /** Of the repository's own transactions none can produce the approval a dead-letter retry asks for: unless an
      operator inserts one by hand, every retry in every run is refused. */
  lemma RetryNeedsAnOperator(start: Db, ops: seq<Op>, j: JobId, id: ApprovalId, scope: Scope)
    requires Initial(start) && Unaided(ops) && j in Run(start, ops).records
    ensures RetryDeadLetterAct(Run(start, ops).now, Run(start, ops).records[j], id, scope).1.Refused?
  {
    RetryAcceptedExactly(start, ops, j, id, scope);
    hide Run, InScope;
  }

  lemma DeadLettersHaveNoResult(now: int, rec: Record)
    requires RecInv(now, rec) && rec.job.state.DeadLetter?
    ensures rec.result.None?
  {
    hide RowInv, AttemptsInv, ChunksInv;
  }

  // ---------------------------------------------------------------- an approval that comes too early

  /** The job has its approval, and it is not newer than a failure: there is none to come, since the table admits one
      per job. */
  predicate TooEarly(now: int, rec: Record) {
    && rec.approval.Some? && !rec.approval.value.state.Pending?
    && rec.approval.value.decidedAt.Some? && rec.approval.value.decidedAt.value <= now
    && (rec.job.state.DeadLetter? ==>
         rec.job.completedAt.Some? && rec.approval.value.decidedAt.value <= rec.job.completedAt.value)
  }

  lemma StepKeepsTooEarly(now: int, a: Record, b: Record)
    requires RowInv(a.job) && OutcomeInv(now, a) && Step(now, a, b) && TooEarly(now, a)
    ensures TooEarly(now, b)
  {
    hide Backoff;
  }

  ghost function TooEarlyFact(): (int, Record) -> bool {
    (now: int, rec: Record) => TooEarly(now, rec)
  }

  lemma TooEarlyLater(now: int, later: int, a: Record)
    requires now <= later && TooEarly(now, a)
    ensures TooEarly(later, a)
  {
  }

  lemma TooEarlyIsStable()
    ensures Stable(TooEarlyFact())
  {
    forall now, later, a | now <= later && TooEarly(now, a) ensures TooEarly(later, a) {
      TooEarlyLater(now, later, a);
    }
    hide Step, RowInv, OutcomeInv, TooEarly;
    forall now, a, b | Step(now, a, b) && RecInv(now, a) && TooEarly(now, a) ensures TooEarly(now, b) {
      StepKeepsTooEarly(now, a, b);
    }
  }

  /** An approval inserted before the job fails blocks every retry for good: whatever happens next, no retry is ever
      accepted. */
  lemma EarlyApprovalBlocks(start: Db, prefix: seq<Op>, ops: seq<Op>, j: JobId, id: ApprovalId, scope: Scope)
    requires Initial(start) && j in Run(start, prefix).records
    requires Run(start, prefix).records[j].approval.Some?
    requires !Run(start, prefix).records[j].approval.value.state.Pending?
    requires !Run(start, prefix).records[j].job.state.DeadLetter?
    ensures var db := Run(Run(start, prefix), ops);
            j in db.records && RetryDeadLetterAct(db.now, db.records[j], id, scope).1.Refused?
  {
    var mid := Run(start, prefix);
    InitialInv(start);
    RunKeepsInv(start, prefix);
    RunKeepsLedgers(start, prefix);
    assert RecInv(mid.now, mid.records[j]);
    assert TooEarly(mid.now, mid.records[j]) by { hide RowInv, AttemptsInv, ChunksInv, Run; }
    hide Inv, RecInv, Ledgers, TooEarly, Run;
    TooEarlyIsStable();
    StableOverRuns(TooEarlyFact(), mid, ops, j);
    RunKeepsInv(mid, ops);
    RunKeepsLedgers(mid, ops);
    RefusedWhenTooEarly(Run(mid, ops), j, id, scope);
  }

  lemma RefusedWhenTooEarly(db: Db, j: JobId, id: ApprovalId, scope: Scope)
    requires Inv(db) && Ledgers(db) && j in db.records && TooEarly(db.now, db.records[j])
    ensures RetryDeadLetterAct(db.now, db.records[j], id, scope).1.Refused?
  {
    assert RecInv(db.now, db.records[j]) && Ledger(db.records[j]);
    AcceptedWhenRetryable(db.now, db.records[j], id, scope);
    hide RecInv, Ledger, InScope;
  }

  // ---------------------------------------------------------------- a retry that is accepted

  const ANYWHERE := Scope(None, None)
  const COMMAND := NewJob(0, 0, "key", "hash", None, 0, None, false, 1)
  const REQUEST := ClaimRequest("worker", 60, ANYWHERE, None, None)
  const HOLDER := Caller("worker", 1, ANYWHERE)

  /** A job with one attempt is claimed and fails for good; a second later an operator inserts an approval. */
  function FailedAndApproved(): seq<Op> {
    [Submit(0, COMMAND), Op.Claim(REQUEST, {}, Some(0)), OnJob(0, Finish(HOLDER, true, false)), Tick(1),
        OnJob(0, GrantApproval(7))]
  }

  function Leased1(now: int): Record {
    ClaimRecord(now, NewRecord(now, COMMAND), "worker", 60)
  }

  function Failed1(now: int): Record {
    FinishAct(now, Leased1(now), HOLDER, true, false, Completed).0
  }

  lemma ClaimIsGranted(db: Db)
    requires db.records == map[0 := NewRecord(db.now, COMMAND)]
    ensures Apply(db, Op.Claim(REQUEST, {}, Some(0))) == db.(records := map[0 := Leased1(db.now)])
  {
    assert FastChat in ClaimProfiles(db, REQUEST) by { hide CompatibleClasses; }
    assert Grants(db, REQUEST, {}, 0);
    hide Grants, ClaimRecord;
    assert Apply(db, Op.Claim(REQUEST, {}, Some(0))).records == map[0 := Leased1(db.now)];
  }

  lemma ActionOnOnlyJob(db: Db, rec: Record, action: Action)
    requires db.records == map[0 := rec]
    ensures Apply(db, OnJob(0, action)) == db.(records := map[0 := Act(db.now, rec, action).0])
  {
    hide Act;
    assert Apply(db, OnJob(0, action)).records == map[0 := Act(db.now, rec, action).0];
  }

  lemma SubmittedToEmpty(start: Db)
    requires Initial(start)
    ensures Apply(start, Submit(0, COMMAND)) == start.(records := map[0 := NewRecord(start.now, COMMAND)])
  {
    hide NewRecord;
    assert Apply(start, Submit(0, COMMAND)).records == map[0 := NewRecord(start.now, COMMAND)];
  }

  lemma FailingBuries(db: Db)
    requires db.records == map[0 := Leased1(db.now)]
    ensures Apply(db, OnJob(0, Finish(HOLDER, true, false))) == db.(records := map[0 := Failed1(db.now)])
  {
    hide Apply, Leased1, FinishAct;
    ActionOnOnlyJob(db, Leased1(db.now), Finish(HOLDER, true, false));
  }

  lemma OnlyTimePasses(db: Db, rec: Record)
    requires db.records == map[0 := rec]
    ensures Apply(db, Tick(1)) == db.(now := db.now + 1)
  {
    assert Apply(db, Tick(1)).records == db.records;
  }

  lemma FiveSteps(start: Db)
    requires Initial(start)
    ensures Run(start, FailedAndApproved()) ==
            start.(now := start.now + 1, records := map[0 := GrantApprovalAct(start.now + 1, Failed1(start.now), 7).0])
  {
    hide Apply, Leased1, Failed1, NewRecord, GrantApprovalAct;
    var ops := FailedAndApproved();
    var s1 := start.(records := map[0 := NewRecord(start.now, COMMAND)]);
    var s2 := start.(records := map[0 := Leased1(start.now)]);
    var s3 := start.(records := map[0 := Failed1(start.now)]);
    var s4 := s3.(now := start.now + 1);
    SubmittedToEmpty(start);
    ClaimIsGranted(s1);
    FailingBuries(s2);
    OnlyTimePasses(s3, Failed1(start.now));
    ActionOnOnlyJob(s4, Failed1(start.now), GrantApproval(7));
    Unrolled(start, ops);
    Unrolled(s1, ops[1..]);
    Unrolled(s2, ops[2..]);
    Unrolled(s3, ops[3..]);
    Unrolled(s4, ops[4..]);
  }

  lemma Unrolled(db: Db, ops: seq<Op>)
    requires ops != []
    ensures Run(db, ops) == Run(Apply(db, ops[0]), ops[1..])
  {
  }

  /** From empty tables there is a run after which a dead-letter retry is accepted. */
  lemma SomeRetryIsAccepted(start: Db)
    requires Initial(start)
    ensures var db := Run(start, FailedAndApproved());
            0 in db.records && RetryDeadLetterAct(db.now, db.records[0], 7, ANYWHERE).1.Moved?
  {
    FiveSteps(start);
    RetryMoves(start.now);
    hide Run, GrantApprovalAct, RetryDeadLetterAct, Failed1;
  }

  lemma RetryMoves(now: int)
    ensures RetryDeadLetterAct(now + 1, GrantApprovalAct(now + 1, Failed1(now), 7).0, 7, ANYWHERE).1.Moved?
  {
    hide Backoff;
  }
}
