/** What the AI job tables say was put there by transactions entitled to say it, in every run from empty tables. */
module AiJobsEvidence {
  import opened Base
  import opened AiJobs
  import opened AiJobsSteps
  import opened AiJobsInvariant
  import opened AiJobsTheorems
  import opened AiJobsHolders
  import opened AiJobsTransitions

  // ---------------------------------------------------------------- the transaction that made something true

  /** Whatever holds of a job at the end of a run was made true by one of its transactions. */
  lemma {:induction false} TurningPoint(start: Db, ops: seq<Op>, j: JobId, p: Record -> bool) returns (n: nat)
    requires Initial(start) && j in Run(start, ops).records && p(Run(start, ops).records[j])
    ensures n < |ops|
    ensures var before := Run(start, ops[..n]);
            && Inv(before) && j in Apply(before, ops[n]).records && p(Apply(before, ops[n]).records[j])
            && (j in before.records ==> !p(before.records[j]))
    decreases |ops|
  {
    InitialInv(start);
    assert ops != [];
    var m := |ops| - 1;
    var prefix := ops[..m];
    RunKeepsInv(start, prefix);
    LastStep(start, ops);
    hide Inv, Apply, Run;
    if j in Run(start, prefix).records && p(Run(start, prefix).records[j]) {
      n := TurningPoint(start, prefix, j, p);
      assert prefix[..n] == ops[..n] && prefix[n] == ops[n];
    } else {
      n := m;
    }
  }

  /** What no new row has, a move of an existing one brought about. */
  lemma TurningMove(start: Db, ops: seq<Op>, j: JobId, p: Record -> bool) returns (n: nat)
    requires Initial(start) && j in Run(start, ops).records && p(Run(start, ops).records[j])
    requires forall now, command :: !p(NewRecord(now, command))
    ensures n < |ops|
    ensures var before := Run(start, ops[..n]);
            && Inv(before) && j in before.records && RecInv(before.now, before.records[j]) && !p(before.records[j])
            && p(After(before.now, before.records[j], MoveOf(before, ops[n], j)))
  {
    n := TurningPoint(start, ops, j, p);
    var before := Run(start, ops[..n]);
    hide Run, RecInv, After, MoveOf, NewRecord, Apply;
    if j in before.records {
      StepMoves(before, ops[n], j);
    } else {
      StepAdds(before, ops[n], j);
    }
  }

  // ---------------------------------------------------------------- states

  /** Every job that is not queued any more was brought into its state by one of the causes of that state. */
  lemma EveryStateHasItsCause(start: Db, ops: seq<Op>, j: JobId) returns (n: nat)
    requires Initial(start) && j in Run(start, ops).records && !Run(start, ops).records[j].job.state.Queued?
    ensures n < |ops|
    ensures var before := Run(start, ops[..n]);
            && j in before.records
            && Cause(before.now, before.records[j], MoveOf(before, ops[n], j), Run(start, ops).records[j].job.state)
  {
    var s := Run(start, ops).records[j].job.state;
    n := TurningMove(start, ops, j, (rec: Record) => rec.job.state == s);
    var before := Run(start, ops[..n]);
    hide Run, RecInv, After, MoveOf, Cause;
    EntersExactly(before.now, before.records[j], MoveOf(before, ops[n], j), s);
  }

  /** In particular nobody but the holder of the lease ever completes a job. */
  lemma EveryCompletionIsItsHolders(start: Db, ops: seq<Op>, j: JobId) returns (n: nat, action: Action)
    requires Initial(start) && j in Run(start, ops).records
    requires Run(start, ops).records[j].job.state.Completed? || Run(start, ops).records[j].job.state.ApprovalRequired?
    ensures n < |ops| && ops[n] == OnJob(j, action) && ByWorker(action)
    ensures var before := Run(start, ops[..n]);
            j in before.records && IsHolder(before.now, before.records[j].job, action.caller)
  {
    n := EveryStateHasItsCause(start, ops, j);
    var before := Run(start, ops[..n]);
    hide Run, MoveOf;
    action := MoveOf(before, ops[n], j).action;
    MoveNamesOp(before, ops[n], j, action);
  }

  // ---------------------------------------------------------------- results

  function OutputOf(action: Action): Output
    requires Delivers(action)
  {
    if action.Complete? then action.submitted.value else action.output
  }

  /** A delivery by the holder is stored as delivered - its hash, its tokens, and the approval it waits for - and
      nothing else gives a job a result. */
  lemma ResultIsWritten(now: int, rec: Record, move: Move)
    requires RecInv(now, rec) && rec.result.None?
    ensures var rec' := After(now, rec, move);
            if HolderReports(now, rec.job, move) && Delivers(move.action)
            then && rec'.result == Some(OutputOf(move.action).hash) && rec'.charge == Some(OutputOf(move.action).tokens)
                 && rec'.approval == if rec.job.spec.needsApproval && rec.approval.None?
                                     then Some(Approval(move.action.approvalId, Pending, None)) else rec.approval
            else rec'.result.None? && rec'.charge.None?
  {
    if move.ByAction? && ByWorker(move.action) {
      LeaseTest(now, rec.job, move.action.caller);
    }
    hide RowInv, AttemptsInv, ChunksInv, Backoff, InScope, LeaseOk, OnceHeld, RetryAuthorised, IsHolder;
  }

  lemma ResultAppears(now: int, rec: Record, move: Move, result: Hash, charge: nat)
    requires RecInv(now, rec) && !(rec.result == Some(result) && rec.charge == Some(charge))
    requires After(now, rec, move).result == Some(result) && After(now, rec, move).charge == Some(charge)
    ensures HolderReports(now, rec.job, move) && Delivers(move.action)
    ensures OutputOf(move.action) == Output(result, charge)
  {
    if rec.result.Some? {
      MoveSteps(now, rec, move);
      hide Step, RecInv, After;
      StoredStays(now, rec, After(now, rec, move));
    } else {
      ResultIsWritten(now, rec, move);
      hide RecInv, After, HolderReports;
    }
  }

  /** Every result and every charge of every run is what the job's live holder delivered, in one transaction. */
  lemma EveryResultHasItsReport(start: Db, ops: seq<Op>, j: JobId) returns (n: nat, action: Action)
    requires Initial(start) && j in Run(start, ops).records && Run(start, ops).records[j].result.Some?
    ensures n < |ops| && ops[n] == OnJob(j, action) && Delivers(action)
    ensures var before := Run(start, ops[..n]);
            j in before.records && IsHolder(before.now, before.records[j].job, action.caller)
    ensures Run(start, ops).records[j].charge.Some?
    ensures OutputOf(action) == Output(Run(start, ops).records[j].result.value, Run(start, ops).records[j].charge.value)
  {
    InitialInv(start);
    RunKeepsInv(start, ops);
    assert RecInv(Run(start, ops).now, Run(start, ops).records[j]);
    var result, charge := Run(start, ops).records[j].result, Run(start, ops).records[j].charge;
    assert charge.Some? by { hide RowInv, AttemptsInv, ChunksInv, Run; }
    n := TurningMove(start, ops, j, (rec: Record) => rec.result == result && rec.charge == charge);
    var before := Run(start, ops[..n]);
    hide Run, RecInv, After, MoveOf, Inv;
    ResultAppears(before.now, before.records[j], MoveOf(before, ops[n], j), result.value, charge.value);
    action := MoveOf(before, ops[n], j).action;
    MoveNamesOp(before, ops[n], j, action);
  }

  lemma DeliveryLeavesItsResult(db: Db, j: JobId, first: Action)
    requires Inv(db) && j in db.records && Delivers(first) && TakesEffect(db.now, db.records[j], first)
    ensures var db1 := Apply(db, OnJob(j, first));
            Inv(db1) && j in db1.records && db1.records[j].result == Some(OutputOf(first).hash)
  {
    var rec := db.records[j];
    assert RecInv(db.now, rec);
    StepKeepsInv(db, OnJob(j, first));
    ActionMoves(db, j, first);
    hide Inv, Apply;
    EffectiveDelivery(db.now, rec, first);
    ResultIsWritten(db.now, rec, ByAction(first));
    hide RecInv, HolderReports;
  }

  lemma EffectiveDelivery(now: int, rec: Record, action: Action)
    requires RecInv(now, rec) && Delivers(action) && TakesEffect(now, rec, action)
    ensures HolderReports(now, rec.job, ByAction(action)) && rec.result.None?
  {
    LeaseTest(now, rec.job, action.caller);
    hide AttemptsInv, ChunksInv, Backoff, InScope, LeaseOk;
  }

  /** A completing report that took effect is answered from its result for as long as the job stands completed or
      proposed, whatever ran in between: the same output as a duplicate, any other as a conflict. */
  lemma RepeatsAreDuplicates(db: Db, j: JobId, first: Action, between: seq<Op>, c: Caller, output: Output,
                             approvalId: ApprovalId)
    requires Inv(db) && j in db.records && Delivers(first) && TakesEffect(db.now, db.records[j], first)
    requires var later := Run(Apply(db, OnJob(j, first)), between);
             && j in later.records && Covers(c.scope, later.records[j].job.spec)
             && (later.records[j].job.state.Completed? || later.records[j].job.state.ApprovalRequired?)
    ensures var later := Run(Apply(db, OnJob(j, first)), between);
            && Act(later.now, later.records[j], Complete(c, Some(output), approvalId)).1 ==
                 (if output.hash == OutputOf(first).hash then Duplicate(later.records[j].job.state)
                  else Refused(DuplicateResult))
            && Apply(later, OnJob(j, Complete(c, Some(output), approvalId))) == later
  {
    var db1 := Apply(db, OnJob(j, first));
    DeliveryLeavesItsResult(db, j, first);
    hide Apply, Inv, TakesEffect;
    ResultsArePermanent(db1, between, j);
    var later := Run(db1, between);
    ScopeTest(later.records[j].job, c.scope);
    hide InScope, Run;
    AnsweredFromTheResult(later, j, Complete(c, Some(output), approvalId));
  }

  lemma AnsweredFromTheResult(db: Db, j: JobId, action: Action)
    requires j in db.records && action.Complete? && InScope(db.records[j].job, action.caller.scope)
    requires db.records[j].job.state.Completed? || db.records[j].job.state.ApprovalRequired?
    ensures Apply(db, OnJob(j, action)) == db
    ensures Act(db.now, db.records[j], action).1 ==
              if action.submitted.Some? && db.records[j].result == Some(action.submitted.value.hash)
              then Duplicate(db.records[j].job.state) else Refused(DuplicateResult)
  {
    assert !TakesEffect(db.now, db.records[j], action);
    hide InScope, Act;
    IgnoredChangesNothing(db, j, action);
  }

  // ---------------------------------------------------------------- attempts and output

  lemma AttemptsStay(now: int, a: Record, b: Record, t: nat)
    requires Step(now, a, b) && t in a.attempts
    ensures t in b.attempts && b.attempts[t] == a.attempts[t]
  {
    hide Backoff, RetryAuthorised, FinishRow;
  }

  ghost function AttemptFact(t: nat, attempt: Attempt): (int, Record) -> bool {
    (now: int, rec: Record) => t in rec.attempts && rec.attempts[t] == attempt
  }

  lemma AttemptIsStable(t: nat, attempt: Attempt)
    ensures Stable(AttemptFact(t, attempt))
  {
    hide Step, RecInv;
    forall now, a, b | Step(now, a, b) && RecInv(now, a) && t in a.attempts && a.attempts[t] == attempt
      ensures t in b.attempts && b.attempts[t] == attempt
    {
      AttemptsStay(now, a, b, t);
    }
  }

  /** The attempts table is only added to. */
  lemma AttemptsArePermanent(db: Db, ops: seq<Op>, j: JobId, t: nat)
    requires Inv(db) && j in db.records && t in db.records[j].attempts
    ensures j in Run(db, ops).records && t in Run(db, ops).records[j].attempts
    ensures Run(db, ops).records[j].attempts[t] == db.records[j].attempts[t]
  {
    var attempt := db.records[j].attempts[t];
    hide Inv, Stable;
    AttemptIsStable(t, attempt);
    StableOverRuns(AttemptFact(t, attempt), db, ops, j);
  }

  lemma AttemptAppears(now: int, rec: Record, move: Move, t: nat, attempt: Attempt)
    requires RecInv(now, rec) && !(t in rec.attempts && rec.attempts[t] == attempt)
    requires t in After(now, rec, move).attempts && After(now, rec, move).attempts[t] == attempt
    ensures move.ByClaim? && attempt == Attempt(t, move.worker) && t == rec.job.fencingToken + 1
  {
    hide Backoff, OutcomeInv, ChunksInv, InScope, LeaseOk, OnceHeld, RetryAuthorised;
  }

  /** Every attempt on record is a granted claim by the worker it names, which issued its token. */
  lemma EveryAttemptHasItsClaim(start: Db, ops: seq<Op>, j: JobId, t: nat) returns (n: nat)
    requires Initial(start) && j in Run(start, ops).records && t in Run(start, ops).records[j].attempts
    ensures n < |ops| && GrantsClaim(Run(start, ops[..n]), ops[n], j)
    ensures Run(start, ops).records[j].attempts[t] == Attempt(t, ops[n].request.worker)
    ensures TokenOf(Run(start, ops[..n]), j) + 1 == t
  {
    var attempt := Run(start, ops).records[j].attempts[t];
    n := TurningMove(start, ops, j, (rec: Record) => t in rec.attempts && rec.attempts[t] == attempt);
    var before := Run(start, ops[..n]);
    hide Run, RecInv, After, Grants;
    AttemptAppears(before.now, before.records[j], MoveOf(before, ops[n], j), t, attempt);
  }

  lemma ChunkAppears(now: int, rec: Record, move: Move, s: nat, chunk: Chunk) returns (c: Caller, limit: nat)
    requires !(s in rec.chunks && rec.chunks[s] == chunk)
    requires s in After(now, rec, move).chunks && After(now, rec, move).chunks[s] == chunk
    ensures move == ByAction(AppendChunk(c, s, chunk.size, chunk.hash, limit)) && c.token == chunk.token
    ensures IsHolder(now, rec.job, c) && rec.job.state.Leased? && rec.job.outputBytes + chunk.size <= limit
  {
    assert move.ByAction? && move.action.AppendChunk? by {
      hide Backoff, InScope, LeaseOk, OnceHeld, RetryAuthorised;
    }
    var a := move.action;
    c, limit := a.caller, a.limit;
    ChunkStoredExactly(now, rec, c, a.sequence, a.size, a.hash, limit);
    hide Act, IsHolder;
  }

  lemma HolderIsOnRecord(now: int, rec: Record, c: Caller)
    requires RecInv(now, rec) && IsHolder(now, rec.job, c)
    ensures c.token in rec.attempts && rec.attempts[c.token] == Attempt(c.token, c.worker)
  {
    hide ChunksInv, OutcomeInv;
  }

  /** Every stored chunk is exactly what a worker sent while it held the job under the chunk's token, and the attempts
      table names that worker for that token. */
  lemma EveryChunkHasItsWriter(start: Db, ops: seq<Op>, j: JobId, s: nat) returns (n: nat, c: Caller, limit: nat)
    requires Initial(start) && j in Run(start, ops).records && s in Run(start, ops).records[j].chunks
    ensures var chunk := Run(start, ops).records[j].chunks[s];
            && n < |ops| && ops[n] == OnJob(j, AppendChunk(c, s, chunk.size, chunk.hash, limit))
            && chunk.token == c.token
            && chunk.token in Run(start, ops).records[j].attempts
            && Run(start, ops).records[j].attempts[chunk.token].worker == c.worker
    ensures var before := Run(start, ops[..n]);
            j in before.records && IsHolder(before.now, before.records[j].job, c)
  {
    var chunk := Run(start, ops).records[j].chunks[s];
    n := TurningMove(start, ops, j, (rec: Record) => s in rec.chunks && rec.chunks[s] == chunk);
    var before := Run(start, ops[..n]);
    hide RecInv, After, MoveOf, Inv, Apply;
    c, limit := ChunkAppears(before.now, before.records[j], MoveOf(before, ops[n], j), s, chunk);
    MoveNamesOp(before, ops[n], j, AppendChunk(c, s, chunk.size, chunk.hash, limit));
    HolderIsOnRecord(before.now, before.records[j], c);
    RestOfTheRun(start, ops, n);
    hide Run, IsHolder;
    AttemptsArePermanent(before, ops[n..], j, c.token);
  }

  lemma {:induction false} RestOfTheRun(start: Db, ops: seq<Op>, n: nat)
    requires n <= |ops|
    ensures Run(start, ops) == Run(Run(start, ops[..n]), ops[n..])
    decreases n
  {
    hide Apply;
    if n == 0 {
      assert ops[..0] == [] && ops[0..] == ops;
    } else {
      var rest := ops[1..];
      RestOfTheRun(Apply(start, ops[0]), rest, n - 1);
      assert ops[..n][0] == ops[0] && ops[..n][1..] == rest[..n - 1] && rest[n - 1..] == ops[n..];
    }
  }

  // ---------------------------------------------------------------- submissions

  lemma SpecStays(now: int, a: Record, b: Record)
    requires Step(now, a, b)
    ensures b.job.spec == a.job.spec
  {
    hide Backoff, RetryAuthorised, Stored, NothingStored;
  }

  ghost function SpecFact(spec: Spec): (int, Record) -> bool {
    (now: int, rec: Record) => rec.job.spec == spec
  }

  lemma SpecIsStable(spec: Spec)
    ensures Stable(SpecFact(spec))
  {
    hide Step, RecInv;
    forall now, a, b | Step(now, a, b) && RecInv(now, a) && a.job.spec == spec ensures b.job.spec == spec {
      SpecStays(now, a, b);
    }
  }

  lemma SpecsArePermanent(db: Db, ops: seq<Op>, j: JobId)
    requires Inv(db) && j in db.records
    ensures j in Run(db, ops).records && Run(db, ops).records[j].job.spec == db.records[j].job.spec
  {
    var spec := db.records[j].job.spec;
    hide Inv, Stable;
    SpecIsStable(spec);
    StableOverRuns(SpecFact(spec), db, ops, j);
  }

  /** Every job of every run is the job somebody submitted: it entered the tables queued, unattempted and due at once,
      and still carries the organization, workspace, key, request, profile, priority and deadline submitted. */
  lemma EveryJobWasSubmitted(start: Db, ops: seq<Op>, j: JobId) returns (n: nat, c: NewJob)
    requires Initial(start) && j in Run(start, ops).records
    ensures n < |ops| && ops[n] == Submit(j, c) && j !in Run(start, ops[..n]).records
    ensures var t := Run(start, ops[..n]).now;
            Run(start, ops).records[j].job.spec ==
              Spec(c.org, c.workspace, c.key, c.requestHash, c.profile, c.priority, t, c.deadlineAt, c.needsApproval)
    ensures var before := Run(start, ops[..n]);
            && j in Apply(before, ops[n]).records
            && var job := Apply(before, ops[n]).records[j].job;
               && job.state.Queued? && job.attemptCount == 0 == job.fencingToken && job.maxAttempts == c.maxAttempts
               && job.nextAttemptAt == before.now && job.lease.None? && job.cancelRequestedAt.None?
  {
    n := TurningPoint(start, ops, j, (rec: Record) => true);
    var before := Run(start, ops[..n]);
    StepAdds(before, ops[n], j);
    c := ops[n].command;
    RunSplits(start, ops, n);
    assert Apply(before, ops[n]).records[j] == NewRecord(before.now, c);
    StepKeepsInv(before, ops[n]);
    hide Inv, Apply, Run;
    SpecsArePermanent(Apply(before, ops[n]), ops[n + 1..], j);
  }
}
