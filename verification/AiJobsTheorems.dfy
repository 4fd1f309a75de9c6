/** Safety of the AI job queue over every run: fencing, reports, cancellation, dead-letter retries. */
module AiJobsTheorems {
  import opened Base
  import opened AiJobs
  import opened AiJobsSteps
  import opened AiJobsInvariant

  // ---------------------------------------------------------------- stable facts

  /** A fact about one job that no transaction and no passing of time undoes. */
  ghost predicate Stable(p: (int, Record) -> bool) {
    && (forall now, a, b :: Step(now, a, b) && RecInv(now, a) && p(now, a) ==> p(now, b))
    && (forall now, later, a :: now <= later && p(now, a) ==> p(later, a))
  }

  lemma {:induction false} StableOverRuns(p: (int, Record) -> bool, db: Db, ops: seq<Op>, j: JobId)
    requires Stable(p) && Inv(db)
    requires j in db.records && p(db.now, db.records[j])
    ensures j in Run(db, ops).records && p(Run(db, ops).now, Run(db, ops).records[j])
    decreases |ops|
  {
    if ops != [] {
      hide Apply, RecInv, After, MoveOf, Step;
      var db' := Apply(db, ops[0]);
      StepKeepsInv(db, ops[0]);
      StepGrows(db, ops[0]);
      StepMoves(db, ops[0], j);
      MoveKeeps(db.now, db.records[j], MoveOf(db, ops[0], j));
      assert p(db.now, db'.records[j]);
      StableOverRuns(p, db', ops[1..], j);
    }
  }

  // ---------------------------------------------------------------- positions in a run

  lemma {:induction false} RunSplits(start: Db, ops: seq<Op>, n: nat)
    requires n < |ops|
    ensures Run(start, ops) == Run(Apply(Run(start, ops[..n]), ops[n]), ops[n + 1..])
    decreases n
  {
    hide Apply;
    if n == 0 {
      assert ops[..0] == [];
    } else {
      var rest := ops[1..];
      RunSplits(Apply(start, ops[0]), rest, n - 1);
      assert ops[..n][0] == ops[0] && ops[..n][1..] == rest[..n - 1] && rest[n..] == ops[n + 1..];
    }
  }

  lemma LastStep(start: Db, ops: seq<Op>)
    requires ops != []
    ensures Run(start, ops) == Apply(Run(start, ops[..|ops| - 1]), ops[|ops| - 1])
  {
    RunSplits(start, ops, |ops| - 1);
    hide Apply;
    assert ops[|ops|..] == [];
  }

  lemma MoveNamesOp(db: Db, op: Op, j: JobId, action: Action)
    requires j in db.records && MoveOf(db, op, j) == ByAction(action)
    ensures op == OnJob(j, action)
  {
    hide Grants;
  }

  // ---------------------------------------------------------------- fencing

  /** assert_lease accepts the worker and token, with cancel_requested allowed and no scope demanded. */
  predicate LiveFor(now: int, job: Job, worker: WorkerId, token: nat) {
    HeldBy(now, job, worker) && job.fencingToken == token
  }

  predicate Dead(now: int, rec: Record, worker: WorkerId, token: nat) {
    token <= rec.job.fencingToken && !LiveFor(now, rec.job, worker, token)
  }

  lemma StepKeepsDead(now: int, a: Record, b: Record, worker: WorkerId, token: nat)
    requires RowInv(a.job) && Step(now, a, b) && Dead(now, a, worker, token)
    ensures Dead(now, b, worker, token)
  {
    hide Backoff, Stored, NothingStored, RetryAuthorised;
  }

  /** Once an issued (worker, token) is refused, it is refused in every later state of every run. */
  lemma DeadLeasesStayDead(db: Db, ops: seq<Op>, j: JobId, worker: WorkerId, token: nat)
    requires Inv(db) && j in db.records && Dead(db.now, db.records[j], worker, token)
    ensures j in Run(db, ops).records && Dead(Run(db, ops).now, Run(db, ops).records[j], worker, token)
  {
    hide Inv, RecInv, Dead;
    DeadIsStable(worker, token);
    StableOverRuns(DeadFact(worker, token), db, ops, j);
  }

  ghost function DeadFact(worker: WorkerId, token: nat): (int, Record) -> bool {
    (now: int, rec: Record) => Dead(now, rec, worker, token)
  }

  lemma DeadIsStable(worker: WorkerId, token: nat)
    ensures Stable(DeadFact(worker, token))
  {
    forall now, later, a | now <= later && Dead(now, a, worker, token) ensures Dead(later, a, worker, token) {
      DeadLater(now, later, a, worker, token);
    }
    hide Step, RecInv, Dead;
    forall now, a, b | Step(now, a, b) && RecInv(now, a) && Dead(now, a, worker, token)
        ensures Dead(now, b, worker, token) {
      RecImpliesRow(now, a);
      StepKeepsDead(now, a, b, worker, token);
    }
  }

  lemma DeadLater(now: int, later: int, a: Record, worker: WorkerId, token: nat)
    requires now <= later && Dead(now, a, worker, token)
    ensures Dead(later, a, worker, token)
  {
  }

  lemma RecImpliesRow(now: int, a: Record)
    requires RecInv(now, a)
    ensures RowInv(a.job)
  {
  }

  /** The transactions that end a live lease. */
  predicate EndsLease(now: int, job: Job, move: Move) {
    match move
    case ByDeadline => DeadlinePassed(now, job)
    case ByAction(Heartbeat(c, seconds)) => LeaseOk(now, job, c, true) && seconds == 0
    case ByAction(Complete(c, submitted, _)) => LeaseOk(now, job, c, submitted.None?)
    case ByAction(StoreAndFinish(c, _, _)) => LeaseOk(now, job, c, true)
    case ByAction(Finish(c, _, _)) => LeaseOk(now, job, c, true)
    case ByAction(WorkerCancel(c)) => LeaseOk(now, job, c, true) && job.cancelRequestedAt.Some?
    case _ => false
  }

  lemma ActionEndsLeaseExactly(now: int, rec: Record, action: Action, worker: WorkerId, token: nat)
    requires RecInv(now, rec) && LiveFor(now, rec.job, worker, token)
    ensures LiveFor(now, Act(now, rec, action).0.job, worker, token) <==> !EndsLease(now, rec.job, ByAction(action))
  {
    hide Backoff, AttemptsInv, ChunksInv, OnceHeld, InScope;
  }

  /** A live lease survives every transaction except its own holder's accepted report, a zero-length renewal and the
      job's deadline: no sweep, claim, cancellation, decision or other worker takes it away before it expires. */
  lemma LeaseLostExactly(now: int, rec: Record, move: Move, worker: WorkerId, token: nat)
    requires RecInv(now, rec) && LiveFor(now, rec.job, worker, token)
    ensures LiveFor(now, After(now, rec, move).job, worker, token) <==> !EndsLease(now, rec.job, move)
  {
    hide Act;
    if move.ByAction? {
      ActionEndsLeaseExactly(now, rec, move.action, worker, token);
    }
  }

  // ---------------------------------------------------------------- claims

  /** This transaction issues a new lease on the job. */
  predicate GrantsClaim(db: Db, op: Op, j: JobId) {
    op.Claim? && op.pick == Some(j) && Grants(db, op.request, op.locked, j)
  }

  function TokenOf(db: Db, j: JobId): nat {
    if j in db.records then db.records[j].job.fencingToken else 0
  }

  /** Leases issued on the job over a run. */
  ghost function ClaimCount(db: Db, ops: seq<Op>, j: JobId): nat
    decreases |ops|
  {
    if ops == [] then 0
    else (if GrantsClaim(db, ops[0], j) then 1 else 0) + ClaimCount(Apply(db, ops[0]), ops[1..], j)
  }

  /** A granted claim never rolls back, and issues the next token to the worker that asked. */
  lemma GrantIssuesNextToken(db: Db, op: Op, j: JobId)
    requires Inv(db) && GrantsClaim(db, op, j)
    ensures j in Apply(db, op).records
    ensures TokenOf(Apply(db, op), j) == TokenOf(db, j) + 1
    ensures 0 < op.request.leaseSeconds ==>
              LiveFor(Apply(db, op).now, Apply(db, op).records[j].job, op.request.worker, TokenOf(db, j) + 1)
  {
    StepMoves(db, op, j);
    assert MoveOf(db, op, j) == ByClaim(op.request.worker, op.request.leaseSeconds) by {
      hide Grants;
    }
    assert RecInv(db.now, db.records[j]);
    hide Inv, ChunksInv, OutcomeInv, ClaimGate, ClaimProfiles, MoveOf;
  }

  lemma OnlyGrantsIssueTokens(db: Db, op: Op, j: JobId)
    requires Inv(db) && !GrantsClaim(db, op, j)
    ensures TokenOf(Apply(db, op), j) == TokenOf(db, j)
  {
    hide Apply, RecInv, Grants, After, Step;
    if j in db.records {
      StepMoves(db, op, j);
      MoveIssuesNoToken(db.now, db.records[j], MoveOf(db, op, j));
    } else if j in Apply(db, op).records {
      StepAdds(db, op, j);
    }
  }

  lemma MoveIssuesNoToken(now: int, rec: Record, move: Move)
    requires RecInv(now, rec) && !move.ByClaim?
    ensures After(now, rec, move).job.fencingToken == rec.job.fencingToken
  {
    hide Backoff, RecInv, InScope, OnceHeld;
  }

  lemma {:induction false} ClaimsAreTokens(db: Db, ops: seq<Op>, j: JobId)
    requires Inv(db)
    ensures TokenOf(Run(db, ops), j) == TokenOf(db, j) + ClaimCount(db, ops, j)
    decreases |ops|
  {
    if ops != [] {
      hide Apply, Inv, GrantsClaim;
      StepKeepsInv(db, ops[0]);
      if GrantsClaim(db, ops[0], j) {
        GrantIssuesNextToken(db, ops[0], j);
      } else {
        OnlyGrantsIssueTokens(db, ops[0], j);
      }
      ClaimsAreTokens(Apply(db, ops[0]), ops[1..], j);
    }
  }

  /** Over any run from empty tables a job is leased out at most ten times, and never past its attempt limit. */
  lemma AtMostTenClaims(start: Db, ops: seq<Op>, j: JobId)
    requires Initial(start)
    ensures ClaimCount(start, ops, j) <= 10
    ensures j in Run(start, ops).records ==>
              var job := Run(start, ops).records[j].job;
              ClaimCount(start, ops, j) == job.attemptCount <= job.maxAttempts
  {
    InitialInv(start);
    RunKeepsInv(start, ops);
    ClaimsAreTokens(start, ops, j);
    assert j in Run(start, ops).records ==> RecInv(Run(start, ops).now, Run(start, ops).records[j]);
  }

  // ---------------------------------------------------------------- reports

  /** A worker's reports on a lease: complete, fail, release, acknowledge cancellation. */
  predicate IsReport(action: Action, worker: WorkerId, token: nat) {
    (action.Complete? || action.StoreAndFinish? || action.Finish? || action.WorkerCancel?)
    && action.caller.worker == worker && action.caller.token == token
  }

  predicate TakesEffect(now: int, rec: Record, action: Action) {
    Act(now, rec, action).0 != rec
  }

  lemma EffectiveReportEndsLease(now: int, rec: Record, action: Action, worker: WorkerId, token: nat)
    requires RecInv(now, rec) && IsReport(action, worker, token) && TakesEffect(now, rec, action)
    ensures LiveFor(now, rec.job, worker, token)
    ensures Act(now, rec, action).0.job.lease.None? && Act(now, rec, action).0.job.fencingToken == token
  {
    hide Backoff, RecInv, InScope, OnceHeld;
  }

  lemma DeadReportIsIgnored(now: int, rec: Record, action: Action, worker: WorkerId, token: nat)
    requires IsReport(action, worker, token) && !LiveFor(now, rec.job, worker, token)
    ensures !TakesEffect(now, rec, action)
    ensures Act(now, rec, action).1.Refused? || Act(now, rec, action).1.Duplicate?
  {
    hide Backoff, InScope, OnceHeld;
  }

  lemma ActionMoves(db: Db, j: JobId, action: Action)
    requires j in db.records
    ensures var db1 := Apply(db, OnJob(j, action));
            && db1.now == db.now && j in db1.records
            && db1.records[j] == Act(db.now, db.records[j], action).0
  {
    hide Act;
    StepMoves(db, OnJob(j, action), j);
  }

  lemma FirstReportKills(db: Db, j: JobId, first: Action, worker: WorkerId, token: nat)
    requires Inv(db) && j in db.records && IsReport(first, worker, token) && TakesEffect(db.now, db.records[j], first)
    ensures var db1 := Apply(db, OnJob(j, first));
            j in db1.records && Dead(db1.now, db1.records[j], worker, token) && Inv(db1)
  {
    assert RecInv(db.now, db.records[j]);
    hide Act, IsReport, RecInv, Inv, Dead, TakesEffect;
    StepKeepsInv(db, OnJob(j, first));
    ActionMoves(db, j, first);
    hide Apply;
    EffectiveReportEndsLease(db.now, db.records[j], first, worker, token);
  }

  /** Lost replies are harmless. Once one report on a lease has taken effect, every later report on that lease -
      a repeated complete, or the fail a worker sends after losing the reply - changes no table, whatever ran in
      between. */
  lemma AtMostOneReportTakesEffect(db: Db, j: JobId, first: Action, between: seq<Op>, second: Action, worker: WorkerId,
                                   token: nat)
    requires Inv(db) && j in db.records
    requires IsReport(first, worker, token) && TakesEffect(db.now, db.records[j], first)
    requires IsReport(second, worker, token)
    ensures var later := Run(Apply(db, OnJob(j, first)), between);
            && j in later.records
            && Apply(later, OnJob(j, second)) == later
            && (Act(later.now, later.records[j], second).1.Refused?
                 || Act(later.now, later.records[j], second).1.Duplicate?)
  {
    var db1 := Apply(db, OnJob(j, first));
    FirstReportKills(db, j, first, worker, token);
    hide Apply, Inv, Act, IsReport, TakesEffect, Dead;
    DeadLeasesStayDead(db1, between, j, worker, token);
    var later := Run(db1, between);
    DeadReportIsIgnored(later.now, later.records[j], second, worker, token);
    IgnoredChangesNothing(later, j, second);
  }

  lemma IgnoredChangesNothing(db: Db, j: JobId, action: Action)
    requires j in db.records && !TakesEffect(db.now, db.records[j], action)
    ensures Apply(db, OnJob(j, action)) == db
  {
    hide Act;
    assert Apply(db, OnJob(j, action)).records == db.records;
  }

  // ---------------------------------------------------------------- what is stored

  /** A stored result and its usage charge never change: a job is charged at most once, by the report that
      completed it. */
  lemma ResultsArePermanent(db: Db, ops: seq<Op>, j: JobId)
    requires Inv(db) && j in db.records && db.records[j].result.Some?
    ensures j in Run(db, ops).records
    ensures Run(db, ops).records[j].result == db.records[j].result
    ensures Run(db, ops).records[j].charge == db.records[j].charge
    ensures TokenOf(Run(db, ops), j) == TokenOf(db, j)
  {
    var result, charge, token := db.records[j].result, db.records[j].charge, db.records[j].job.fencingToken;
    hide Inv, RecInv;
    StoredIsStable(result, charge, token);
    StableOverRuns(StoredFact(result, charge, token), db, ops, j);
  }

  ghost function StoredFact(result: Option<Hash>, charge: Option<nat>, token: nat): (int, Record) -> bool {
    (now: int, rec: Record) => rec.result == result && rec.charge == charge && rec.job.fencingToken == token
  }

  lemma StoredIsStable(result: Option<Hash>, charge: Option<nat>, token: nat)
    requires result.Some?
    ensures Stable(StoredFact(result, charge, token))
  {
    hide Step, RecInv;
    forall now, a, b | Step(now, a, b) && RecInv(now, a) && a.result == result && a.charge == charge
        && a.job.fencingToken == token
      ensures b.result == result && b.charge == charge && b.job.fencingToken == token
    {
      StoredStays(now, a, b);
    }
  }

  lemma StoredStays(now: int, a: Record, b: Record)
    requires RecInv(now, a) && Step(now, a, b) && a.result.Some?
    ensures b.result == a.result && b.charge == a.charge && b.job.fencingToken == a.job.fencingToken
  {
    hide Backoff, AttemptsInv, ChunksInv, RetryAuthorised;
  }
}
