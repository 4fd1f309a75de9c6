/** Runtime admission: how many leases, and of which classes, one registered worker can hold at once. */
module AiJobsAdmission {
  import opened Base
  import opened ModelProfiles
  import opened AiJobs
  import opened AiJobsSteps
  import opened AiJobsInvariant
  import opened AiJobsTheorems

  function LiveLeases(db: Db, worker: WorkerId): set<JobId> {
    set j | j in db.records && HeldBy(db.now, db.records[j].job, worker)
  }

  function ProfileOf(db: Db, j: JobId): Option<Profile> {
    if j in db.records then db.records[j].job.spec.profile else None
  }

  /** The worker's claims all name a service, in one scope, and its registration never allows more than limit. */
  predicate Disciplined(op: Op, worker: WorkerId, scope: Scope, limit: nat) {
    && (op.Claim? && op.request.worker == worker ==> op.request.service.Some? && op.request.scope == scope)
    && (op.RegisterWorker? && op.worker == worker ==> op.registration.maxConcurrency <= limit)
  }

  ghost predicate Admitted(db: Db, worker: WorkerId, scope: Scope, limit: nat) {
    && (worker in db.workers ==> db.workers[worker].maxConcurrency <= limit)
    && (forall j | j in LiveLeases(db, worker) :: InScope(db.records[j].job, scope))
    && |LiveLeases(db, worker)| <= Min(limit, WORKER_HARD_SAFETY_CAP)
    && (forall j, k | j in LiveLeases(db, worker) && k in LiveLeases(db, worker) && j != k ::
         MayShare(ProfileOf(db, j), ProfileOf(db, k)))
  }

  /** Only a claim by the worker itself adds to its live leases. */
  lemma LeaseComesFromClaim(now: int, a: Record, move: Move, worker: WorkerId)
    requires RecInv(now, a) && HeldBy(now, After(now, a, move).job, worker) && !HeldBy(now, a.job, worker)
    ensures move.ByClaim? && move.worker == worker
  {
    var token := a.job.fencingToken;
    if !move.ByClaim? {
      MoveIssuesNoToken(now, a, move);
      MoveSteps(now, a, move);
      assert Dead(now, a, worker, token);
      RecImpliesRow(now, a);
      StepKeepsDead(now, a, After(now, a, move), worker, token);
    }
  }

  lemma NewLeases(db: Db, op: Op, worker: WorkerId, j: JobId)
    requires Inv(db) && j in LiveLeases(Apply(db, op), worker) && j !in LiveLeases(db, worker)
    ensures GrantsClaim(db, op, j) && op.request.worker == worker
  {
    hide RecInv, Apply, After, Grants;
    var db' := Apply(db, op);
    StepGrows(db, op);
    if j in db.records {
      StepMoves(db, op, j);
      assert HeldBy(db.now, db'.records[j].job, worker);
      LeaseComesFromClaim(db.now, db.records[j], MoveOf(db, op, j), worker);
    } else {
      StepAdds(db, op, j);
    }
  }

  lemma ProfilesStay(db: Db, op: Op, j: JobId)
    requires Inv(db) && j in db.records
    ensures j in Apply(db, op).records && Apply(db, op).records[j].job.spec == db.records[j].job.spec
  {
    hide Apply, RecInv;
    StepGrows(db, op);
    StepKeepsRecord(db, op, j);
  }

  /** What a granted claim was checked against: the worker's live leases, their number and their classes. */
  lemma GrantIsAdmissible(db: Db, op: Op, j: JobId, worker: WorkerId, scope: Scope, limit: nat)
    requires Admitted(db, worker, scope, limit) && GrantsClaim(db, op, j)
    requires op.request.worker == worker && Disciplined(op, worker, scope, limit)
    ensures |LiveLeases(db, worker)| + 1 <= Min(limit, WORKER_HARD_SAFETY_CAP)
    ensures InScope(db.records[j].job, scope)
    ensures forall k | k in LiveLeases(db, worker) :: MayShare(ProfileOf(db, k), ProfileOf(db, j))
  {
    assert ActiveJobs(db, worker, scope) == LiveLeases(db, worker);
    var active := ProfilesOf(db, ActiveJobs(db, worker, scope));
    var profile := db.records[j].job.spec.profile;
    assert profile.Some? && profile.value in EffectiveProfiles(active, op.request.profiles);
    FilterNeverWidens(active, op.request.profiles, profile.value);
    forall k | k in LiveLeases(db, worker) ensures MayShare(ProfileOf(db, k), ProfileOf(db, j)) {
      assert ProfileOf(db, k) in active;
    }
  }

  /** The worker's live leases after a step, all old but perhaps one. */
  ghost predicate Grown(db: Db, db': Db, worker: WorkerId, added: Option<JobId>) {
    && (forall j | j in LiveLeases(db', worker) :: j in LiveLeases(db, worker) || Some(j) == added)
    && (forall j | j in LiveLeases(db', worker) :: j in db.records && db'.records[j].job.spec == db.records[j].job.spec)
  }

  lemma GrownStaysAdmitted(db: Db, db': Db, worker: WorkerId, scope: Scope, limit: nat, added: Option<JobId>)
    requires Admitted(db, worker, scope, limit) && Grown(db, db', worker, added)
    requires worker in db'.workers ==> db'.workers[worker].maxConcurrency <= limit
    requires added.Some? ==>
               && added.value in db.records && InScope(db.records[added.value].job, scope)
               && |LiveLeases(db, worker)| + 1 <= Min(limit, WORKER_HARD_SAFETY_CAP)
               && forall k | k in LiveLeases(db, worker) :: MayShare(ProfileOf(db, k), ProfileOf(db, added.value))
    ensures Admitted(db', worker, scope, limit)
  {
    hide HeldBy;
    var before, after := LiveLeases(db, worker), LiveLeases(db', worker);
    SubsetSize(after, if added.Some? then before + {added.value} else before);
    forall a, b | a in after && b in after && a != b ensures MayShare(ProfileOf(db', a), ProfileOf(db', b)) {
      if Some(a) == added {
        SharingIsMutual(ProfileOf(db, b), ProfileOf(db, a));
      }
    }
  }

  lemma StepGrowsLeases(db: Db, op: Op, worker: WorkerId) returns (added: Option<JobId>)
    requires Inv(db)
    ensures Grown(db, Apply(db, op), worker, added)
    ensures added.Some? ==> op.Claim? && op.request.worker == worker && GrantsClaim(db, op, added.value)
  {
    hide Apply, RecInv, Grants, HeldBy;
    var db' := Apply(db, op);
    added := if op.Claim? && op.request.worker == worker && op.pick.Some? && GrantsClaim(db, op, op.pick.value)
        then op.pick else None;
    forall j | j in LiveLeases(db', worker)
      ensures j in LiveLeases(db, worker) || Some(j) == added
      ensures j in db.records && db'.records[j].job.spec == db.records[j].job.spec
    {
      if j !in LiveLeases(db, worker) {
        NewLeases(db, op, worker, j);
        PickOfGrant(db, op, j);
      }
      ProfilesStay(db, op, j);
    }
  }

  lemma PickOfGrant(db: Db, op: Op, j: JobId)
    requires GrantsClaim(db, op, j)
    ensures op.Claim? && op.pick == Some(j) && j in db.records
  {
  }

  lemma StepKeepsAdmission(db: Db, op: Op, worker: WorkerId, scope: Scope, limit: nat)
    requires Inv(db) && Admitted(db, worker, scope, limit) && Disciplined(op, worker, scope, limit)
    ensures Admitted(Apply(db, op), worker, scope, limit)
  {
    var added := StepGrowsLeases(db, op, worker);
    if added.Some? {
      GrantIsAdmissible(db, op, added.value, worker, scope, limit);
      PickOfGrant(db, op, added.value);
    }
    hide Inv, Admitted, GrantsClaim, Grown, After, MoveOf, NewRecord, Inserts;
    GrownStaysAdmitted(db, Apply(db, op), worker, scope, limit, added);
  }

  /** In every state of every run, a worker that claims through its registration in one scope holds at most
      min(max_concurrency, 2) live leases, and any two of them share one self-compatible runtime class. */
  lemma {:induction false} AdmissionHolds(db: Db, ops: seq<Op>, worker: WorkerId, scope: Scope, limit: nat)
    requires Inv(db) && Admitted(db, worker, scope, limit)
    requires forall i | 0 <= i < |ops| :: Disciplined(ops[i], worker, scope, limit)
    ensures Admitted(Run(db, ops), worker, scope, limit)
    decreases |ops|
  {
    if ops != [] {
      hide Apply, Inv, Admitted, Disciplined;
      StepKeepsInv(db, ops[0]);
      StepKeepsAdmission(db, ops[0], worker, scope, limit);
      AdmissionHolds(Apply(db, ops[0]), ops[1..], worker, scope, limit);
    }
  }

  /** From empty tables, with any registration limit, never more than two. */
  lemma NeverMoreThanTwo(start: Db, ops: seq<Op>, worker: WorkerId, scope: Scope, limit: nat)
    requires Initial(start) && (worker in start.workers ==> start.workers[worker].maxConcurrency <= limit)
    requires forall i | 0 <= i < |ops| :: Disciplined(ops[i], worker, scope, limit)
    ensures |LiveLeases(Run(start, ops), worker)| <= 2 && |LiveLeases(Run(start, ops), worker)| <= limit
  {
    InitialInv(start);
    assert LiveLeases(start, worker) == {};
    AdmissionHolds(start, ops, worker, scope, limit);
  }
}
