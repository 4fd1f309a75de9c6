/** Isolation between tenants of the AI job queue, and the order in which a tenant's jobs are handed out. */
module AiJobsTenants {
  import opened Base
  import opened ModelProfiles
  import opened AiJobs
  import opened AiJobsInvariant
  import opened AiJobsTheorems
  import opened AiJobsHolders

  // ---------------------------------------------------------------- isolation

  /** The scope a transaction is restricted to; the clock, registrations, submissions and hand-inserted approvals have
      none. */
  function ScopeOf(op: Op): Option<Scope> {
    match op
    case Claim(r, _, _) => Some(r.scope)
    case RecoverExpired(scope) => Some(scope)
    case ExpireDeadlines(scope) => Some(scope)
    case OnJob(_, action) =>
      if ByWorker(action) then Some(action.caller.scope) else if action.GrantApproval? then None else Some(action.scope)
    case _ => None
  }

  /** The transaction is confined to an organization or a workspace that is not the job's. */
  predicate Elsewhere(op: Op, spec: Spec) {
    ScopeOf(op).Some? && !Covers(ScopeOf(op).value, spec)
  }

  lemma ActionElsewhere(now: int, rec: Record, action: Action)
    requires !action.GrantApproval?
    requires !Covers(if ByWorker(action) then action.caller.scope else action.scope, rec.job.spec)
    ensures Act(now, rec, action).0 == rec && Act(now, rec, action).1.Refused?
  {
    var scope := if ByWorker(action) then action.caller.scope else action.scope;
    ScopeTest(rec.job, scope);
    hide InScope, HeldBy, OnceHeld;
  }

  /** No transaction reaches into another tenant's rows. */
  lemma OthersAreUntouched(db: Db, op: Op, j: JobId)
    requires j in db.records && Elsewhere(op, db.records[j].job.spec)
    ensures j in Apply(db, op).records && Apply(db, op).records[j] == db.records[j]
  {
    StepMoves(db, op, j);
    ScopeTest(db.records[j].job, ScopeOf(op).value);
    if op.OnJob? && op.id == j {
      ActionElsewhere(db.now, db.records[j], op.action);
    }
    hide Apply, Act, InScope, Covers, ClaimGate, ClaimProfiles;
  }

  /** The transaction is none of the job's own tenant's. */
  predicate Foreign(op: Op, spec: Spec) {
    Elsewhere(op, spec) || op.Tick? || op.RegisterWorker? || op.Submit?
  }

  lemma ForeignStep(db: Db, op: Op, j: JobId)
    requires j in db.records && Foreign(op, db.records[j].job.spec)
    ensures j in Apply(db, op).records && Apply(db, op).records[j] == db.records[j]
  {
    if Elsewhere(op, db.records[j].job.spec) {
      OthersAreUntouched(db, op, j);
    } else {
      StepMoves(db, op, j);
      hide Apply;
    }
  }

  /** Over every run: as long as only other tenants act, a job's row and everything that belongs to it stay as they
      are. */
  lemma {:induction false} TenantsAreIsolated(db: Db, ops: seq<Op>, j: JobId)
    requires j in db.records && forall i | 0 <= i < |ops| :: Foreign(ops[i], db.records[j].job.spec)
    ensures j in Run(db, ops).records && Run(db, ops).records[j] == db.records[j]
    decreases |ops|
  {
    if ops != [] {
      ForeignStep(db, ops[0], j);
      hide Apply, Foreign;
      TenantsAreIsolated(Apply(db, ops[0]), ops[1..], j);
    }
  }

  /** A submission inserts its job exactly when no job of the same organization and workspace has its key: nobody else's
      keys get in the way. */
  lemma InsertedExactly(db: Db, op: Op, j: JobId)
    requires j !in db.records
    ensures j in Apply(db, op).records <==>
            && op.Submit? && op.id == j && 1 <= op.command.maxAttempts <= 10
            && forall k | k in db.records ::
                 !(&& db.records[k].job.spec.org == op.command.org
                   && db.records[k].job.spec.workspace == op.command.workspace
                   && db.records[k].job.spec.key == op.command.key)
  {
    hide After, MoveOf, NewRecord;
  }

  // ---------------------------------------------------------------- who gets which job

  /** The registration n of a run, if it is one of this worker's. */
  predicate Registers(ops: seq<Op>, n: nat, worker: WorkerId)
    requires n < |ops|
  {
    ops[n].RegisterWorker? && ops[n].worker == worker
  }

  /** What counts about a worker is its latest registration. */
  lemma {:induction false} LatestRegistrationCounts(db: Db, ops: seq<Op>, worker: WorkerId, n: nat)
    requires n < |ops| && Registers(ops, n, worker)
    requires forall k | n < k < |ops| :: !Registers(ops, k, worker)
    ensures worker in Run(db, ops).workers && Run(db, ops).workers[worker] == ops[n].registration
    decreases |ops|
  {
    var m := |ops| - 1;
    LastStep(db, ops);
    hide Run, After, MoveOf, NewRecord, Inserts;
    if n < m {
      assert !Registers(ops, m, worker);
      assert forall k | n < k < m :: Registers(ops[..m], k, worker) <==> Registers(ops, k, worker);
      LatestRegistrationCounts(db, ops[..m], worker, n);
    }
  }

  /** The jobs in scope this worker holds live leases on. */
  function HeldIn(db: Db, worker: WorkerId, scope: Scope): set<JobId> {
    set j | j in db.records && Covers(scope, db.records[j].job.spec)
            && (db.records[j].job.state.Leased? || db.records[j].job.state.CancelRequested?)
            && db.records[j].job.lease.Some? && db.records[j].job.lease.value.owner == worker
            && db.now < db.records[j].job.lease.value.expiresAt
  }

  /** The request is well formed and, if it names a service, comes from an enabled worker of that service which holds
      fewer leases than its own limit and than two. */
  predicate MayAsk(db: Db, r: ClaimRequest) {
    && (r.profiles.Some? ==> |r.profiles.value| > 0 && forall p | p in r.profiles.value :: p in MODEL_PROFILES)
    && (r.service.Some? ==>
          && r.worker in db.workers && db.workers[r.worker].enabled && db.workers[r.worker].service == r.service.value
          && |HeldIn(db, r.worker, r.scope)| < 2
          && |HeldIn(db, r.worker, r.scope)| < db.workers[r.worker].maxConcurrency)
  }

  /** The job is due, not cancelled, not overdue and in scope, and its profile is governed, asked for, and may share the
      worker with every lease it holds. */
  predicate Suits(db: Db, r: ClaimRequest, j: JobId) {
    && j in db.records
    && var job := db.records[j].job;
    && (job.state.Queued? || job.state.RetryWait?) && job.nextAttemptAt <= db.now && job.cancelRequestedAt.None?
    && (job.spec.deadlineAt.Some? ==> db.now < job.spec.deadlineAt.value)
    && Covers(r.scope, job.spec)
    && (job.spec.profile.Some? ==> job.spec.profile.value in MODEL_PROFILES)
    && (r.profiles.Some? ==> job.spec.profile.Some? && job.spec.profile.value in r.profiles.value)
    && (r.service.Some? ==>
          && job.spec.profile.Some?
          && forall k | k in HeldIn(db, r.worker, r.scope) ::
               MayShare(db.records[k].job.spec.profile, job.spec.profile))
  }

  /** a comes before b in the order of the queue: smaller priority number first, then older first. */
  predicate Sooner(a: Spec, b: Spec) {
    a.priority < b.priority || (a.priority == b.priority && a.createdAt < b.createdAt)
  }

  lemma HeldIsActive(db: Db, worker: WorkerId, scope: Scope)
    ensures ActiveJobs(db, worker, scope) == HeldIn(db, worker, scope)
  {
  }

  lemma GateExactly(db: Db, r: ClaimRequest)
    ensures ClaimGate(db, r).None? <==> MayAsk(db, r)
  {
    HeldIsActive(db, r.worker, r.scope);
    hide HeldIn, ActiveJobs;
    if r.profiles.Some? {
      var ps := r.profiles.value;
      assert FilterIllFormed(r.profiles) <==> |ps| == 0 || exists p | p in ps :: p !in MODEL_PROFILES by {
        if p :| p in ps && p !in MODEL_PROFILES {
          var i :| 0 <= i < |ps| && ps[i] == p;
        }
      }
    }
  }

  lemma CandidateExactly(db: Db, r: ClaimRequest, j: JobId)
    requires MayAsk(db, r)
    ensures Candidate(db, r, j) <==> Suits(db, r, j)
  {
    if j in db.records {
      HeldIsActive(db, r.worker, r.scope);
      ScopeTest(db.records[j].job, r.scope);
      var profile := db.records[j].job.spec.profile;
      var held := HeldIn(db, r.worker, r.scope);
      var active := if r.service.Some? then ProfilesOf(db, ActiveJobs(db, r.worker, r.scope)) else {};
      if profile.Some? {
        FilterNeverWidens(active, r.profiles, profile.value);
        assert r.service.Some? ==>
                 ((forall a | a in active :: MayShare(a, profile)) <==>
                  forall k | k in held :: MayShare(db.records[k].job.spec.profile, profile)) by {
          hide HeldIn, MayShare;
          assert forall k | k in held && r.service.Some? :: db.records[k].job.spec.profile in active;
        }
      }
      hide HeldIn, MayShare, EffectiveProfiles, ActiveJobs, InScope, Covers, ProfilesOf;
    }
  }

  lemma ProfilesRemain(db: Db, r: ClaimRequest, j: JobId)
    requires MayAsk(db, r) && Candidate(db, r, j)
    ensures ClaimProfiles(db, r) != {}
  {
    if r.service.None? && r.profiles.None? {
      FilterNeverWidens({}, None, FastChat);
      assert FastChat in ClaimProfiles(db, r);
    }
  }

  /** A claim is granted job j if and only if the worker may ask, the job suits and nobody else has it locked, and no
      other unlocked job that suits comes sooner. */
  lemma GrantedExactly(db: Db, r: ClaimRequest, locked: set<JobId>, j: JobId)
    ensures Grants(db, r, locked, j) <==>
            && MayAsk(db, r) && Suits(db, r, j) && j !in locked
            && forall k | k in db.records && Suits(db, r, k) && k !in locked ::
                 !Sooner(db.records[k].job.spec, db.records[j].job.spec)
  {
    GateExactly(db, r);
    if MayAsk(db, r) {
      forall k ensures Candidate(db, r, k) <==> Suits(db, r, k) {
        CandidateExactly(db, r, k);
      }
      if Candidate(db, r, j) {
        ProfilesRemain(db, r, j);
      }
    }
    hide MayAsk, Suits, ClaimGate, ClaimProfiles, Candidate;
  }

  /** Among finitely many jobs one comes first. */
  lemma {:induction false} FirstOf(db: Db, jobs: set<JobId>) returns (j: JobId)
    requires jobs != {} && jobs <= db.records.Keys
    ensures j in jobs && forall k | k in jobs :: !Sooner(db.records[k].job.spec, db.records[j].job.spec)
    decreases |jobs|
  {
    var first :| first in jobs;
    var rest := jobs - {first};
    j := first;
    assert forall k | k in jobs :: k == first || k in rest;
    if rest != {} {
      var other := FirstOf(db, rest);
      if Sooner(db.records[other].job.spec, db.records[first].job.spec) {
        j := other;
      }
    }
  }

  /** The queue is work-conserving: a worker that may ask goes away empty-handed only if every job that suits it is
      locked by somebody else. */
  lemma WorkIsHandedOut(db: Db, r: ClaimRequest, locked: set<JobId>, some: JobId) returns (j: JobId)
    requires MayAsk(db, r) && Suits(db, r, some) && some !in locked
    ensures Grants(db, r, locked, j)
  {
    var suitable := set k | k in db.records && Suits(db, r, k) && k !in locked;
    hide MayAsk;
    assert some in suitable;
    j := FirstOf(db, suitable);
    GrantedExactly(db, r, locked, j);
  }
}
