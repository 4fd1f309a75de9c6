/**
 The outbound polling worker (worker/qwen_polling_worker.py): its slots, its lease keeper and
 the reports one claimed job can send. Answers from the network are parameters.
 */
module WorkerRuntime {
  import opened Base
  import opened ModelProfiles
  import opened AiJobs
  import opened AiJobsInvariant
  import opened AiJobsTheorems
  import opened AiJobsHolders

  const HARD_SAFETY_CAP: nat := 2

  type SlotId = nat

  /** The worker configuration document: registration limit, profile classes and class compatibility. */
  datatype Config = Config(limit: nat, classes: map<Profile, RuntimeClass>,
                           compatible: map<RuntimeClass, set<RuntimeClass>>)

  datatype ClaimAnswer = ClaimFailed | NoJob | Job(profile: Option<Profile>)

  datatype PollOutcome = Stopping | Capacity | Empty | ProfileMismatch | LeaseLost | Started | PollFailed

  /** Profiles the configuration allows beside one running profile. */
  function AllowedBeside(config: Config, active: Option<Profile>): set<Profile> {
    if active.None? || active.value !in config.classes then {} else
      var c := config.classes[active.value];
      if c !in config.compatible then {} else
        set p | p in config.classes && config.classes[p] in config.compatible[c]
  }

  /** The configuration is the server's own policy table. */
  ghost predicate ServerPolicy(config: Config) {
    && (forall p :: p in config.classes <==> p in MODEL_PROFILES)
    && (forall p | p in config.classes :: ClassOf(p) == Some(config.classes[p]))
    && (forall c | c in config.compatible :: config.compatible[c] == CompatibleClasses(c))
  }

  /** Under the server's policy the worker's filter admits only profiles the server would admit. */
  lemma FilterAgreesWithServer(config: Config, active: Option<Profile>, p: Profile)
    requires ServerPolicy(config) && p in AllowedBeside(config, active)
    ensures MayShare(active, Some(p)) && p in CompatibleProfiles({active})
  {
    AdmittedExactly({active}, p);
  }

  /** And, when every class has its row in the table, all of them: beside a running profile the worker asks for exactly
      what the server would let it have. */
  lemma FilterIsExact(config: Config, active: Option<Profile>, p: Profile)
    requires ServerPolicy(config) && (forall c :: c in config.compatible)
    ensures p in AllowedBeside(config, active) <==> active.Some? && p in CompatibleProfiles({active})
  {
    AdmittedExactly({active}, p);
    if active.Some? {
      SharersExactly(active, Some(p));
    }
  }

  /** Any two slots run profiles that may run side by side. */
  ghost predicate AllShare(profiles: map<SlotId, Option<Profile>>) {
    forall f, g | f in profiles && g in profiles && f != g :: MayShare(profiles[f], profiles[g])
  }

  function Restrict(profiles: map<SlotId, Option<Profile>>, slots: set<SlotId>): map<SlotId, Option<Profile>> {
    map f | f in profiles && f in slots :: profiles[f]
  }

  lemma WholeMap(all: map<SlotId, Option<Profile>>)
    ensures Restrict(all, all.Keys) == all
  {
  }

  lemma RestrictDrops(all: map<SlotId, Option<Profile>>, slots: set<SlotId>, f: SlotId)
    ensures Restrict(all, slots) - {f} == Restrict(all, slots - {f})
  {
  }

  lemma RestrictStaysShared(all: map<SlotId, Option<Profile>>, slots: set<SlotId>)
    ensures AllShare(all) ==> AllShare(Restrict(all, slots))
    ensures slots <= all.Keys ==> Restrict(all, slots).Keys == slots && |slots| <= |all.Keys|
    ensures forall f | f in slots && f in all :: Restrict(all, slots)[f] == all[f]
  {
    if slots <= all.Keys {
      SubsetSize(slots, all.Keys);
    }
  }

  /** With at most one slot taken, its profile tolerating the new one is enough. */
  lemma SecondSlotShares(profiles: map<SlotId, Option<Profile>>, first: SlotId, slot: SlotId, p: Option<Profile>)
    requires profiles.Keys == {first} && slot != first && MayShare(profiles[first], p)
    ensures AllShare(profiles[slot := p])
  {
    hide MayShare;
    assert MayShare(p, profiles[first]) by { SharingIsMutual(profiles[first], p); }
  }

  /** How far a reaping pass has come: without an error it has freed exactly the ended slots it has looked at. */
  ghost predicate Reaping(all: set<SlotId>, running: set<SlotId>, crashed: set<SlotId>, todo: set<SlotId>,
                          reaped: set<SlotId>, ok: bool) {
    && (forall f | f in reaped :: f in all && f !in running)
    && (if ok then
          && (forall f | f in all && f !in todo :: f in reaped || f in running)
          && (forall f | f in reaped :: f !in crashed && f !in todo)
        else exists f | f in reaped :: f in crashed)
  }

  lemma NothingReaped(all: set<SlotId>, running: set<SlotId>, crashed: set<SlotId>)
    ensures Reaping(all, running, crashed, all, {}, true)
  {
  }

  lemma ReapOne(all: set<SlotId>, running: set<SlotId>, crashed: set<SlotId>, todo: set<SlotId>, reaped: set<SlotId>,
                f: SlotId)
    requires Reaping(all, running, crashed, todo, reaped, true) && f in todo && f in all
    ensures f in running ==> Reaping(all, running, crashed, todo - {f}, reaped, true)
    ensures f !in running ==> Reaping(all, running, crashed, todo - {f}, reaped + {f}, f !in crashed)
    ensures (all - reaped) - {f} == all - (reaped + {f})
  {
    if f !in running {
      assert f in reaped + {f};
    }
  }

  lemma ReapEnds(all: set<SlotId>, running: set<SlotId>, crashed: set<SlotId>, todo: set<SlotId>, reaped: set<SlotId>,
                 ok: bool)
    requires Reaping(all, running, crashed, todo, reaped, ok) && running <= all && (ok ==> todo == {})
    ensures reaped !! running && running <= all - reaped
    ensures if ok then all - reaped == running && reaped !! crashed
            else exists f | f in all && f !in running :: f in crashed
  {
  }

  /** The claim is kept: not stopping, a slot is free, a job was handed out, and every running profile tolerates it. */
  predicate Fillable(limit: nat, stopping: bool, running: set<SlotId>, profiles: map<SlotId, Option<Profile>>,
                     config: Option<Config>, answer: ClaimAnswer)
    requires running <= profiles.Keys
  {
    && !stopping && answer.Job? && config.Some? && |running| < Min(limit, config.value.limit)
    && forall f | f in running :: answer.profile.Some?
         && answer.profile.value in AllowedBeside(config.value, profiles[f])
  }

  class BoundedWorkerRuntime {
    const localLimit: nat
    var active: set<SlotId>
    var running: set<SlotId>
    var crashed: set<SlotId>
    var profiles: map<SlotId, Option<Profile>>
    var shutdownRequested: bool
    var activeJobs: int
    var completedJobs: nat
    var claimsTotal: nat

    /** At most two slots, each with its profile; the gauges count the slots still working and every claim ever
        started. */
    ghost predicate Valid()
      reads this
    {
      && localLimit <= HARD_SAFETY_CAP && |active| <= HARD_SAFETY_CAP
      && running <= active && profiles.Keys == active
      && activeJobs == |running| && claimsTotal == completedJobs + activeJobs
    }

    ghost predicate Sharing()
      reads this
    {
      AllShare(profiles)
    }

    constructor (limit: nat)
      ensures Valid() && Sharing() && active == {} && localLimit == Min(limit, HARD_SAFETY_CAP)
    {
      localLimit := if limit <= HARD_SAFETY_CAP then limit else HARD_SAFETY_CAP;
      active, running, crashed, profiles := {}, {}, {}, map[];
      shutdownRequested, activeJobs, completedJobs, claimsTotal := false, 0, 0, 0;
    }

    /** A slot's job ends, normally or with an error; the slot stays occupied until it is reaped. */
    method FinishSlot(f: SlotId, raises: bool)
      requires Valid() && f in running
      modifies this`running, this`crashed, this`activeJobs, this`completedJobs
      ensures Valid() && (old(Sharing()) ==> Sharing())
      ensures running == old(running) - {f} && activeJobs == old(activeJobs) - 1
    {
      running := running - {f};
      crashed := if raises then crashed + {f} else crashed - {f};
      activeJobs := activeJobs - 1;
      completedJobs := completedJobs + 1;
    }

    /** Frees every slot whose job has ended, unless one of them ended with an error: then it frees that one and
        stops. */
    method Reap() returns (ok: bool, reaped: set<SlotId>)
      requires Valid()
      modifies this`active, this`profiles
      ensures Valid() && (old(Sharing()) ==> Sharing())
      ensures reaped !! running && active == old(active) - reaped
      ensures profiles == Restrict(old(profiles), active)
      ensures forall f | f in active :: f in old(profiles) && profiles[f] == old(profiles)[f]
      ensures if ok then active == running && reaped !! crashed
              else exists f | f in old(active) && f !in running :: f in crashed
    {
      hide AllShare, MayShare, Restrict, Reaping;
      ghost var all, was := active, profiles;
      WholeMap(was);
      var todo := active;
      ok, reaped := true, {};
      assert Reaping(all, running, crashed, todo, reaped, ok) by { NothingReaped(all, running, crashed); }
      while todo != {} && ok
        invariant todo <= all && active == all - reaped
        invariant Reaping(all, running, crashed, todo, reaped, ok)
        invariant profiles == Restrict(was, active)
        decreases |todo|
      {
        var f :| f in todo;
        ReapOne(all, running, crashed, todo, reaped, f);
        if f !in running {
          RestrictDrops(was, active, f);
          active := active - {f};
          profiles := profiles - {f};
          reaped := reaped + {f};
          ok := f !in crashed;
        }
        todo := todo - {f};
      }
      ReapEnds(all, running, crashed, todo, reaped, ok);
      RestrictStaysShared(was, active);
    }

    /** The profiles to ask for while a slot is free: no restriction when idle; nothing at all when no profile is
        tolerated. */
    method Admission(config: Config) returns (admits: bool, filter: Option<set<Profile>>)
      requires Valid() && |active| < HARD_SAFETY_CAP
      ensures active == {} ==> admits && filter == None
      ensures active != {} ==> filter.Some? && (admits <==> filter.value != {})
      ensures forall f | f in active :: filter == Some(AllowedBeside(config, profiles[f]))
      ensures filter.Some? && ServerPolicy(config) ==> forall p, slot: SlotId | p in filter.value && slot !in active ::
                AllShare(profiles[slot := Some(p)])
    {
      hide AllowedBeside, MayShare, ServerPolicy, AllShare;
      if active == {} {
        return true, None;
      }
      var first :| first in active;
      OnlySlot(active, first);
      var allowed := AllowedBeside(config, profiles[first]);
      if ServerPolicy(config) {
        forall p, slot: SlotId | p in allowed && slot !in active ensures AllShare(profiles[slot := Some(p)]) {
          FilterAgreesWithServer(config, profiles[first], p);
          SecondSlotShares(profiles, first, slot, Some(p));
        }
      }
      return allowed != {}, Some(allowed);
    }

    method StartSlot(slot: SlotId, profile: Option<Profile>)
      requires Valid() && slot !in active && |active| < HARD_SAFETY_CAP
      modifies this`active, this`running, this`profiles, this`claimsTotal, this`activeJobs
      ensures Valid() && profiles == old(profiles)[slot := profile]
      ensures running == old(running) + {slot} && active == old(active) + {slot} && claimsTotal == old(claimsTotal) + 1
    {
      claimsTotal := claimsTotal + 1;
      activeJobs := activeJobs + 1;
      running := running + {slot};
      active := active + {slot};
      profiles := profiles[slot := profile];
    }

    /** Everything a poll decides once finished slots are reaped: whether a slot may be filled, what to ask for, and
        what to do with the answer. */
    method Screen(config: Option<Config>, answer: ClaimAnswer, stopsMeanwhile: bool, release: Answer)
      returns (outcome: PollOutcome, filter: Option<set<Profile>>)
      requires Valid()
      ensures outcome.Started? <==>
              Fillable(localLimit, shutdownRequested || stopsMeanwhile, active, profiles, config, answer)
      ensures outcome.Started? && ServerPolicy(config.value) ==> forall slot: SlotId | slot !in active ::
                AllShare(profiles[slot := answer.profile])
    {
      hide AllShare, ServerPolicy;
      if shutdownRequested {
        return Stopping, None;
      }
      if config.None? {
        return PollFailed, None;
      }
      var limit := if localLimit <= config.value.limit then localLimit else config.value.limit;
      if |active| >= limit {
        return Capacity, None;
      }
      var admits;
      admits, filter := Admission(config.value);
      if !admits {
        return Capacity, None;
      }
      if answer.ClaimFailed? {
        return PollFailed, filter;
      }
      if answer.NoJob? {
        return Empty, filter;
      }
      if filter.Some? && (answer.profile.None? || answer.profile.value !in filter.value) {
        return (if release.Lost? then PollFailed else if release.Ok? then ProfileMismatch else LeaseLost), filter;
      }
      if stopsMeanwhile {
        return (if release.Lost? then PollFailed else if release.Ok? then Stopping else LeaseLost), filter;
      }
      LoneSlotsShare(profiles, answer.profile);
      outcome := Started;
    }

    /** One poll: reap, check capacity, ask for a job the running one tolerates, start it in a new slot. */
    method Poll(config: Option<Config>, answer: ClaimAnswer, stopsMeanwhile: bool, release: Answer, slot: SlotId)
      returns (outcome: PollOutcome, filter: Option<set<Profile>>)
      requires Valid() && slot !in active
      modifies this
      ensures Valid()
      ensures old(Sharing()) && (config.Some? ==> ServerPolicy(config.value)) ==> Sharing()
      ensures if outcome.Started? then running == old(running) + {slot} && claimsTotal == old(claimsTotal) + 1
              else running == old(running) && claimsTotal == old(claimsTotal)
      ensures active == running || (outcome.PollFailed? && running <= active <= old(active))
      ensures outcome.Started? ==>
                && var stopping := old(shutdownRequested) || stopsMeanwhile;
                && Fillable(localLimit, stopping, old(running), old(profiles), config, answer)
                && profiles[slot] == answer.profile
      ensures var stopping := old(shutdownRequested) || stopsMeanwhile;
              Fillable(localLimit, stopping, old(running), old(profiles), config, answer) ==>
                outcome.Started? || exists f | f in old(active) && f !in old(running) :: f in old(crashed)
    {
      hide AllShare, ServerPolicy, Restrict, AllowedBeside;
      var ok, _ := Reap();
      if !ok {
        return PollFailed, None;
      }
      outcome, filter := Screen(config, answer, stopsMeanwhile, release);
      shutdownRequested := shutdownRequested || stopsMeanwhile;
      if outcome.Started? {
        StartSlot(slot, answer.profile);
      }
    }
  }

  lemma LoneSlotsShare(profiles: map<SlotId, Option<Profile>>, p: Option<Profile>)
    ensures profiles == map[] ==> forall slot: SlotId | slot !in profiles :: AllShare(profiles[slot := p])
  {
  }

  lemma OnlySlot(active: set<SlotId>, f: SlotId)
    requires f in active && |active| < HARD_SAFETY_CAP
    ensures active == {f}
  {
    assert |active - {f}| == |active| - 1;
  }

  // ---------------------------------------------------------------- the lease keeper

  /** One heartbeat interval: was the heartbeat accepted, and what did the cancellation check say (None: not answered
      with 200). */
  datatype Round = Round(beat: bool, cancel: Option<bool>)

  predicate Quiet(r: Round) {
    r.beat && r.cancel == Some(false)
  }

  predicate Fails(r: Round) {
    !r.beat || r.cancel.None?
  }

  /** The keeper stops at the first interval that is not quiet: it declares the lease lost unless that interval was a
      verified cancellation request. */
  method MaintainLease(rounds: seq<Round>) returns (lost: bool, cancelled: bool, requests: nat)
    ensures lost <==> exists k | 0 <= k < |rounds| :: Fails(rounds[k]) && forall i | 0 <= i < k :: Quiet(rounds[i])
    ensures cancelled <==> exists k | 0 <= k < |rounds| ::
              rounds[k] == Round(true, Some(true)) && forall i | 0 <= i < k :: Quiet(rounds[i])
    ensures !(lost && cancelled)
    ensures !lost && !cancelled ==> requests == 2 * |rounds|
  {
    lost, cancelled, requests := false, false, 0;
    var n := 0;
    while n < |rounds|
      invariant 0 <= n <= |rounds| && requests == 2 * n
      invariant forall i | 0 <= i < n :: Quiet(rounds[i])
    {
      requests := requests + 1;
      if !rounds[n].beat {
        assert Fails(rounds[n]);
        return true, false, requests;
      }
      requests := requests + 1;
      if rounds[n].cancel.None? {
        assert Fails(rounds[n]);
        return true, false, requests;
      }
      if rounds[n].cancel.value {
        assert rounds[n] == Round(true, Some(true));
        return false, true, requests;
      }
      n := n + 1;
    }
  }

  // ---------------------------------------------------------------- the reports of one job

  datatype Request = Release | Cancel | Report | Fail

  /** The reply as the worker sees it: lost, a stale-lease refusal, another refusal, or accepted. */
  datatype Answer = Lost | Conflict | Denied | Ok

  datatype JobOutcome = LeaseWasLost | ShutDown | CancelDone | JobCompleted | FailedRetryable | Raised

  /** What the worker has to tell the server: a shutdown comes before a cancellation, which comes before the result. */
  function FirstRequest(shutdown: bool, cancelRequested: bool, succeeded: bool): Request {
    if shutdown then Release else if cancelRequested then Cancel else if succeeded then Report else Fail
  }

  /** After inference ends or is stopped: which requests are sent, and what the slot reports. */
  method RunClaimedJob(lost: bool, shutdown: bool, cancelRequested: bool, succeeded: bool, answer: Answer,
                       failAnswered: bool)
    returns (outcome: JobOutcome, requests: seq<Request>)
    ensures lost ==> requests == [] && outcome == LeaseWasLost
    ensures !lost ==> 1 <= |requests| <= 2 && requests[0] == FirstRequest(shutdown, cancelRequested, succeeded)
    ensures Release in requests <==> !lost && shutdown
    ensures Cancel in requests <==> !lost && !shutdown && cancelRequested
    ensures Report in requests <==> !lost && !shutdown && !cancelRequested && succeeded
    ensures |requests| == 2 ==> requests[1] == Fail
    ensures |requests| == 2 <==>
            !lost && requests[0] != Fail && (answer.Lost? || (requests[0] == Report && answer.Denied?))
    ensures outcome.JobCompleted? <==> requests == [Report] && answer.Ok?
    ensures outcome.ShutDown? <==> requests == [Release] && answer.Ok?
    ensures outcome.CancelDone? <==> requests == [Cancel] && answer.Ok?
    ensures outcome.FailedRetryable? <==> Fail in requests && failAnswered
    ensures outcome.Raised? <==> Fail in requests && !failAnswered
  {
    requests := [];
    if lost {
      return LeaseWasLost, requests;
    }
    if shutdown {
      requests := [Release];
      if !answer.Lost? {
        return (if answer.Ok? then ShutDown else LeaseWasLost), requests;
      }
    } else if cancelRequested {
      requests := [Cancel];
      if !answer.Lost? {
        return (if answer.Ok? then CancelDone else LeaseWasLost), requests;
      }
    } else if succeeded {
      requests := [Report];
      if answer.Ok? {
        return JobCompleted, requests;
      }
      if answer.Conflict? {
        return LeaseWasLost, requests;
      }
    }
    requests := requests + [Fail];
    outcome := if failAnswered then FailedRetryable else Raised;
  }

  /** The transaction a request asks for. */
  function ActionOf(request: Request, caller: Caller, output: Output, approvalId: ApprovalId): Action {
    match request
    case Release => Action.Finish(caller, true, true)
    case Cancel => Action.WorkerCancel(caller)
    case Report => Action.Complete(caller, Some(output), approvalId)
    case Fail => Action.Finish(caller, true, true)
  }

  /** If the worker sends two requests and the first took effect, its reply lost, the second changes nothing: the job
      keeps the state and the output of the first, for every interleaving with sweeps, users and other workers. */
  lemma LostReplyIsHarmless(db: Db, j: JobId, caller: Caller, output: Output, approvalId: ApprovalId,
                            first: Request, between: seq<Op>, second: Request)
    requires Inv(db) && j in db.records
    requires TakesEffect(db.now, db.records[j], ActionOf(first, caller, output, approvalId))
    ensures var later := Run(Apply(db, OnJob(j, ActionOf(first, caller, output, approvalId))), between);
            Apply(later, OnJob(j, ActionOf(second, caller, output, approvalId))) == later
  {
    hide Apply, Inv, TakesEffect, Act;
    AtMostOneReportTakesEffect(db, j, ActionOf(first, caller, output, approvalId), between,
        ActionOf(second, caller, output, approvalId),
                               caller.worker, caller.token);
  }

  /** What the worker's requests ask for, in the server's terms: a release or a failure hands the job back for another
      attempt, the result is delivered as it is, and a cancellation is acknowledged - each on the caller's own lease. */
  lemma RequestsReachTheServer(now: int, rec: AiJobs.Record, caller: Caller, output: Output, approvalId: ApprovalId,
                               request: Request)
    requires RecInv(now, rec) && IsHolder(now, rec.job, caller) && rec.job.state.Leased?
    requires request.Cancel? ==> rec.job.cancelRequestedAt.Some?
    ensures var rec' := AiJobs.Act(now, rec, ActionOf(request, caller, output, approvalId)).0;
            && rec'.job.lease.None?
            && (if rec.job.cancelRequestedAt.Some? then rec'.job.state == Cancelled
                else if request.Report? then rec'.job.state == (if rec.job.spec.needsApproval then ApprovalRequired
                                                                else Completed)
                else rec'.job.state == if rec.job.attemptCount < rec.job.maxAttempts then RetryWait else DeadLetter)
            && (request.Report? ==> rec'.result == Some(output.hash) && rec'.charge == Some(output.tokens))
  {
    LeaseTest(now, rec.job, caller);
    hide LeaseOk, IsHolder, InScope, Backoff, AttemptsInv, ChunksInv;
  }
}
