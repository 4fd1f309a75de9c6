/** The functions of app/core/tts_jobs.py as they run, each proved to perform the transaction TtsJobs describes. */
module TtsJobRepository {
  import opened Base
  import opened TtsJobs
  import opened TtsJobsEvidence

  lemma OneRowWritten(db: Db, j: JobId, action: Action)
    ensures j !in db.jobs ==> Apply(db, OnJob(j, action)) == db
    ensures j in db.jobs ==> Apply(db, OnJob(j, action)) == db.(jobs := db.jobs[j := Act(db.now, db.jobs[j], action)])
  {
    hide Act;
    var db' := Apply(db, OnJob(j, action));
    if j in db.jobs {
      assert db'.jobs == db.jobs[j := Act(db.now, db.jobs[j], action)];
    } else {
      assert db'.jobs == db.jobs;
    }
  }

  lemma PickClaimed(db: Db, w: WorkerId, seconds: nat, locked: set<JobId>, pick: JobId)
    ensures Apply(db, ClaimNext(w, seconds, locked, pick)) ==
            if Picked(db, locked, pick) then Apply(db, OnJob(pick, Claim(w, seconds))) else db
  {
    hide Act, Picked;
    var db' := Apply(db, ClaimNext(w, seconds, locked, pick));
    assert Picked(db, locked, pick) ==> db'.jobs == Apply(db, OnJob(pick, Claim(w, seconds))).jobs;
    assert !Picked(db, locked, pick) ==> db'.jobs == db.jobs;
  }

  lemma SubmissionAdds(db: Db, id: JobId, key: Key, hash: string)
    ensures Apply(db, Op.Submit(id, key, hash)) ==
            if id in db.jobs || KeyTaken(db, key) then db else db.(jobs := db.jobs[id := NewJob(db.now, key, hash)])
  {
    hide KeyTaken, NewJob;
    assert (map j | j in db.jobs :: After(db, Op.Submit(id, key, hash), j)) == db.jobs;
  }

  function RequeueRow(job: Job): Job {
    job.(state := Queued, lease := None)
  }

  function OrphanRow(job: Job): Job {
    job.(state := AmbiguousOutcome, lease := None)
  }

  function Hits(now: int, jobs: map<JobId, Job>, condition: (int, Job) -> bool): set<JobId> {
    set j | j in jobs && condition(now, jobs[j])
  }

  function Rewrite(now: int, jobs: map<JobId, Job>, condition: (int, Job) -> bool, row: Job -> Job): map<JobId, Job> {
    map j | j in jobs :: if condition(now, jobs[j]) then row(jobs[j]) else jobs[j]
  }

  /** Some of the rows have been rewritten. */
  function Partly(jobs: map<JobId, Job>, done: set<JobId>, row: Job -> Job): map<JobId, Job> {
    map j | j in jobs :: if j in done then row(jobs[j]) else jobs[j]
  }

  lemma PartlyDone(now: int, jobs: map<JobId, Job>, condition: (int, Job) -> bool, row: Job -> Job)
    ensures Partly(jobs, {}, row) == jobs
    ensures Partly(jobs, Hits(now, jobs, condition), row) == Rewrite(now, jobs, condition, row)
  {
  }

  lemma HitOne(now: int, jobs: map<JobId, Job>, condition: (int, Job) -> bool, done: set<JobId>, row: Job -> Job,
               j: JobId)
    requires j in Hits(now, jobs, condition) && j !in done
    ensures j in Partly(jobs, done, row) && Partly(jobs, done, row)[j] == jobs[j]
    ensures Partly(jobs, done, row)[j := row(jobs[j])] == Partly(jobs, done + {j}, row)
  {
  }

  /** The two updates of the sweep, one after the other, do what Recover does at once; neither hides rows from the
      other. */
  lemma TwoUpdatesAreOneSweep(db: Db)
    ensures var requeued := Rewrite(db.now, db.jobs, Requeues, RequeueRow);
            && db.(jobs := Rewrite(db.now, requeued, Orphaned, OrphanRow)) == Apply(db, Op.RecoverExpired)
            && Hits(db.now, requeued, Orphaned) == Hits(db.now, db.jobs, Orphaned)
  {
    var requeued := Rewrite(db.now, db.jobs, Requeues, RequeueRow);
    assert Rewrite(db.now, requeued, Orphaned, OrphanRow) == Apply(db, Op.RecoverExpired).jobs;
  }

  class Repository {
    var now: int
    var jobs: map<JobId, Job>

    function Snapshot(): Db
      reads this
    {
      Db(now, jobs)
    }

    /** The id under which the request is known; a second submission under its key yields the same job, and a conflict
        if it differs. */
    method Submit(id: JobId, key: Key, hash: string) returns (job: Option<JobId>, created: bool)
      requires id !in jobs
      modifies this`jobs
      ensures Snapshot() == Apply(old(Snapshot()), Op.Submit(id, key, hash))
      ensures created <==> !KeyTaken(old(Snapshot()), key)
      ensures job.Some? ==> job.value in jobs && jobs[job.value].key == key && jobs[job.value].requestHash == hash
      ensures job.None? ==> exists j | j in old(jobs) :: old(jobs)[j].key == key && old(jobs)[j].requestHash != hash
    {
      SubmissionAdds(Snapshot(), id, key, hash);
      hide Apply;
      if j :| j in jobs && jobs[j].key == key {
        return (if jobs[j].requestHash == hash then Some(j) else None), false;
      }
      jobs := jobs[id := NewJob(now, key, hash)];
      return Some(id), true;
    }

    /** claim_exact: leases a queued job that nobody has cancelled. */
    method ClaimExact(j: JobId, worker: WorkerId, seconds: nat) returns (claimed: Option<Job>)
      modifies this`jobs
      ensures Snapshot() == Apply(old(Snapshot()), OnJob(j, Action.Claim(worker, seconds)))
      ensures claimed.Some? <==> j in old(jobs) && old(jobs)[j].state.Queued? && old(jobs)[j].cancelledAt.None?
      ensures claimed.Some? ==> j in jobs && claimed.value == jobs[j]
    {
      OneRowWritten(Snapshot(), j, Action.Claim(worker, seconds));
      hide Apply;
      if j !in jobs || !jobs[j].state.Queued? || jobs[j].cancelledAt.Some? {
        return None;
      }
      var job := jobs[j];
      job := job.(state := Claimed, lease := Some(Lease(worker, now + seconds)));
      job := job.(attempts := job.attempts + 1, token := job.token + 1);
      jobs := jobs[j := job];
      claimed := Some(job);
    }

    /** mark_provider_started: the one step before the provider is called; raises unless the lease is live and nobody
        cancelled. */
    method MarkProviderStarted(j: JobId, worker: WorkerId, token: nat) returns (ok: bool)
      modifies this`jobs
      ensures Snapshot() == Apply(old(Snapshot()), OnJob(j, Action.MarkProviderStarted(worker, token)))
      ensures ok <==>
                && j in old(jobs) && old(jobs)[j].state.Claimed? && Owns(old(jobs)[j], worker, token)
                && now < old(jobs)[j].lease.value.expiresAt && old(jobs)[j].cancelledAt.None?
    {
      OneRowWritten(Snapshot(), j, Action.MarkProviderStarted(worker, token));
      hide Apply;
      if j !in jobs {
        return false;
      }
      var job := jobs[j];
      if !job.state.Claimed? || job.lease.None? || job.lease.value.owner != worker || job.token != token {
        return false;
      }
      if job.lease.value.expiresAt <= now || job.cancelledAt.Some? {
        return false;
      }
      jobs := jobs[j := job.(state := ProviderStarting, startedAt := Some(now))];
      ok := true;
    }

    /** record_chunk: counts the chunk, notes the first one's time and renews the lease for sixty seconds. */
    method RecordChunk(j: JobId, worker: WorkerId, token: nat, size: nat) returns (ok: bool)
      modifies this`jobs
      ensures Snapshot() == Apply(old(Snapshot()), OnJob(j, Action.RecordChunk(worker, token, size)))
      ensures ok <==>
                && j in old(jobs) && Running(old(jobs)[j]) && Owns(old(jobs)[j], worker, token)
                && now < old(jobs)[j].lease.value.expiresAt && old(jobs)[j].cancelledAt.None?
    {
      OneRowWritten(Snapshot(), j, Action.RecordChunk(worker, token, size));
      hide Apply;
      if j !in jobs {
        return false;
      }
      var job := jobs[j];
      if !(job.state.ProviderStarting? || job.state.Streaming?) || job.lease.None? || job.lease.value.owner != worker
          || job.token != token {
        return false;
      }
      if job.lease.value.expiresAt <= now || job.cancelledAt.Some? {
        return false;
      }
      job := job.(state := Streaming, chunks := job.chunks + 1, audioBytes := job.audioBytes + size);
      if job.firstChunkAt.None? {
        job := job.(firstChunkAt := Some(now));
      }
      jobs := jobs[j := job.(lease := Some(Lease(job.lease.value.owner, now + 60)))];
      ok := true;
    }

    /** complete: looks at the holder and the first chunk, not at the lease's expiry. */
    method Complete(j: JobId, worker: WorkerId, token: nat) returns (ok: bool)
      modifies this`jobs
      ensures Snapshot() == Apply(old(Snapshot()), OnJob(j, Action.Complete(worker, token)))
      ensures ok <==>
                && j in old(jobs) && old(jobs)[j].state.Streaming? && Owns(old(jobs)[j], worker, token)
                && old(jobs)[j].firstChunkAt.Some? && old(jobs)[j].cancelledAt.None?
    {
      OneRowWritten(Snapshot(), j, Action.Complete(worker, token));
      hide Apply;
      if j !in jobs {
        return false;
      }
      var job := jobs[j];
      if !job.state.Streaming? || job.lease.None? || job.lease.value.owner != worker || job.token != token {
        return false;
      }
      if job.firstChunkAt.None? || job.cancelledAt.Some? {
        return false;
      }
      jobs := jobs[j := job.(state := Completed, completedAt := Some(now), lease := None)];
      ok := true;
    }

    /** mark_ambiguous: the holder gives up on a call whose outcome it does not know. */
    method MarkAmbiguous(j: JobId, worker: WorkerId, token: nat) returns (ok: bool)
      modifies this`jobs
      ensures Snapshot() == Apply(old(Snapshot()), OnJob(j, Action.MarkAmbiguous(worker, token)))
      ensures ok <==>
                j in old(jobs) && Running(old(jobs)[j]) && Owns(old(jobs)[j], worker, token)
    {
      OneRowWritten(Snapshot(), j, Action.MarkAmbiguous(worker, token));
      hide Apply;
      ok := HeldAtProvider(j, worker, token);
      if ok {
        jobs := jobs[j := jobs[j].(state := AmbiguousOutcome, lease := None)];
      }
    }

    /** mark_cancelled_streaming: the holder's client went away. */
    method MarkCancelledStreaming(j: JobId, worker: WorkerId, token: nat) returns (ok: bool)
      modifies this`jobs
      ensures Snapshot() == Apply(old(Snapshot()), OnJob(j, Action.MarkCancelled(worker, token)))
      ensures ok <==>
                j in old(jobs) && Running(old(jobs)[j]) && Owns(old(jobs)[j], worker, token)
    {
      OneRowWritten(Snapshot(), j, Action.MarkCancelled(worker, token));
      hide Apply;
      ok := HeldAtProvider(j, worker, token);
      if ok {
        var job := jobs[j];
        if job.cancelledAt.None? {
          job := job.(cancelledAt := Some(now));
        }
        jobs := jobs[j := job.(state := Cancelled, lease := None)];
      }
    }

    /** The job is at the provider under this worker and token, whatever its lease says about the time. */
    method HeldAtProvider(j: JobId, worker: WorkerId, token: nat) returns (held: bool)
      ensures held <==> j in jobs && AtProvider(jobs[j].state) && Fenced(jobs[j], worker, token)
    {
      if j !in jobs {
        return false;
      }
      var job := jobs[j];
      if job.lease.None? {
        return false;
      }
      held := (job.state.ProviderStarting? || job.state.Streaming?) && job.lease.value.owner == worker
          && job.token == token;
    }

    /** cancel: the requester's own job, unless it is over. */
    method Cancel(j: JobId, org: nat, workspace: nat, user: string) returns (ok: bool)
      modifies this`jobs
      ensures Snapshot() == Apply(old(Snapshot()), OnJob(j, Action.Cancel(org, workspace, user)))
      ensures ok <==>
                && j in old(jobs) && old(jobs)[j].key.org == org && old(jobs)[j].key.workspace == workspace
                && old(jobs)[j].key.user == user
                && (old(jobs)[j].state.Queued? || old(jobs)[j].state.Claimed? || Running(old(jobs)[j]))
    {
      OneRowWritten(Snapshot(), j, Action.Cancel(org, workspace, user));
      hide Apply;
      if j !in jobs {
        return false;
      }
      var job := jobs[j];
      if job.key.org != org || job.key.workspace != workspace || job.key.user != user {
        return false;
      }
      if job.state.Completed? || job.state.Failed? || job.state.Cancelled? || job.state.AmbiguousOutcome? {
        return false;
      }
      jobs := jobs[j := job.(cancelledAt := Some(now), state := Cancelled, lease := None)];
      ok := true;
    }

    method FirstQueued(locked: set<JobId>) returns (pick: Option<JobId>)
      ensures pick.Some? ==> Picked(Snapshot(), locked, pick.value)
      ensures pick.None? ==> forall k | k in jobs :: !Candidate(Snapshot(), locked, k)
    {
      var db := Snapshot();
      hide Candidate;
      pick := None;
      var todo := jobs.Keys;
      while todo != {}
        invariant todo <= jobs.Keys
        invariant pick.Some? ==> pick.value in jobs && Candidate(db, locked, pick.value)
        invariant pick.Some? ==> forall k | k in jobs && k !in todo && Candidate(db, locked, k) ::
                    Earlier(db, pick.value, k)
        invariant pick.None? ==> forall k | k in jobs && k !in todo :: !Candidate(db, locked, k)
      {
        var j :| j in todo;
        if Candidate(db, locked, j) && (pick.None? || Earlier(db, j, pick.value)) {
          pick := Some(j);
        }
        todo := todo - {j};
      }
    }

    /** Claims the oldest queued job no other transaction holds, or nothing if there is none. */
    method Claim(w: WorkerId, seconds: nat, locked: set<JobId>) returns (pick: Option<JobId>)
      modifies this`jobs
      ensures pick.Some? ==> Picked(old(Snapshot()), locked, pick.value)
                             && Snapshot() == Apply(old(Snapshot()), ClaimNext(w, seconds, locked, pick.value))
      ensures pick.None? ==> Snapshot() == old(Snapshot()) && forall k | k in jobs :: !Candidate(Snapshot(), locked, k)
    {
      pick := FirstQueued(locked);
      hide Apply, Picked, Candidate;
      if pick.Some? {
        PickClaimed(Snapshot(), w, seconds, locked, pick.value);
        var _ := ClaimExact(pick.value, w, seconds);
      }
    }

    method UpdateWhere(condition: (int, Job) -> bool, row: Job -> Job) returns (count: nat)
      modifies this`jobs
      ensures jobs == Rewrite(now, old(jobs), condition, row) && count == |Hits(now, old(jobs), condition)|
    {
      var start := jobs;
      var hits := Hits(now, jobs, condition);
      var todo := hits;
      count := 0;
      PartlyDone(now, start, condition, row);
      assert hits - todo == {};
      hide Hits, Rewrite, Partly;
      while todo != {}
        invariant todo <= hits && count + |todo| == |hits|
        invariant jobs == Partly(start, hits - todo, row)
      {
        var j :| j in todo;
        HitOne(now, start, condition, hits - todo, row, j);
        assert hits - todo + {j} == hits - (todo - {j});
        jobs := jobs[j := row(jobs[j])];
        todo := todo - {j};
        count := count + 1;
      }
      assert hits - todo == hits;
    }

    method RecoverExpired() returns (requeued: nat, ambiguous: nat)
      modifies this`jobs
      ensures Snapshot() == Apply(old(Snapshot()), Op.RecoverExpired)
      ensures requeued == |Hits(now, old(jobs), Requeues)| && ambiguous == |Hits(now, old(jobs), Orphaned)|
    {
      TwoUpdatesAreOneSweep(Snapshot());
      hide Apply, Rewrite, Hits;
      requeued := UpdateWhere(Requeues, RequeueRow);
      ambiguous := UpdateWhere(Orphaned, OrphanRow);
    }
  }
}
