/** The scheduler functions as they run: row selection, the loops over the rows, and the reconciler. */
module CallbackSchedulerService {
  import opened Base
  import opened CallbackScheduler

  predicate Selectable(db: Db, id: CallbackId, locked: set<CallbackId>, scope: Scope, kind: Kind, now: int,
                       grace: int) {
    id in db.callbacks && id !in locked && Eligible(db.callbacks[id], scope, kind, now, grace)
  }

  predicate Distinct(rows: seq<CallbackId>) {
    forall i, k | 0 <= i < k < |rows| :: rows[i] != rows[k]
  }

  lemma {:induction false} Soonest(callbacks: map<CallbackId, Callback>, ids: set<CallbackId>) returns (id: CallbackId)
    requires ids != {} && ids <= callbacks.Keys
    ensures id in ids && forall o | o in ids :: callbacks[id].scheduledAt <= callbacks[o].scheduledAt
    decreases |ids|
  {
    id :| id in ids;
    if ids != {id} {
      var other := Soonest(callbacks, ids - {id});
      if callbacks[other].scheduledAt < callbacks[id].scheduledAt {
        id := other;
      }
      assert forall o | o in ids ::
          o == id || o in ids - {id} || callbacks[other].scheduledAt <= callbacks[o].scheduledAt;
    }
  }

  /** The rows claim_due takes: the earliest selectable ones, at most limit of them, and no later one before an
      earlier. */
  ghost predicate IsDueBatch(db: Db, rows: seq<CallbackId>, locked: set<CallbackId>, scope: Scope, now: int,
                             limit: nat) {
    && |rows| <= limit && Distinct(rows)
    && (forall i | 0 <= i < |rows| ::
         rows[i] in db.callbacks && Selectable(db, rows[i], locked, scope, BecomeDue, now, 0))
    && (forall i, k | 0 <= i < k < |rows| :: db.callbacks[rows[i]].scheduledAt <= db.callbacks[rows[k]].scheduledAt)
    && (forall id | id in db.callbacks && Selectable(db, id, locked, scope, BecomeDue, now, 0) && id !in rows ::
          |rows| == limit && forall i | 0 <= i < |rows| ::
              db.callbacks[rows[i]].scheduledAt <= db.callbacks[id].scheduledAt)
  }

  method DueRows(db: Db, locked: set<CallbackId>, scope: Scope, now: int, limit: nat) returns (rows: seq<CallbackId>)
    ensures IsDueBatch(db, rows, locked, scope, now, limit)
  {
    var left := set id | id in db.callbacks && Selectable(db, id, locked, scope, BecomeDue, now, 0);
    ghost var all := left;
    rows := [];
    hide Selectable;
    while left != {} && |rows| < limit
      invariant |rows| <= limit && left <= all && Taken(db.callbacks, all, rows, left)
      decreases |left|
    {
      ghost var soonest := Soonest(db.callbacks, left);
      var next :| next in left && forall o | o in left :: db.callbacks[next].scheduledAt <= db.callbacks[o].scheduledAt;
      TakeNext(db.callbacks, all, rows, left, next);
      rows := rows + [next];
      left := left - {next};
    }
  }

  /** The rows taken so far, in order, are the soonest of all; the others are left. */
  ghost predicate Taken(callbacks: map<CallbackId, Callback>, all: set<CallbackId>, rows: seq<CallbackId>,
                        left: set<CallbackId>) {
    && Distinct(rows) && all <= callbacks.Keys && left <= all
    && (forall i | 0 <= i < |rows| :: rows[i] in all && rows[i] !in left)
    && (forall id | id in all :: id in rows || id in left)
    && (forall i, k | 0 <= i < k < |rows| :: callbacks[rows[i]].scheduledAt <= callbacks[rows[k]].scheduledAt)
    && (forall i, id | 0 <= i < |rows| && id in left :: callbacks[rows[i]].scheduledAt <= callbacks[id].scheduledAt)
  }

  lemma TakeNext(callbacks: map<CallbackId, Callback>, all: set<CallbackId>, rows: seq<CallbackId>,
                 left: set<CallbackId>, next: CallbackId)
    requires Taken(callbacks, all, rows, left) && next in left
    requires forall o | o in left :: callbacks[next].scheduledAt <= callbacks[o].scheduledAt
    ensures Taken(callbacks, all, rows + [next], left - {next})
  {
  }

  // ---------------------------------------------------------------- what the reconciler looks for

  function Unassigned(db: Db, scope: Scope): set<CallbackId> {
    set id | id in db.callbacks && db.callbacks[id].scope == scope && db.callbacks[id].agent.None?
        && db.callbacks[id].team.None?
  }

  function Unlogged(db: Db, scope: Scope): set<CallbackId> {
    set id | id in db.callbacks && db.callbacks[id].scope == scope && !HasEvent(db.events, id, db.callbacks[id].version)
  }

  function Outdated(db: Db, scope: Scope): set<DeliveryKey> {
    set k | k in db.deliveries && Superseded(db, k, scope)
  }

  function Over(db: Db, scope: Scope): set<DeliveryKey> {
    set k | k in db.deliveries && Finished(db, k, scope)
  }

  function CancelledIn(deliveries: map<DeliveryKey, Delivery>, keys: set<DeliveryKey>): map<DeliveryKey, Delivery> {
    map k | k in deliveries :: if k in keys then CANCELLED_DELIVERY else deliveries[k]
  }

  lemma NothingUnlogged(db: Db, scope: Scope)
    ensures Inv(db) ==> Unlogged(db, scope) == {}
  {
    hide HasEvent;
  }

  lemma TwoCancellations(db: Db, scope: Scope)
    ensures CancelledIn(CancelledIn(db.deliveries, Outdated(db, scope)), Over(db, scope)) ==
              Reconciled(db, scope).deliveries
    ensures Over(db, scope) <= CancelledIn(db.deliveries, Outdated(db, scope)).Keys
    ensures Reconciled(db, scope) == db.(deliveries := Reconciled(db, scope).deliveries)
  {
    hide Superseded, Finished;
  }

  class Tables {
    var callbacks: map<CallbackId, Callback>
    var events: set<Event>
    var deliveries: map<DeliveryKey, Delivery>

    function Snapshot(): Db
      reads this
    {
      Db(callbacks, events, deliveries)
    }

    /** The loop of a pass: each selected row is advanced, logged and given its popup deliveries. */
    method AdvanceRows(rows: seq<CallbackId>, scope: Scope, kind: Kind, now: int, grace: int)
      requires Distinct(rows)
      requires forall i | 0 <= i < |rows| ::
                 rows[i] in callbacks && Eligible(callbacks[rows[i]], scope, kind, now, grace)
      modifies this
      ensures Snapshot() == Pass(old(Snapshot()), rows, scope, kind, now, grace)
      ensures forall i | 0 <= i < |rows| ::
                rows[i] in callbacks && callbacks[rows[i]] == Advanced(old(callbacks)[rows[i]], kind)
    {
      hide Eligible, DeliveriesFor;
      var n := 0;
      while n < |rows|
        invariant 0 <= n <= |rows| && callbacks.Keys == old(callbacks).Keys
        invariant forall i | 0 <= i < n :: callbacks[rows[i]] == Advanced(old(callbacks)[rows[i]], kind)
        invariant forall i | n <= i < |rows| :: callbacks[rows[i]] == old(callbacks)[rows[i]]
        invariant Pass(Snapshot(), rows[n..], scope, kind, now, grace) ==
                    Pass(old(Snapshot()), rows, scope, kind, now, grace)
      {
        var id := rows[n];
        var c := callbacks[id];
        assert rows[n..][0] == id && rows[n..][1..] == rows[n + 1..];
        callbacks := callbacks[id := c.(state := TargetOf(kind), version := c.version + 1)];
        events := events + {EventFor(id, c, kind)};
        deliveries := deliveries + DeliveriesFor(id, c, kind, now);
        n := n + 1;
      }
    }

    method ClaimDue(locked: set<CallbackId>, scope: Scope, now: int, limit: nat) returns (rows: seq<CallbackId>)
      modifies this
      ensures IsDueBatch(old(Snapshot()), rows, locked, scope, now, limit)
      ensures Snapshot() == Pass(old(Snapshot()), rows, scope, BecomeDue, now, 0)
    {
      rows := DueRows(Snapshot(), locked, scope, now, limit);
      assert forall i | 0 <= i < |rows| :: Selectable(Snapshot(), rows[i], locked, scope, BecomeDue, now, 0);
      hide Eligible, Pass;
      AdvanceRows(rows, scope, BecomeDue, now, 0);
    }

    /** Waiting deliveries in conflict with their callback are cancelled; the counts are taken before anything is
        changed, so a superseded delivery of a finished callback is counted in both. Unassigned callbacks and events
        missing at a current version are only counted. */
    method Reconcile(scope: Scope) returns (orphans: nat, missing: nat, stale: nat, finished: nat)
      modifies this`deliveries
      ensures Snapshot() == Reconciled(old(Snapshot()), scope)
      ensures orphans == |Unassigned(old(Snapshot()), scope)| && missing == |Unlogged(old(Snapshot()), scope)|
      ensures stale == |Outdated(old(Snapshot()), scope)| && finished == |Over(old(Snapshot()), scope)|
      ensures Inv(old(Snapshot())) ==> missing == 0
    {
      var db := Snapshot();
      orphans, missing := |Unassigned(db, scope)|, |Unlogged(db, scope)|;
      NothingUnlogged(db, scope);
      var outdated, over := Outdated(db, scope), Over(db, scope);
      stale, finished := |outdated|, |over|;
      TwoCancellations(db, scope);
      hide Inv, Reconciled, Unassigned, Unlogged;
      CancelAll(outdated);
      CancelAll(over);
    }

    method CancelAll(keys: set<DeliveryKey>)
      requires keys <= deliveries.Keys
      modifies this`deliveries
      ensures deliveries == CancelledIn(old(deliveries), keys)
    {
      var todo := keys;
      while todo != {}
        invariant todo <= keys
        invariant deliveries == CancelledIn(old(deliveries), keys - todo)
        decreases |todo|
      {
        var k :| k in todo;
        deliveries := deliveries[k := Delivery(StaleCancelled, None)];
        todo := todo - {k};
      }
    }
  }
}
