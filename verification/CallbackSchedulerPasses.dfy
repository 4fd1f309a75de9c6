/** What a scheduler pass and a reconciliation do to every row, said of the fields of callbacks and deliveries. */
module CallbackSchedulerPasses {
  import opened Base
  import opened CallbackScheduler

  /** The pass concerns this callback: same tenant and campaign, waiting for its time, or due, or missed, and late
      enough. */
  predicate Ripe(c: Callback, scope: Scope, kind: Kind, now: int, grace: int) {
    && c.scope.tenant == scope.tenant && c.scope.campaign == scope.campaign
    && match kind
       case BecomeDue =>
         && (c.state.SCHEDULED? || c.state.REMINDER_PENDING? || c.state.READY? || c.state.SNOOZED?
             || c.state.RESCHEDULED?)
         && c.scheduledAt <= now
       case BecomeMissed => c.state.DUE? && c.scheduledAt + grace <= now
       case Escalate => c.state.MISSED? && c.scheduledAt + grace <= now
  }

  predicate Taken(db: Db, rows: seq<CallbackId>, scope: Scope, kind: Kind, now: int, grace: int, id: CallbackId) {
    id in db.callbacks && id in rows && Ripe(db.callbacks[id], scope, kind, now, grace)
  }

  /** The popup a pass owes for an advanced callback: at once, and for a due one a reminder ten minutes on. */
  predicate Owes(c: Callback, kind: Kind, now: int, k: DeliveryKey, d: Delivery) {
    && c.popup && k.version == c.version + 1 && k.channel == "POPUP" && d.status.Queued?
    && match kind
       case BecomeDue =>
         || (k.stage.StageDue? && d.nextAttemptAt == Some(now))
         || (k.stage.AgentReminder? && d.nextAttemptAt == Some(now + 10))
       case BecomeMissed => k.stage.StageMissed? && d.nextAttemptAt == Some(now)
       case Escalate => k.stage.StageEscalated? && d.nextAttemptAt == Some(now)
  }

  lemma RowExactly(db: Db, id: CallbackId, scope: Scope, kind: Kind, now: int, grace: int)
    requires id in db.callbacks
    ensures Eligible(db.callbacks[id], scope, kind, now, grace) <==> Ripe(db.callbacks[id], scope, kind, now, grace)
    ensures !Ripe(Advanced(db.callbacks[id], kind), scope, kind, now, grace)
  {
  }

  lemma OwedExactly(id: CallbackId, c: Callback, kind: Kind, now: int, k: DeliveryKey, d: Delivery)
    ensures k in DeliveriesFor(id, c, kind, now) && DeliveriesFor(id, c, kind, now)[k] == d <==>
            k.callback == id && Owes(c, kind, now, k, d)
  {
  }

  /** A pass takes every ripe callback it selected exactly once and no other: the callback is due, missed or escalated
      at the next version, and everything else about it is as before. */
  lemma {:induction false} PassExactly(db: Db, rows: seq<CallbackId>, scope: Scope, kind: Kind, now: int, grace: int,
                                       id: CallbackId)
    ensures var db' := Pass(db, rows, scope, kind, now, grace);
            && (id in db'.callbacks <==> id in db.callbacks)
            && (id in db.callbacks ==>
                  var c := db.callbacks[id];
                  db'.callbacks[id] ==
                    if Taken(db, rows, scope, kind, now, grace, id)
                    then c.(version := c.version + 1,
                            state := if kind.BecomeDue? then DUE else if kind.BecomeMissed? then MISSED else ESCALATED)
                    else c)
    decreases |rows|
  {
    if rows != [] {
      if rows[0] in db.callbacks {
        RowExactly(db, rows[0], scope, kind, now, grace);
      }
      hide Eligible, Ripe, DeliveriesFor;
      var rest := if rows[0] in db.callbacks && Eligible(db.callbacks[rows[0]], scope, kind, now, grace)
                  then AdvanceRow(db, rows[0], kind, now) else db;
      PassExactly(rest, rows[1..], scope, kind, now, grace, id);
      assert id in rows <==> id == rows[0] || id in rows[1..];
    }
  }

  /** A pass logs exactly one event for each callback it takes. */
  lemma {:induction false} EventsExactly(db: Db, rows: seq<CallbackId>, scope: Scope, kind: Kind, now: int, grace: int,
                                         e: Event)
    ensures e in Pass(db, rows, scope, kind, now, grace).events <==>
            || e in db.events
            || (Taken(db, rows, scope, kind, now, grace, e.callback) && e.eventType == Scheduler(kind)
                && e.version == db.callbacks[e.callback].version + 1)
    decreases |rows|
  {
    if rows != [] {
      if rows[0] in db.callbacks {
        RowExactly(db, rows[0], scope, kind, now, grace);
      }
      hide Eligible, Ripe, DeliveriesFor;
      var rest := if rows[0] in db.callbacks && Eligible(db.callbacks[rows[0]], scope, kind, now, grace)
                  then AdvanceRow(db, rows[0], kind, now) else db;
      EventsExactly(rest, rows[1..], scope, kind, now, grace, e);
      assert e.callback in rows <==> e.callback == rows[0] || e.callback in rows[1..];
    }
  }

  /** A pass queues exactly the popups it owes, to the callbacks it takes, and leaves every other delivery alone. */
  lemma {:induction false} PopupsExactly(db: Db, rows: seq<CallbackId>, scope: Scope, kind: Kind, now: int, grace: int,
                                         k: DeliveryKey, d: Delivery)
    requires Inv(db)
    ensures var db' := Pass(db, rows, scope, kind, now, grace);
            k in db'.deliveries && db'.deliveries[k] == d <==>
            || (k in db.deliveries && db.deliveries[k] == d)
            || (Taken(db, rows, scope, kind, now, grace, k.callback) && Owes(db.callbacks[k.callback], kind, now, k, d))
    decreases |rows|
  {
    if rows != [] {
      var id := rows[0];
      var takes := id in db.callbacks && Eligible(db.callbacks[id], scope, kind, now, grace);
      var rest := if takes then AdvanceRow(db, id, kind, now) else db;
      if id in db.callbacks {
        RowExactly(db, id, scope, kind, now, grace);
        OwedExactly(id, db.callbacks[id], kind, now, k, d);
        if takes {
          RowAdvances(db, id, scope, kind, now, grace);
        }
      }
      assert k in db.deliveries && k.callback == id ==> k.version <= db.callbacks[id].version;
      hide Eligible, Ripe, DeliveriesFor, Owes, Inv, Edge;
      PopupsExactly(rest, rows[1..], scope, kind, now, grace, k, d);
      assert k.callback in rows <==> k.callback == id || k.callback in rows[1..];
    }
  }

  /** A reconciliation cancels exactly the waiting deliveries of the scope's callbacks that are completed, cancelled or
      at a later version. */
  lemma CancelsExactly(db: Db, scope: Scope, k: DeliveryKey)
    requires k in db.deliveries
    ensures Reconciled(db, scope).deliveries[k] ==
              if && k.callback in db.callbacks && db.callbacks[k.callback].scope.tenant == scope.tenant
                 && db.callbacks[k.callback].scope.campaign == scope.campaign
                 && (db.deliveries[k].status.Queued? || db.deliveries[k].status.RetryPending?)
                 && (db.callbacks[k.callback].version > k.version || db.callbacks[k.callback].state.COMPLETED?
                     || db.callbacks[k.callback].state.CANCELLED?)
              then Delivery(StaleCancelled, None) else db.deliveries[k]
  {
  }

  /** What a run did to a callback, at one of its steps. */
  predicate Advances(db: Db, op: Op, id: CallbackId, s: State) {
    && op.RunPass? && Taken(db, op.rows, op.scope, op.kind, op.now, op.grace, id)
    && s == if op.kind.BecomeDue? then DUE else if op.kind.BecomeMissed? then MISSED else ESCALATED
  }

  /** A callback whose state a run changed was taken, in the right state and late enough, by a pass of its own tenant
      and campaign. */
  lemma {:induction false} EveryStateHasItsPass(db: Db, ops: seq<Op>, id: CallbackId) returns (n: nat)
    requires id in db.callbacks && id in Run(db, ops).callbacks
    requires Run(db, ops).callbacks[id].state != db.callbacks[id].state
    ensures n < |ops| && Advances(Run(db, ops[..n]), ops[n], id, Run(db, ops).callbacks[id].state)
    decreases |ops|
  {
    assert ops != [];
    var m := |ops| - 1;
    var before := Run(db, ops[..m]);
    LastStep(db, ops);
    if ops[m].RunPass? {
      PassExactly(before, ops[m].rows, ops[m].scope, ops[m].kind, ops[m].now, ops[m].grace, id);
    }
    hide Pass, Run, Taken;
    if before.callbacks[id].state != Run(db, ops).callbacks[id].state {
      n := m;
    } else {
      n := EveryStateHasItsPass(db, ops[..m], id);
      assert ops[..m][..n] == ops[..n] && ops[..m][n] == ops[n];
    }
  }

  lemma {:induction false} LastStep(db: Db, ops: seq<Op>)
    requires ops != []
    ensures Run(db, ops) == Apply(Run(db, ops[..|ops| - 1]), ops[|ops| - 1])
    decreases |ops|
  {
    hide Apply;
    if |ops| > 1 {
      LastStep(Apply(db, ops[0]), ops[1..]);
      assert ops[..|ops| - 1][1..] == ops[1..][..|ops| - 2];
    } else {
      assert ops[..0] == [] && ops[1..] == [];
    }
  }
}
