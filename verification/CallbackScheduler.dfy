/**
 The callback scheduler (app/callback_scheduler.py) on the callback tables. A scheduler pass is
 one transaction on the rows of one tenant and campaign; row-level security keeps every other
 row out of its sight. Times are in minutes.
 */
module CallbackScheduler {
  import opened Base

  type CallbackId = nat

  datatype State =
    | DRAFT | SCHEDULED | REMINDER_PENDING | READY | DUE | IN_PROGRESS | SNOOZED | RESCHEDULED | MISSED | ESCALATED
    | FAILED | BLOCKED_COMPLIANCE | COMPLETED | CANCELLED

  /** The transition table of app/core/callbacks.py. */
  predicate Edge(a: State, b: State) {
    match a
    case DRAFT => b.SCHEDULED? || b.CANCELLED? || b.BLOCKED_COMPLIANCE?
    case SCHEDULED =>
      b.REMINDER_PENDING? || b.READY? || b.DUE? || b.SNOOZED? || b.RESCHEDULED? || b.CANCELLED? || b.BLOCKED_COMPLIANCE?
    case REMINDER_PENDING => b.READY? || b.DUE? || b.SNOOZED? || b.RESCHEDULED? || b.CANCELLED? || b.FAILED?
    case READY => b.DUE? || b.SNOOZED? || b.RESCHEDULED? || b.CANCELLED?
    case DUE => b.IN_PROGRESS? || b.SNOOZED? || b.RESCHEDULED? || b.MISSED? || b.CANCELLED?
    case IN_PROGRESS => b.COMPLETED? || b.FAILED? || b.RESCHEDULED?
    case SNOOZED => b.REMINDER_PENDING? || b.READY? || b.DUE? || b.RESCHEDULED? || b.CANCELLED?
    case RESCHEDULED => b.REMINDER_PENDING? || b.READY? || b.DUE? || b.SNOOZED? || b.CANCELLED?
    case MISSED => b.ESCALATED? || b.IN_PROGRESS? || b.RESCHEDULED? || b.CANCELLED?
    case ESCALATED => b.IN_PROGRESS? || b.RESCHEDULED? || b.CANCELLED? || b.FAILED?
    case FAILED => b.SCHEDULED? || b.CANCELLED?
    case BLOCKED_COMPLIANCE => b.SCHEDULED? || b.CANCELLED?
    case COMPLETED => false
    case CANCELLED => false
  }

  datatype Scope = Scope(tenant: string, campaign: string)

  datatype Callback = Callback(scope: Scope, state: State, scheduledAt: int, version: nat, popup: bool,
                               agent: Option<string>, team: Option<string>)

  /** What a pass does to the rows it takes. */
  datatype Kind = BecomeDue | BecomeMissed | Escalate

  datatype EventType = Scheduler(kind: Kind) | Handler(name: string)

  /** The columns of the event's idempotency key. */
  datatype Event = Event(callback: CallbackId, version: nat, eventType: EventType)

  datatype Stage = StageDue | AgentReminder | StageMissed | StageEscalated | OtherStage(name: string)

  datatype DeliveryKey = DeliveryKey(callback: CallbackId, version: nat, channel: string, stage: Stage)

  datatype Status = Queued | RetryPending | StaleCancelled | Settled(name: string)

  datatype Delivery = Delivery(status: Status, nextAttemptAt: Option<int>)

  datatype Db = Db(callbacks: map<CallbackId, Callback>, events: set<Event>, deliveries: map<DeliveryKey, Delivery>)

  const POPUP := "POPUP"
  const AGENT_REMINDER_MINUTES := 10

  function TargetOf(kind: Kind): State {
    match kind
    case BecomeDue => DUE
    case BecomeMissed => MISSED
    case Escalate => ESCALATED
  }

  /** The WHERE clause of a pass; grace is not used by claim_due. */
  predicate Eligible(c: Callback, scope: Scope, kind: Kind, now: int, grace: int) {
    && c.scope == scope
    && match kind
       case BecomeDue =>
         (c.state.SCHEDULED? || c.state.REMINDER_PENDING? || c.state.READY? || c.state.SNOOZED? || c.state.RESCHEDULED?)
             && c.scheduledAt <= now
       case BecomeMissed => c.state.DUE? && c.scheduledAt <= now - grace
       case Escalate => c.state.MISSED? && c.scheduledAt <= now - grace
  }

  function Advanced(c: Callback, kind: Kind): Callback {
    c.(state := TargetOf(kind), version := c.version + 1)
  }

  function EventFor(id: CallbackId, c: Callback, kind: Kind): Event {
    Event(id, c.version + 1, Scheduler(kind))
  }

  /** Popup deliveries a pass queues for one row. */
  function DeliveriesFor(id: CallbackId, c: Callback, kind: Kind, now: int): map<DeliveryKey, Delivery> {
    if !c.popup then map[] else
      match kind
      case BecomeDue =>
        map[DeliveryKey(id, c.version + 1, POPUP, StageDue) := Delivery(Queued, Some(now)),
            DeliveryKey(id, c.version + 1, POPUP, AgentReminder) :=
                Delivery(Queued, Some(now + AGENT_REMINDER_MINUTES))]
      case BecomeMissed => map[DeliveryKey(id, c.version + 1, POPUP, StageMissed) := Delivery(Queued, Some(now))]
      case Escalate => map[DeliveryKey(id, c.version + 1, POPUP, StageEscalated) := Delivery(Queued, Some(now))]
  }

  /** One iteration of a pass's loop. */
  function AdvanceRow(db: Db, id: CallbackId, kind: Kind, now: int): Db
    requires id in db.callbacks
  {
    var c := db.callbacks[id];
    Db(db.callbacks[id := Advanced(c, kind)], db.events + {EventFor(id, c, kind)},
        db.deliveries + DeliveriesFor(id, c, kind, now))
  }

  /** A pass over the rows it selected, in order; a row that is not eligible is never selected. */
  function Pass(db: Db, rows: seq<CallbackId>, scope: Scope, kind: Kind, now: int, grace: int): Db
    decreases |rows|
  {
    if rows == [] then db
    else if rows[0] in db.callbacks && Eligible(db.callbacks[rows[0]], scope, kind, now, grace)
    then Pass(AdvanceRow(db, rows[0], kind, now), rows[1..], scope, kind, now, grace)
    else Pass(db, rows[1..], scope, kind, now, grace)
  }

  predicate Waiting(d: Delivery) {
    d.status.Queued? || d.status.RetryPending?
  }

  predicate Visible(db: Db, k: DeliveryKey, scope: Scope) {
    k.callback in db.callbacks && db.callbacks[k.callback].scope == scope
  }

  predicate Superseded(db: Db, k: DeliveryKey, scope: Scope) {
    Visible(db, k, scope) && k in db.deliveries && Waiting(db.deliveries[k])
        && k.version < db.callbacks[k.callback].version
  }

  predicate Finished(db: Db, k: DeliveryKey, scope: Scope) {
    && Visible(db, k, scope) && k in db.deliveries && Waiting(db.deliveries[k])
    && (db.callbacks[k.callback].state.COMPLETED? || db.callbacks[k.callback].state.CANCELLED?)
  }

  const CANCELLED_DELIVERY := Delivery(StaleCancelled, None)

  /** reconcile: waiting deliveries that are superseded or belong to a finished callback are cancelled. */
  function Reconciled(db: Db, scope: Scope): Db {
    db.(deliveries := map k | k in db.deliveries ::
          if Superseded(db, k, scope) || Finished(db, k, scope) then CANCELLED_DELIVERY else db.deliveries[k])
  }

  datatype Op =
    | RunPass(rows: seq<CallbackId>, scope: Scope, kind: Kind, now: int, grace: int)
    | Reconcile(scope: Scope)

  function Apply(db: Db, op: Op): Db {
    match op
    case RunPass(rows, scope, kind, now, grace) => Pass(db, rows, scope, kind, now, grace)
    case Reconcile(scope) => Reconciled(db, scope)
  }

  function Run(db: Db, ops: seq<Op>): Db
    decreases |ops|
  {
    if ops == [] then db else Run(Apply(db, ops[0]), ops[1..])
  }

  // ---------------------------------------------------------------- the invariant

  /** Events and deliveries never run ahead of their callback, and the current version has its event. */
  predicate Inv(db: Db) {
    && (forall e | e in db.events :: e.callback in db.callbacks && e.version <= db.callbacks[e.callback].version)
    && (forall k | k in db.deliveries :: k.callback in db.callbacks && k.version <= db.callbacks[k.callback].version)
    && (forall id | id in db.callbacks :: HasEvent(db.events, id, db.callbacks[id].version))
  }

  predicate HasEvent(events: set<Event>, id: CallbackId, version: nat) {
    exists e | e in events :: e.callback == id && e.version == version
  }

  function EventsOf(events: set<Event>, id: CallbackId): set<Event> {
    set e | e in events && e.callback == id
  }

  lemma DeliveriesAreCurrent(id: CallbackId, c: Callback, kind: Kind, now: int, k: DeliveryKey)
    requires k in DeliveriesFor(id, c, kind, now)
    ensures k.callback == id && k.version == c.version + 1
  {
  }

  /** A row is advanced along an edge of the table, gets one new event at its new version, and overwrites no
      delivery. */
  lemma RowAdvances(db: Db, id: CallbackId, scope: Scope, kind: Kind, now: int, grace: int)
    requires Inv(db) && id in db.callbacks && Eligible(db.callbacks[id], scope, kind, now, grace)
    ensures var db' := AdvanceRow(db, id, kind, now);
            && Inv(db')
            && Edge(db.callbacks[id].state, db'.callbacks[id].state)
            && EventFor(id, db.callbacks[id], kind) !in db.events
            && (forall k | k in db.deliveries :: k in db'.deliveries && db'.deliveries[k] == db.deliveries[k])
  {
    var c := db.callbacks[id];
    var db' := AdvanceRow(db, id, kind, now);
    forall k | k in DeliveriesFor(id, c, kind, now) ensures k.callback == id && k.version == c.version + 1 {
      DeliveriesAreCurrent(id, c, kind, now, k);
    }
    hide DeliveriesFor;
    assert EventFor(id, c, kind) in db'.events;
    forall o | o in db'.callbacks ensures HasEvent(db'.events, o, db'.callbacks[o].version) {
      if o != id {
        var e :| e in db.events && e.callback == o && e.version == db.callbacks[o].version;
        assert e in db'.events;
      }
    }
  }

  // ---------------------------------------------------------------- progress of one callback

  /** b is reached from a by n edges of the table. */
  ghost predicate Reaches(a: State, b: State, n: nat)
    decreases n
  {
    if n == 0 then a == b else exists m :: Reaches(a, m, n - 1) && Edge(m, b)
  }

  lemma {:induction false} ReachesOn(a: State, b: State, c: State, n: nat, m: nat)
    requires Reaches(a, b, n) && Reaches(b, c, m)
    ensures Reaches(a, c, n + m)
    decreases m
  {
    hide Edge;
    if m > 0 {
      var mid :| Reaches(b, mid, m - 1) && Edge(mid, c);
      ReachesOn(a, b, mid, n, m - 1);
    }
  }

  /** From one state of the tables to a later one the callback took version' - version edges of the table and was given
      exactly as many new events. */
  ghost predicate Progress(db: Db, db': Db, id: CallbackId) {
    && id in db.callbacks && id in db'.callbacks
    && var c, c' := db.callbacks[id], db'.callbacks[id];
    && c'.scope == c.scope && c'.scheduledAt == c.scheduledAt && c.version <= c'.version
    && Reaches(c.state, c'.state, c'.version - c.version)
    && |EventsOf(db'.events, id)| == |EventsOf(db.events, id)| + (c'.version - c.version)
  }

  lemma ProgressGoesOn(a: Db, b: Db, c: Db, id: CallbackId)
    requires Progress(a, b, id) && Progress(b, c, id)
    ensures Progress(a, c, id)
  {
    hide Reaches, EventsOf;
    ReachesOn(a.callbacks[id].state, b.callbacks[id].state, c.callbacks[id].state,
              b.callbacks[id].version - a.callbacks[id].version, c.callbacks[id].version - b.callbacks[id].version);
  }

  lemma RowProgress(db: Db, row: CallbackId, scope: Scope, kind: Kind, now: int, grace: int, id: CallbackId)
    requires Inv(db) && row in db.callbacks && id in db.callbacks
    requires Eligible(db.callbacks[row], scope, kind, now, grace)
    ensures Progress(db, AdvanceRow(db, row, kind, now), id)
  {
    RowAdvances(db, row, scope, kind, now, grace);
    var db' := AdvanceRow(db, row, kind, now);
    var e := EventFor(row, db.callbacks[row], kind);
    hide Inv, Edge, DeliveriesFor, Eligible, EventsOf;
    EventAdded(db.events, e, id);
    OneEdge(db.callbacks[row].state, db'.callbacks[row].state);
    assert Reaches(db.callbacks[id].state, db.callbacks[id].state, 0);
    hide Reaches;
  }

  lemma EventAdded(events: set<Event>, e: Event, id: CallbackId)
    requires e !in events
    ensures |EventsOf(events + {e}, id)| == |EventsOf(events, id)| + if e.callback == id then 1 else 0
  {
    assert EventsOf(events + {e}, id) == if e.callback == id then EventsOf(events, id) + {e} else EventsOf(events, id);
  }

  lemma OneEdge(a: State, b: State)
    requires Edge(a, b)
    ensures Reaches(a, b, 1)
  {
    hide Edge;
    assert Reaches(a, a, 0);
  }

  lemma {:induction false} PassProgress(db: Db, rows: seq<CallbackId>, scope: Scope, kind: Kind, now: int, grace: int,
                                        id: CallbackId)
    requires Inv(db) && id in db.callbacks
    ensures var db' := Pass(db, rows, scope, kind, now, grace); Inv(db') && Progress(db, db', id)
    decreases |rows|
  {
    if rows != [] {
      hide Inv, Progress, AdvanceRow;
      if rows[0] in db.callbacks && Eligible(db.callbacks[rows[0]], scope, kind, now, grace) {
        var mid := AdvanceRow(db, rows[0], kind, now);
        RowAdvances(db, rows[0], scope, kind, now, grace);
        RowProgress(db, rows[0], scope, kind, now, grace, id);
        assert id in mid.callbacks by { ProgressKeepsRow(db, mid, id); }
        PassProgress(mid, rows[1..], scope, kind, now, grace, id);
        ProgressGoesOn(db, mid, Pass(mid, rows[1..], scope, kind, now, grace), id);
      } else {
        PassProgress(db, rows[1..], scope, kind, now, grace, id);
      }
    } else {
      assert Reaches(db.callbacks[id].state, db.callbacks[id].state, 0);
    }
  }

  lemma ProgressKeepsRow(db: Db, db': Db, id: CallbackId)
    requires Progress(db, db', id)
    ensures id in db'.callbacks
  {
  }

  lemma {:induction false} PassKeepsInv(db: Db, rows: seq<CallbackId>, scope: Scope, kind: Kind, now: int, grace: int)
    requires Inv(db)
    ensures Inv(Pass(db, rows, scope, kind, now, grace))
    decreases |rows|
  {
    if rows != [] {
      hide Inv, AdvanceRow;
      if rows[0] in db.callbacks && Eligible(db.callbacks[rows[0]], scope, kind, now, grace) {
        RowAdvances(db, rows[0], scope, kind, now, grace);
        PassKeepsInv(AdvanceRow(db, rows[0], kind, now), rows[1..], scope, kind, now, grace);
      } else {
        PassKeepsInv(db, rows[1..], scope, kind, now, grace);
      }
    }
  }

  /** Every run of scheduler passes and reconciliations moves each callback along the transition table, one event per
      version. */
  lemma {:induction false} RunsFollowTheTable(db: Db, ops: seq<Op>, id: CallbackId)
    requires Inv(db) && id in db.callbacks
    ensures Inv(Run(db, ops)) && Progress(db, Run(db, ops), id)
    decreases |ops|
  {
    assert Reaches(db.callbacks[id].state, db.callbacks[id].state, 0);
    if ops != [] {
      var db' := Apply(db, ops[0]);
      assert Inv(db') && Progress(db, db', id) by {
        if ops[0].RunPass? {
          hide Inv, Progress;
          PassProgress(db, ops[0].rows, ops[0].scope, ops[0].kind, ops[0].now, ops[0].grace, id);
        }
      }
      assert id in db'.callbacks;
      hide Inv, Progress, Apply;
      RunsFollowTheTable(db', ops[1..], id);
      ProgressGoesOn(db, db', Run(db', ops[1..]), id);
    }
  }

  // ---------------------------------------------------------------- reconciliation

  /** After a reconciliation no visible delivery is waiting for an outdated version or a finished callback; every other
      delivery, and every callback and event, is as it was. */
  lemma ReconcileClears(db: Db, scope: Scope, k: DeliveryKey)
    ensures var db' := Reconciled(db, scope);
            && !Superseded(db', k, scope) && !Finished(db', k, scope)
            && (k in db.deliveries && !Superseded(db, k, scope) && !Finished(db, k, scope) ==>
                 db'.deliveries[k] == db.deliveries[k])
            && db'.callbacks == db.callbacks && db'.events == db.events && db'.deliveries.Keys == db.deliveries.Keys
  {
  }

  lemma ReconcileIsIdempotent(db: Db, scope: Scope)
    ensures Reconciled(Reconciled(db, scope), scope) == Reconciled(db, scope)
  {
    var db' := Reconciled(db, scope);
    forall k | k in db'.deliveries ensures Reconciled(db', scope).deliveries[k] == db'.deliveries[k] {
      ReconcileClears(db, scope, k);
    }
    assert Reconciled(db', scope).deliveries == db'.deliveries;
  }

  /** Reconciling one tenant's campaign is invisible to any other. */
  lemma ScopesAreIndependent(db: Db, scope: Scope, other: Scope, k: DeliveryKey)
    requires scope != other && k in db.deliveries && Visible(db, k, other)
    ensures Reconciled(db, scope).deliveries[k] == db.deliveries[k]
  {
  }
}
