/** What every run of the lead automation service keeps. */
module LeadAutomationProofs {
  import opened Base
  import opened LeadAutomation

  // ---------------------------------------------------------------- one event

  /** The audited states are a walk through the transition table from RECEIVED. */
  predicate Walk(audit: seq<State>) {
    && |audit| >= 2 && Edge(RECEIVED, audit[0])
    && forall i | 0 <= i < |audit| - 1 :: Edge(audit[i], audit[i + 1])
  }

  /** The event passed every check on receipt. */
  predicate Admitted(e: Event) {
    |e.audit| >= 4 && e.audit[2].POLICY_ALLOWED?
  }

  predicate InFlight(s: State) {
    !Terminal(s) && !s.RECEIVED? && !s.SCHEMA_VALIDATED? && !s.POLICY_EVALUATING?
  }

  predicate EventInv(e: Event) {
    && e.key == Key(e.payload.scope, e.payload.eventId)
    && Walk(e.audit)
    && (e.state == e.audit[|e.audit| - 1] || e.state.QUARANTINED?)
    && (InFlight(e.state) ==> Admitted(e))
    && (e.state.ODOO_APPLY_PENDING? ==> e.outcome.Some? && e.ack.None?)
    && (e.ack.Some? ==> e.outcome.Some?)
    && !e.state.ODOO_APPLIED?
  }

  /** The rest of the record's life continues its audit and keeps its result and acknowledgement; a record that is not
      in flight can only be quarantined. */
  predicate Continues(a: Event, b: Event) {
    && a.key == b.key && a.payload == b.payload
    && a.audit <= b.audit
    && (a.outcome.Some? ==> b.outcome == a.outcome)
    && (a.ack.Some? ==> b.ack == a.ack)
    && (!InFlight(a.state) ==>
          && b.audit == a.audit && b.outcome == a.outcome && b.ack == a.ack
          && (b.state == a.state || b.state.QUARANTINED?))
  }

  lemma TransitionWalks(e: Event, target: State)
    requires EventInv(e) && Edge(e.state, target)
    ensures Walk(Transition(e, target).audit) && e.audit <= Transition(e, target).audit
    ensures Admitted(e) ==> Admitted(Transition(e, target))
  {
  }

  lemma QuarantineKeeps(e: Event)
    requires EventInv(e)
    ensures EventInv(Quarantined(e)) && Continues(e, Quarantined(e))
  {
  }

  /** A transition out of a resting state into a resting state other than ODOO_APPLY_PENDING. */
  lemma PlainTransition(e: Event, target: State)
    requires EventInv(e) && !target.ODOO_APPLY_PENDING? && !target.ODOO_APPLIED?
    requires Edge(e.state, target) ==> InFlight(e.state)
    ensures EventInv(Transition(e, target)) && Continues(e, Transition(e, target))
  {
    if Edge(e.state, target) {
      TransitionWalks(e, target);
    }
  }

  lemma ResultKeeps(c: Config, used: set<(string, string)>, e: Event, o: Outcome)
    requires EventInv(e)
    ensures var e' := TakeResultEvent(c, used, e, o); EventInv(e') && Continues(e, e')
  {
    hide BindingKept, FieldsAllowed;
    if ResultQuarantines(c, used, e, o) {
      QuarantineKeeps(e);
    } else if AcceptsResult(c, used, e, o) {
      var audit := e.audit + [RESULT_RECEIVED, RESULT_VALIDATED, ODOO_APPLY_PENDING];
      var e' := TakeResultEvent(c, used, e, o);
      assert e' == e.(state := ODOO_APPLY_PENDING, audit := audit, outcome := Some(o));
      assert Walk(audit);
    }
  }

  lemma AckKeeps(c: Config, id: AutoId, e: Event, a: Ack, builds: bool)
    requires EventInv(e)
    ensures var e' := ApplyAckEvent(c, id, e, a, builds); EventInv(e') && Continues(e, e')
    ensures var e' := ApplyAckEvent(c, id, e, a, builds);
            AcceptsAck(c, id, e, a, builds) ==> e.ack.None? && e'.ack == Some(a)
    ensures var e' := ApplyAckEvent(c, id, e, a, builds);
            !AcceptsAck(c, id, e, a, builds) ==> e'.ack == e.ack
  {
    hide AckBound;
    if AckQuarantines(c, id, e, a, builds) {
      QuarantineKeeps(e);
    } else if AcceptsAck(c, id, e, a, builds) {
      var target := AckTarget(a);
      TransitionWalks(e, target);
      if target.ODOO_APPLIED? {
        assert Walk(e.audit + [ODOO_APPLIED] + [COMPLETED]);
      }
    }
  }

  lemma RetryKeeps(e: Event, attempts: int, maximum: int)
    requires EventInv(e)
    ensures var e' := RecordRetryEvent(e, attempts, maximum); EventInv(e') && Continues(e, e')
  {
    PlainTransition(e, RETRY_PENDING);
    PlainTransition(e, FAILED_TERMINAL);
    if Edge(e.state, RETRY_PENDING) {
      PlainTransition(Transition(e, RETRY_PENDING), FAILED_TERMINAL);
    }
  }

  lemma MoveKeepsEvent(s: Service, id: AutoId, e: Event, move: Move)
    requires EventInv(e)
    ensures EventInv(MoveEvent(s, id, e, move)) && Continues(e, MoveEvent(s, id, e, move))
  {
    hide Walk;
    match move
    case Reserve => PlainTransition(e, DISPATCH_RESERVED);
    case MarkDispatched => PlainTransition(e, DISPATCHED);
    case AcknowledgeN8n => PlainTransition(e, N8N_ACKNOWLEDGED);
    case TakeResult(o) => hide TakeResultEvent; ResultKeeps(s.config, s.executions, e, o);
    case ApplyAck(a, builds) => hide ApplyAckEvent; AckKeeps(s.config, id, e, a, builds);
    case RecordRetry(attempts, maximum) => hide RecordRetryEvent; RetryKeeps(e, attempts, maximum);
  }

  lemma NewEventIsValid(c: Config, p: Payload)
    ensures EventInv(NewEvent(c, p))
    ensures Admitted(NewEvent(c, p)) <==> NewEvent(c, p).state.OUTBOX_PENDING?
  {
    hide PolicyKeyOf;
    assert Verdict(c, p).Some? ==> Verdict(c, p).value in {POLICY_DENIED, DNC_BLOCKED, CONSENT_BLOCKED, OUTBOX_PENDING};
  }

  // ---------------------------------------------------------------- the service

  function AckedRecords(records: map<AutoId, Event>): set<AutoId> {
    set id | id in records && records[id].ack.Some?
  }

  /** The dictionary names records under their own keys and lists each key once. */
  predicate DictionaryInv(order: seq<Key>, events: map<Key, AutoId>, records: map<AutoId, Event>) {
    && (forall k | k in events :: k in order && events[k] in records && records[events[k]].key == k)
    && (forall i | 0 <= i < |order| :: order[i] in events)
    && (forall i, j | 0 <= i < j < |order| :: order[i] != order[j])
  }

  /** Outbox rows are exactly the admitted records, each once. */
  predicate OutboxInv(outbox: seq<AutoId>, records: map<AutoId, Event>) {
    && (forall id | id in outbox :: id in records && Admitted(records[id]))
    && (forall id | id in records && Admitted(records[id]) :: id in outbox)
    && (forall i, j | 0 <= i < j < |outbox| :: outbox[i] != outbox[j])
  }

  /** Accepted results used recorded execution ids, no two the same. */
  predicate ExecutionsInv(executions: set<(string, string)>, records: map<AutoId, Event>) {
    && (forall id | id in records && records[id].outcome.Some? :: ExecutionOf(records[id].outcome.value) in executions)
    && (forall a, b | a in records && b in records && records[a].outcome.Some? && records[b].outcome.Some?
                      && ExecutionOf(records[a].outcome.value) == ExecutionOf(records[b].outcome.value) :: a == b)
  }

  /** Acknowledgements are bound to the record that holds them, and each was counted once. */
  predicate AcksInv(operations: nat, records: map<AutoId, Event>) {
    && (forall id | id in records && records[id].ack.Some? :: AckBound(id, records[id].payload, records[id].ack.value))
    && operations == |AckedRecords(records)|
  }

  predicate EventsInv(records: map<AutoId, Event>) {
    forall id | id in records :: EventInv(records[id])
  }

  predicate Inv(s: Service) {
    && EventsInv(s.records) && DictionaryInv(s.order, s.events, s.records) && OutboxInv(s.outbox, s.records)
    && ExecutionsInv(s.executions, s.records) && AcksInv(s.operations, s.records)
  }

  lemma InitialInv(config: Config)
    ensures Inv(Service(config, [], map[], map[], map[], {}, [], [], 0))
  {
  }

  // receiving

  lemma AddedRecord(s: Service, id: AutoId, e: Event)
    requires Inv(s) && id !in s.records && EventInv(e) && e.ack.None? && e.outcome.None?
    ensures var records := s.records[id := e];
            EventsInv(records) && ExecutionsInv(s.executions, records) && AcksInv(s.operations, records)
  {
    hide EventInv, AckBound, ExecutionOf, DictionaryInv, OutboxInv;
    assert AckedRecords(s.records[id := e]) == AckedRecords(s.records);
  }

  lemma AddedRow(outbox: seq<AutoId>, records: map<AutoId, Event>, id: AutoId, e: Event)
    requires OutboxInv(outbox, records) && id !in records
    ensures OutboxInv(if Admitted(e) then outbox + [id] else outbox, records[id := e])
  {
    hide Admitted;
    var outbox' := if Admitted(e) then outbox + [id] else outbox;
    assert id !in outbox;
    assert forall i | i in outbox' :: i in outbox || (i == id && Admitted(e));
    assert Admitted(e) ==> outbox'[|outbox|] == id;
  }

  lemma AddedKey(s: Service, id: AutoId, e: Event)
    requires DictionaryInv(s.order, s.events, s.records) && id !in s.records
    ensures var order := if e.key in s.events then s.order else s.order + [e.key];
            DictionaryInv(order, s.events[e.key := id], s.records[id := e])
  {
    var order := if e.key in s.events then s.order else s.order + [e.key];
    if e.key !in s.events {
      assert e.key !in s.order;
      assert order[|s.order|] == e.key;
    }
    assert forall k | k in s.order :: k in order;
  }

  lemma ReceiveKeeps(s: Service, p: Payload, id: AutoId)
    requires Inv(s) && id !in s.records && Creates(s, p)
    ensures Inv(Receive(s, p, id).0)
  {
    var e := NewEvent(s.config, p);
    NewEventIsValid(s.config, p);
    assert e.ack.None? && e.outcome.None?;
    AddedRecord(s, id, e);
    hide NewEvent, EventInv, Admitted, Verdict, EventsInv, DictionaryInv, OutboxInv, ExecutionsInv, AcksInv;
    AddedRow(s.outbox, s.records, id, e);
    AddedKey(s, id, e);
  }

  // methods on one event

  /** A move takes a result exactly when it is accepted, and otherwise leaves the one there is. */
  lemma OutcomeMoves(s: Service, id: AutoId, e: Event, move: Move)
    requires EventInv(e)
    ensures var e' := MoveEvent(s, id, e, move);
            if move.TakeResult? && AcceptsResult(s.config, s.executions, e, move.outcome)
            then e.outcome.None? && e'.outcome == Some(move.outcome) else e'.outcome == e.outcome
  {
    hide Walk, BindingKept, FieldsAllowed, AckBound, Classify, AckTarget;
  }

  lemma AckMoves(s: Service, id: AutoId, e: Event, move: Move)
    requires EventInv(e)
    ensures var e' := MoveEvent(s, id, e, move);
            if move.ApplyAck? && AcceptsAck(s.config, id, e, move.ack, move.builds)
            then e.ack.None? && e'.ack == Some(move.ack) && AckBound(id, e.payload, move.ack) else e'.ack == e.ack
  {
    hide Walk, AckBound, ResultQuarantines, AcceptsResult;
    if move.ApplyAck? {
      hide ApplyAckEvent;
      AckKeeps(s.config, id, e, move.ack, move.builds);
    }
  }

  lemma ExecutionUpdate(used: set<(string, string)>, used': set<(string, string)>, records: map<AutoId, Event>,
                        id: AutoId, e: Event)
    requires ExecutionsInv(used, records) && id in records && used <= used'
    requires e.outcome == records[id].outcome ||
             (e.outcome.Some? && ExecutionOf(e.outcome.value) !in used && ExecutionOf(e.outcome.value) in used')
    ensures ExecutionsInv(used', records[id := e])
  {
    hide ExecutionOf;
  }

  lemma MoveKeepsExecutions(s: Service, id: AutoId, move: Move)
    requires EventsInv(s.records) && ExecutionsInv(s.executions, s.records) && id in s.records
    ensures ExecutionsInv(MoveService(s, id, move).executions, MoveService(s, id, move).records)
  {
    var e, s' := s.records[id], MoveService(s, id, move);
    OutcomeMoves(s, id, e, move);
    hide EventInv, EventsInv, MoveEvent, ExecutionOf, MoveQuarantine, AcceptsAck, BindingKept, FieldsAllowed;
    hide ExecutionsInv;
    ExecutionUpdate(s.executions, s'.executions, s.records, id, s'.records[id]);
  }

  lemma AckedUpdate(records: map<AutoId, Event>, id: AutoId, e: Event)
    requires id in records
    ensures records[id].ack.Some? == e.ack.Some? ==> AckedRecords(records[id := e]) == AckedRecords(records)
    ensures records[id].ack.None? && e.ack.Some? ==> |AckedRecords(records[id := e])| == |AckedRecords(records)| + 1
  {
    if records[id].ack.None? && e.ack.Some? {
      assert AckedRecords(records[id := e]) == AckedRecords(records) + {id};
    }
  }

  lemma MoveKeepsAcks(s: Service, id: AutoId, move: Move)
    requires EventsInv(s.records) && AcksInv(s.operations, s.records) && id in s.records
    ensures AcksInv(MoveService(s, id, move).operations, MoveService(s, id, move).records)
  {
    var e, s' := s.records[id], MoveService(s, id, move);
    AckMoves(s, id, e, move);
    assert s'.records[id].payload == e.payload by { MoveKeepsEvent(s, id, e, move); }
    hide EventInv, MoveEvent, MoveQuarantine, RecordsExecution, AcceptsAck, AckBound;
    AckedUpdate(s.records, id, s'.records[id]);
    hide AckedRecords;
  }

  /** Whether an event was admitted never changes after receipt. */
  lemma AdmissionIsSettled(a: Event, b: Event)
    requires EventInv(a) && Continues(a, b)
    ensures Admitted(b) <==> Admitted(a)
  {
    hide Walk;
  }

  lemma UpdatedRecord(s: Service, id: AutoId, e: Event)
    requires Inv(s) && id in s.records && EventInv(e) && e.key == s.records[id].key
    requires Admitted(e) <==> Admitted(s.records[id])
    ensures var records := s.records[id := e];
            EventsInv(records) && DictionaryInv(s.order, s.events, records) && OutboxInv(s.outbox, records)
  {
    hide EventInv, Admitted, ExecutionsInv, AcksInv;
  }

  lemma MoveKeeps(s: Service, id: AutoId, move: Move)
    requires Inv(s) && id in s.records
    ensures Inv(MoveService(s, id, move))
  {
    var e' := MoveEvent(s, id, s.records[id], move);
    MoveKeepsEvent(s, id, s.records[id], move);
    AdmissionIsSettled(s.records[id], e');
    assert e'.key == s.records[id].key;
    MoveKeepsExecutions(s, id, move);
    MoveKeepsAcks(s, id, move);
    hide EventInv, Admitted, Continues, MoveEvent, MoveQuarantine, RecordsExecution, AcceptsAck;
    UpdatedRecord(s, id, e');
    hide EventsInv, DictionaryInv, OutboxInv, ExecutionsInv, AcksInv;
  }

  // runs

  lemma {:induction false} FindsListed(s: Service, order: seq<Key>, name: string, scope: Scope)
    requires DictionaryInv(s.order, s.events, s.records) && Find(s, order, name, scope).Some?
    ensures Find(s, order, name, scope).value in s.records
    decreases |order|
  {
    if !Named(s, order[0], name, scope) {
      FindsListed(s, order[1..], name, scope);
    }
  }

  /** Every method keeps the invariant. */
  lemma StepKeepsInv(s: Service, op: Op)
    requires Inv(s)
    ensures Inv(Apply(s, op))
  {
    hide EventsInv, DictionaryInv, OutboxInv, ExecutionsInv, AcksInv, MoveService;
    match op
    case Configure(config) =>
    case Submit(p, id) =>
      if id !in s.records && Creates(s, p) {
        ReceiveKeeps(s, p, id);
      }
    case OnEvent(name, scope, move) =>
      var target := Target(s, name, scope, move);
      if target.Some? && target.value in s.records {
        MoveKeeps(s, target.value, move);
      }
  }

  lemma {:induction false} RunKeepsInv(s: Service, ops: seq<Op>)
    requires Inv(s)
    ensures Inv(Run(s, ops))
    decreases |ops|
  {
    if ops != [] {
      hide Inv, Apply;
      StepKeepsInv(s, ops[0]);
      RunKeepsInv(Apply(s, ops[0]), ops[1..]);
    }
  }

  // ---------------------------------------------------------------- the life of one record

  lemma ContinuesIsTransitive(a: Event, b: Event, c: Event)
    requires Continues(a, b) && Continues(b, c)
    ensures Continues(a, c)
  {
  }

  lemma StepContinues(s: Service, op: Op, id: AutoId)
    requires Inv(s) && id in s.records
    ensures id in Apply(s, op).records && Continues(s.records[id], Apply(s, op).records[id])
  {
    hide EventInv, DictionaryInv, OutboxInv, ExecutionsInv, AcksInv, MoveEvent, NewEvent, Verdict, RecordsExecution;
    hide AcceptsAck, MoveQuarantine, Find;
    if op.OnEvent? {
      var target := Target(s, op.name, op.scope, op.move);
      if target == Some(id) {
        MoveKeepsEvent(s, id, s.records[id], op.move);
      }
    }
  }

  /** Over every run a record keeps its payload, extends its audit trail, keeps its result and its one acknowledgement,
      and once terminal can only be moved to quarantine. */
  lemma {:induction false} RecordsOnlyContinue(s: Service, ops: seq<Op>, id: AutoId)
    requires Inv(s) && id in s.records
    ensures id in Run(s, ops).records && Continues(s.records[id], Run(s, ops).records[id])
    decreases |ops|
  {
    if ops != [] {
      StepKeepsInv(s, ops[0]);
      StepContinues(s, ops[0], id);
      var s' := Apply(s, ops[0]);
      hide Inv, Apply, Continues;
      RecordsOnlyContinue(s', ops[1..], id);
      ContinuesIsTransitive(s.records[id], s'.records[id], Run(s', ops[1..]).records[id]);
    }
  }

  /** The audit trail is a walk through the table that ends in the state, unless a quarantine was forced; the next call
      can only follow the table or quarantine. */
  lemma AuditIsAWalk(s: Service, ops: seq<Op>, id: AutoId)
    requires Inv(s) && id in Run(s, ops).records
    ensures var e := Run(s, ops).records[id];
            Walk(e.audit) && (e.state == e.audit[|e.audit| - 1] || e.state.QUARANTINED?)
  {
    RunKeepsInv(s, ops);
    hide Run, Walk, DictionaryInv, OutboxInv, ExecutionsInv, AcksInv;
    assert EventInv(Run(s, ops).records[id]);
  }

  // ---------------------------------------------------------------- outbox rows are justified

  /** Every check of receive passes: policy, switches, do-not-call, consent and fields. */
  predicate Cleared(c: Config, p: Payload) {
    && PolicyKeyOf(p) in c.policies
    && var policy := c.policies[PolicyKeyOf(p)];
    && policy.enabled && policy.allow && c.enabled && p.action in c.switches
    && (policy.contactEligible ==> p.consent.Some? && !p.consent.value.doNotCall)
    && (policy.requiresConsent ==> p.consent.Some? && p.consent.value.granted)
    && p.attributes <= policy.allowedFields
  }

  lemma RowsAreCleared(s: Service, op: Op, id: AutoId)
    requires id !in s.outbox
    ensures id in Apply(s, op).outbox <==>
            op.Submit? && op.id == id && id !in s.records && Creates(s, op.payload) && Cleared(s.config, op.payload)
  {
    hide MoveEvent, RecordsExecution, AcceptsAck, MoveQuarantine, Find, IdempotencyKeyOf, PolicyKeyOf;
  }

  /** The n-th call of the run received the payload that became this row, and cleared it under the configuration of that
      moment. */
  predicate ClearedBy(s: Service, ops: seq<Op>, id: AutoId, n: nat)
    requires n < |ops|
  {
    ops[n].Submit? && ops[n].id == id && ops[n].payload.wellFormed && Cleared(Run(s, ops[..n]).config, ops[n].payload)
  }

  lemma {:induction false} OutboxIsJustified(s: Service, ops: seq<Op>, id: AutoId) returns (n: nat)
    requires id !in s.outbox && id in Run(s, ops).outbox
    ensures n < |ops| && ClearedBy(s, ops, id, n)
    decreases |ops|
  {
    hide Apply, Cleared, Creates;
    var s' := Apply(s, ops[0]);
    RowsAreCleared(s, ops[0], id);
    if id in s'.outbox {
      n := 0;
      assert ops[..0] == [];
      assert ops[0].payload.wellFormed by { CreatedIsWellFormed(s, ops[0].payload); }
    } else {
      var k := OutboxIsJustified(s', ops[1..], id);
      n := k + 1;
      assert ops[..n][0] == ops[0] && ops[..n][1..] == ops[1..][..k];
      assert Run(s, ops[..n]) == Run(s', ops[1..][..k]);
    }
  }

  lemma CreatedIsWellFormed(s: Service, p: Payload)
    requires Creates(s, p)
    ensures p.wellFormed
  {
  }

  // ---------------------------------------------------------------- replayed payloads

  lemma AnswersAreKept(s: Service, op: Op, k: Key)
    requires k in s.idempotency
    ensures k in Apply(s, op).idempotency && Apply(s, op).idempotency[k] == s.idempotency[k]
  {
    hide MoveEvent, RecordsExecution, AcceptsAck, MoveQuarantine, Find, Verdict, NewEvent;
  }

  lemma {:induction false} AnswersAreKeptInRuns(s: Service, ops: seq<Op>, k: Key)
    requires k in s.idempotency
    ensures k in Run(s, ops).idempotency && Run(s, ops).idempotency[k] == s.idempotency[k]
    decreases |ops|
  {
    if ops != [] {
      AnswersAreKept(s, ops[0], k);
      hide Apply;
      AnswersAreKeptInRuns(Apply(s, ops[0]), ops[1..], k);
    }
  }

  /** A payload delivered again, whatever happened meanwhile, gets the first answer and changes nothing; a different
      payload under its key is refused and changes nothing but the quarantine list. */
  lemma ReplaysAreIdempotent(s: Service, p: Payload, id: AutoId, ops: seq<Op>, q: Payload, id': AutoId)
    requires Receive(s, p, id).1.Done? && IdempotencyKeyOf(q) == IdempotencyKeyOf(p)
    ensures var later := Run(Receive(s, p, id).0, ops);
            && (q == p ==> Receive(later, q, id') == (later, Receive(s, p, id).1))
            && (q != p ==> Receive(later, q, id').1 == Raised(ConflictingReplay)
                           && Receive(later, q, id').0 ==
                                later.(quarantine := later.quarantine + [(q.eventId, IdempotencyConflict)]))
  {
    hide Verdict, NewEvent;
    var s1 := Receive(s, p, id).0;
    assert IdempotencyKeyOf(p) in s1.idempotency && s1.idempotency[IdempotencyKeyOf(p)].0 == p;
    AnswersAreKeptInRuns(s1, ops, IdempotencyKeyOf(p));
  }

  // ---------------------------------------------------------------- counting Odoo operations

  /** Keys whose current record holds an acknowledgement. */
  function AckedKeys(s: Service): set<Key> {
    set k | k in s.events && s.events[k] in s.records && s.records[s.events[k]].ack.Some?
  }

  predicate Current(s: Service, id: AutoId) {
    exists k | k in s.events :: s.events[k] == id
  }

  lemma {:induction false} ImageSize(events: map<Key, AutoId>, keys: set<Key>)
    requires keys <= events.Keys
    requires forall a, b | a in events && b in events && events[a] == events[b] :: a == b
    ensures |set k | k in keys :: events[k]| == |keys|
    decreases |keys|
  {
    if keys != {} {
      var a :| a in keys;
      var rest := keys - {a};
      ImageSize(events, rest);
      assert (set k | k in keys :: events[k]) == (set k | k in rest :: events[k]) + {events[a]};
    }
  }

  lemma SameSize(a: set<AutoId>, b: set<AutoId>)
    requires a <= b
    ensures |a| == |b| <==> a == b
  {
    if a != b {
      var x :| x in b && x !in a;
      SubsetSize(a, b - {x});
    }
  }

  /** odoo_operations counts every record ever acknowledged, so it exceeds the number of events holding an
      acknowledgement by the acknowledged records that were replaced in the dictionary. */
  lemma OperationsCountEventsExactly(s: Service)
    requires Inv(s)
    ensures s.operations == |AckedKeys(s)| <==> forall id | id in s.records && s.records[id].ack.Some? :: Current(s, id)
    ensures |AckedKeys(s)| <= s.operations
  {
    hide EventsInv, OutboxInv, ExecutionsInv, AckBound;
    var ids := set k | k in AckedKeys(s) :: s.events[k];
    assert forall a, b | a in s.events && b in s.events && s.events[a] == s.events[b] :: a == b;
    ImageSize(s.events, AckedKeys(s));
    assert ids <= AckedRecords(s.records);
    SameSize(ids, AckedRecords(s.records));
    SubsetSize(ids, AckedRecords(s.records));
    hide DictionaryInv;
    forall id | id in AckedRecords(s.records) ensures id in ids <==> Current(s, id) {
      if Current(s, id) {
        var k :| k in s.events && s.events[k] == id;
        assert k in AckedKeys(s);
      }
    }
  }

  lemma DroppedStep(s: Service, op: Op, id: AutoId)
    requires Inv(s) && id in s.records && !Current(s, id)
    ensures id in Apply(s, op).records && !Current(Apply(s, op), id)
  {
    hide EventsInv, OutboxInv, ExecutionsInv, AcksInv, MoveEvent, RecordsExecution, AcceptsAck, MoveQuarantine, Find;
    hide Verdict, DictionaryInv;
  }

  lemma {:induction false} DroppedForever(s: Service, ops: seq<Op>, id: AutoId)
    requires Inv(s) && id in s.records && !Current(s, id)
    ensures id in Run(s, ops).records && !Current(Run(s, ops), id)
    decreases |ops|
  {
    if ops != [] {
      StepKeepsInv(s, ops[0]);
      DroppedStep(s, ops[0], id);
      hide Inv, Apply, Current;
      DroppedForever(Apply(s, ops[0]), ops[1..], id);
    }
  }

  /** The failing family: a new idempotency key with the id of an acknowledged event drops that event's record, and the
      counts differ in every later state. */
  lemma ReusedEventIdBreaksTheCount(s: Service, p: Payload, id: AutoId, ops: seq<Op>)
    requires Inv(s) && id !in s.records && Creates(s, p) && Key(p.scope, p.eventId) in AckedKeys(s)
    ensures var later := Run(Apply(s, Submit(p, id)), ops); later.operations != |AckedKeys(later)|
  {
    var first := s.events[Key(p.scope, p.eventId)];
    var s1 := Apply(s, Submit(p, id));
    ReuseDrops(s, p, id);
    StepKeepsInv(s, Submit(p, id));
    hide Apply, Creates, Inv, Current;
    RecordsOnlyContinue(s1, ops, first);
    DroppedForever(s1, ops, first);
    RunKeepsInv(s1, ops);
    hide Run;
    OperationsCountEventsExactly(Run(s1, ops));
  }

  lemma ReuseDrops(s: Service, p: Payload, id: AutoId)
    requires Inv(s) && id !in s.records && Creates(s, p) && Key(p.scope, p.eventId) in AckedKeys(s)
    ensures var first := s.events[Key(p.scope, p.eventId)]; var s1 := Apply(s, Submit(p, id));
            first in s1.records && s1.records[first].ack.Some? && !Current(s1, first)
  {
    hide EventsInv, OutboxInv, ExecutionsInv, AcksInv, Verdict, NewEvent;
    var key := Key(p.scope, p.eventId);
    NewEventHasKey(s.config, p);
    assert forall k | k in s.events && s.events[k] == s.events[key] :: k == key;
  }

  lemma NewEventHasKey(c: Config, p: Payload)
    ensures NewEvent(c, p).key == Key(p.scope, p.eventId)
  {
  }

  /** The call stores a new event over one that holds an acknowledgement: what a caller can see before calling. */
  predicate ReusesAckedId(s: Service, op: Op) {
    op.Submit? && op.id !in s.records && Creates(s, op.payload)
        && Key(op.payload.scope, op.payload.eventId) in AckedKeys(s)
  }

  /** Of the records a step starts from, one leaves the dictionary only by having its key stored over. */
  lemma StaysCurrent(s: Service, op: Op, id: AutoId)
    requires Inv(s) && id in s.records && s.records[id].ack.Some? && Current(s, id) && !ReusesAckedId(s, op)
    ensures Current(Apply(s, op), id)
  {
    hide EventsInv, OutboxInv, ExecutionsInv, AcksInv, MoveEvent, RecordsExecution, AcceptsAck, MoveQuarantine, Find;
    hide Verdict, NewEvent;
    var k :| k in s.events && s.events[k] == id;
    if op.Submit? {
      NewEventHasKey(s.config, op.payload);
      assert k in AckedKeys(s);
    }
    assert k in Apply(s, op).events && Apply(s, op).events[k] == id;
  }

  /** A step acknowledges only a record the dictionary names. */
  lemma NewlyAckedIsCurrent(s: Service, op: Op, id: AutoId)
    requires Inv(s) && id in Apply(s, op).records && Apply(s, op).records[id].ack.Some?
    requires id !in s.records || s.records[id].ack.None?
    ensures Current(Apply(s, op), id)
  {
    hide EventsInv, OutboxInv, ExecutionsInv, AcksInv, MoveEvent, RecordsExecution, AcceptsAck, MoveQuarantine, Verdict;
    hide Find;
    if op.OnEvent? && Addressed(op.name, op.scope, op.move) && Find(s, s.order, op.name, op.scope).Some? {
      FindsCurrent(s, s.order, op.name, op.scope);
    }
  }

  lemma {:induction false} FindsCurrent(s: Service, order: seq<Key>, name: string, scope: Scope)
    requires Find(s, order, name, scope).Some?
    ensures Current(s, Find(s, order, name, scope).value)
    decreases |order|
  {
    if !Named(s, order[0], name, scope) {
      FindsCurrent(s, order[1..], name, scope);
    }
  }

  /** While the counts agree, a call keeps them in agreement if and only if it does not reuse the id of an acknowledged
      event. */
  lemma CountKeptExactly(s: Service, op: Op)
    requires Inv(s) && s.operations == |AckedKeys(s)|
    ensures Apply(s, op).operations == |AckedKeys(Apply(s, op))| <==> !ReusesAckedId(s, op)
  {
    var s' := Apply(s, op);
    if ReusesAckedId(s, op) {
      hide Inv, Apply, Creates, AckedKeys;
      ReusedEventIdBreaksTheCount(s, op.payload, op.id, []);
      assert Run(s', []) == s';
    } else {
      OperationsCountEventsExactly(s);
      StepKeepsInv(s, op);
      forall id | id in s'.records && s'.records[id].ack.Some? ensures Current(s', id) {
        hide Inv, Apply, AckedKeys, ReusesAckedId, Current;
        if id in s.records && s.records[id].ack.Some? {
          StaysCurrent(s, op, id);
        } else {
          NewlyAckedIsCurrent(s, op, id);
        }
      }
      hide Inv, Apply, AckedKeys, ReusesAckedId, Current;
      OperationsCountEventsExactly(s');
    }
  }

  /** From any state in which they agree - the empty service is one - the counts agree after a run if and only if no
      call of the run reused the id of an event acknowledged by then; once they differ they differ for good. */
  lemma {:induction false} CountAgreesExactly(s: Service, ops: seq<Op>)
    requires Inv(s) && s.operations == |AckedKeys(s)|
    ensures Run(s, ops).operations == |AckedKeys(Run(s, ops))| <==>
            forall n | 0 <= n < |ops| :: !ReusesAckedId(Run(s, ops[..n]), ops[n])
    decreases |ops|
  {
    hide Inv, AckedKeys, ReusesAckedId;
    if ops != [] {
      var s', rest := Apply(s, ops[0]), ops[1..];
      CountKeptExactly(s, ops[0]);
      StepKeepsInv(s, ops[0]);
      hide Apply;
      assert ops[..0] == [];
      if ReusesAckedId(s, ops[0]) {
        assert Run(s, ops[..0]) == s;
        BrokenForGood(s, ops);
      } else {
        CountAgreesExactly(s', rest);
        ShiftedRun(s, ops);
      }
    }
  }

  lemma BrokenForGood(s: Service, ops: seq<Op>)
    requires Inv(s) && ops != [] && ReusesAckedId(s, ops[0])
    ensures Run(s, ops).operations != |AckedKeys(Run(s, ops))|
  {
    ReusedEventIdBreaksTheCount(s, ops[0].payload, ops[0].id, ops[1..]);
    hide Inv, AckedKeys, Apply;
  }

  lemma ShiftedRun(s: Service, ops: seq<Op>)
    requires ops != [] && !ReusesAckedId(s, ops[0])
    ensures (forall n | 0 <= n < |ops| :: !ReusesAckedId(Run(s, ops[..n]), ops[n])) <==>
            forall n | 0 <= n < |ops[1..]| :: !ReusesAckedId(Run(Apply(s, ops[0]), ops[1..][..n]), ops[1..][n])
  {
    hide ReusesAckedId, Apply;
    var rest := ops[1..];
    forall n | 0 <= n < |ops|
      ensures n == 0 ==> Run(s, ops[..n]) == s
      ensures n > 0 ==> Run(s, ops[..n]) == Run(Apply(s, ops[0]), rest[..n - 1]) && ops[n] == rest[n - 1]
    {
      if n > 0 {
        assert ops[..n][0] == ops[0] && ops[..n][1..] == rest[..n - 1];
      }
    }
    if forall n | 0 <= n < |ops| :: !ReusesAckedId(Run(s, ops[..n]), ops[n]) {
      forall m | 0 <= m < |rest| ensures !ReusesAckedId(Run(Apply(s, ops[0]), rest[..m]), rest[m]) {
        assert !ReusesAckedId(Run(s, ops[..m + 1]), ops[m + 1]);
      }
    }
    if forall m | 0 <= m < |rest| :: !ReusesAckedId(Run(Apply(s, ops[0]), rest[..m]), rest[m]) {
      forall n | 0 <= n < |ops| ensures !ReusesAckedId(Run(s, ops[..n]), ops[n]) {
        if n > 0 {
          assert !ReusesAckedId(Run(Apply(s, ops[0]), rest[..n - 1]), rest[n - 1]);
        }
      }
    }
  }
}
