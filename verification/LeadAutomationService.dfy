/**
 The service's methods as they run. What a method does to the event it found is written statement by statement on that
 event; the class then stores it. Each method performs exactly the step LeadAutomation describes.
 */
module LeadAutomationService {
  import opened Base
  import opened LeadAutomation
  import opened LeadAutomationProofs
  import opened LeadAutomationEvidence

  datatype Gap = WithoutOutbox(id: AutoId) | MissingAcknowledgement(id: AutoId)

  /** _transition: raises (false) when the table has no such edge. */
  method Advance(e: Event, target: State) returns (e': Event, ok: bool)
    ensures e' == Transition(e, target)
    ensures ok <==> Edge(e.state, target)
  {
    e', ok := e, Edge(e.state, target);
    if ok {
      e' := e'.(state := target);
      e' := e'.(audit := e'.audit + [target]);
    }
  }

  /** The policy, do-not-call, consent and field checks: the event is admitted exactly when all of them pass. */
  method Evaluate(c: Config, p: Payload) returns (verdict: Option<State>)
    ensures verdict == Verdict(c, p)
    ensures verdict == Some(OUTBOX_PENDING) <==> Cleared(c, p)
    ensures verdict.Some? ==> Edge(POLICY_EVALUATING, verdict.value) || verdict.value.OUTBOX_PENDING?
  {
    var key := PolicyKeyOf(p);
    if key !in c.policies {
      return Some(POLICY_DENIED);
    }
    var policy := c.policies[key];
    if !policy.enabled || !policy.allow || !c.enabled || p.action !in c.switches {
      return Some(POLICY_DENIED);
    }
    if policy.contactEligible {
      if p.consent.None? {
        return None;
      }
      if p.consent.value.doNotCall {
        return Some(DNC_BLOCKED);
      }
    }
    if policy.requiresConsent {
      if p.consent.None? {
        return None;
      }
      if !p.consent.value.granted {
        return Some(CONSENT_BLOCKED);
      }
    }
    if !(p.attributes <= policy.allowedFields) {
      return Some(POLICY_DENIED);
    }
    verdict := Some(OUTBOX_PENDING);
  }

  /** A new event from receipt to its verdict, one transition at a time; raised when the consent snapshot cannot be
      read. */
  method Open(c: Config, p: Payload) returns (e: Event, raised: bool)
    ensures e == NewEvent(c, p) && (raised <==> Verdict(c, p).None?)
  {
    var verdict := Evaluate(c, p);
    hide Verdict, Cleared;
    e, raised := Event(Key(p.scope, p.eventId), p, RECEIVED, None, None, []), verdict.None?;
    var ok;
    e, ok := Advance(e, SCHEMA_VALIDATED);
    e, ok := Advance(e, POLICY_EVALUATING);
    assert e.audit == [SCHEMA_VALIDATED, POLICY_EVALUATING];
    if !raised {
      if verdict.value.OUTBOX_PENDING? {
        e, ok := Advance(e, POLICY_ALLOWED);
        assert e.audit == [SCHEMA_VALIDATED, POLICY_EVALUATING, POLICY_ALLOWED];
        e, ok := Advance(e, OUTBOX_PENDING);
        assert e.audit == [SCHEMA_VALIDATED, POLICY_EVALUATING, POLICY_ALLOWED, OUTBOX_PENDING];
      } else {
        e, ok := Advance(e, verdict.value);
      }
    }
  }

  /** receive_result on the event it found. */
  method TakeResultOn(c: Config, used: set<(string, string)>, id: AutoId, e: Event, o: Outcome)
    returns (e': Event, used': set<(string, string)>, notes: seq<(string, Reason)>, reply: Result<Reply>)
    ensures e' == TakeResultEvent(c, used, e, o)
    ensures used' == if RecordsExecution(c, used, e, o) then used + {ExecutionOf(o)} else used
    ensures notes == if e.outcome.Some? && e.outcome.value != o then [(o.eventId, ResultConflict)] else []
    ensures reply.Done? <==> e.outcome == Some(o) || AcceptsResult(c, used, e, o)
    ensures reply != Raised(NotFound) && (reply.Done? ==> reply.value == Status(id, ODOO_APPLY_PENDING))
  {
    hide BindingKept, PolicyKeyOf;
    e', used', notes := e, used, [];
    if e.outcome.Some? {
      if e.outcome.value != o {
        return Quarantined(e), used, [(o.eventId, ResultConflict)], Raised(ConflictingReplay);
      }
      reply := Done(Status(id, ODOO_APPLY_PENDING));
      return;
    }
    if !c.results {
      reply := Raised(ProcessingDisabled);
      return;
    }
    if !o.wellFormed {
      reply := Raised(SchemaViolation);
      return;
    }
    if !BindingKept(e.payload, o) {
      return Quarantined(e), used, [], Raised(BindingConflict);
    }
    if PolicyKeyOf(e.payload) !in c.policies {
      reply := Raised(PolicyMissing);
      return;
    }
    if !FieldsAllowed(c, e.payload, o) {
      return Quarantined(e), used, [], Raised(FieldOutsidePolicy);
    }
    if ExecutionOf(o) in used {
      return Quarantined(e), used, [], Raised(DuplicateExecution);
    }
    used' := used + {ExecutionOf(o)};
    var ok;
    e', ok := Advance(e, RESULT_RECEIVED);
    if !ok {
      reply := Raised(InvalidTransition);
      return;
    }
    e', ok := Advance(e', RESULT_VALIDATED);
    e', ok := Advance(e', ODOO_APPLY_PENDING);
    e' := e'.(outcome := Some(o));
    reply := Done(Status(id, e'.state));
  }

  /** apply_odoo_ack on the event it found. */
  method ApplyAckOn(c: Config, id: AutoId, e: Event, a: Ack, builds: bool)
    returns (e': Event, counted: bool, notes: seq<(string, Reason)>, reply: Result<Reply>)
    ensures e' == ApplyAckEvent(c, id, e, a, builds)
    ensures counted <==> AcceptsAck(c, id, e, a, builds)
    ensures counted ==> e'.ack == Some(a) && Deserves(a, e'.state)
    ensures notes == if !AckQuarantines(c, id, e, a, builds) then []
                     else if !AckWelcome(e, a) then [(e.payload.eventId, AckConflict)]
                     else if e.state.ODOO_APPLY_PENDING? && e.outcome.Some? then [(e.payload.eventId, AckInvalid)]
                     else []
    ensures reply.Done? <==> c.apply && (e.ack == Some(a) || AcceptsAck(c, id, e, a, builds))
    ensures reply != Raised(NotFound) && (reply.Done? ==> reply.value == Status(id, e'.state))
  {
    hide AckBound;
    e', counted, notes := e, false, [];
    if !c.apply {
      reply := Raised(ApplyDisabled);
      return;
    }
    if e.ack.Some? {
      if e.ack.value == a {
        reply := Done(Status(id, e.state));
        return;
      }
      if !(Classify(e.ack.value).Failed? && e.state.ODOO_APPLY_PENDING?) {
        return Quarantined(e), false, [(e.payload.eventId, AckConflict)], Raised(ConflictingReplay);
      }
    }
    if !e.state.ODOO_APPLY_PENDING? || e.outcome.None? {
      return Quarantined(e), false, [], Raised(NoPendingApply);
    }
    if !builds {
      reply := Raised(ApplyNotBuilt);
      return;
    }
    if !AckBound(id, e.payload, a) {
      return Quarantined(e), false, [(e.payload.eventId, AckInvalid)], Raised(AckMismatch);
    }
    counted := true;
    e' := e.(ack := Some(a));
    var ok;
    if a.result.Applied? || a.result.NoChange? {
      e', ok := Advance(e', ODOO_APPLIED);
      e', ok := Advance(e', COMPLETED);
    } else if a.result.Failed? && a.resultCode in RETRYABLE_CODES {
      e', ok := Advance(e', RETRY_PENDING);
    } else if a.result.Denied? {
      e', ok := Advance(e', POLICY_DENIED);
    } else if a.result.ConsentBlocked? {
      e', ok := Advance(e', CONSENT_BLOCKED);
    } else if a.result.DncBlocked? {
      e', ok := Advance(e', DNC_BLOCKED);
    } else {
      e', ok := Advance(e', QUARANTINED);
    }
    reply := Done(Status(id, e'.state));
  }

  /** The table lets the event be retried, or - already waiting for a retry - given up. */
  predicate RetryMoves(e: Event, attempts: int, maximum: int) {
    Edge(e.state, RETRY_PENDING) || (attempts >= maximum && e.state.RETRY_PENDING?)
  }

  /** record_retry on the event it found. */
  method RecordRetryOn(e: Event, attempts: int, maximum: int) returns (e': Event, reply: Result<State>)
    ensures e' == RecordRetryEvent(e, attempts, maximum)
    ensures reply == if RetryMoves(e, attempts, maximum) then Done(e'.state) else Raised(InvalidTransition)
    ensures reply.Done? ==> e'.state == if attempts >= maximum then FAILED_TERMINAL else RETRY_PENDING
    ensures reply.Raised? ==> e' == e
  {
    var target := if attempts >= maximum then FAILED_TERMINAL else RETRY_PENDING;
    var ok;
    e' := e;
    if target.FAILED_TERMINAL? && !e.state.RETRY_PENDING? {
      e', ok := Advance(e', RETRY_PENDING);
      if !ok {
        return e', Raised(InvalidTransition);
      }
    }
    e', ok := Advance(e', target);
    reply := if ok then Done(e'.state) else Raised(InvalidTransition);
  }

  class LeadService {
    var config: Config
    var order: seq<Key>
    var events: map<Key, AutoId>
    var records: map<AutoId, Event>
    var idempotency: map<Key, (Payload, Reply)>
    var executions: set<(string, string)>
    var outbox: seq<AutoId>
    var quarantine: seq<(string, Reason)>
    var operations: nat

    function Snapshot(): Service
      reads this
    {
      Service(config, order, events, records, idempotency, executions, outbox, quarantine, operations)
    }

    constructor (c: Config)
      ensures Snapshot() == Service(c, [], map[], map[], map[], {}, [], [], 0) && Inv(Snapshot())
    {
      config, order, events, records, idempotency := c, [], map[], map[], map[];
      executions, outbox, quarantine, operations := {}, [], [], 0;
    }

    method Receive(p: Payload, id: AutoId) returns (reply: Result<Reply>)
      requires id !in records
      modifies this
      ensures (Snapshot(), reply) == LeadAutomation.Receive(old(Snapshot()), p, id)
    {
      var idem := IdempotencyKeyOf(p);
      if idem in idempotency {
        if idempotency[idem].0 != p {
          quarantine := quarantine + [(p.eventId, IdempotencyConflict)];
          return Raised(ConflictingReplay);
        }
        return Done(idempotency[idem].1);
      }
      if !p.wellFormed {
        return Raised(SchemaViolation);
      }
      var e, raised := Open(config, p);
      hide NewEvent, Verdict;
      if e.key !in events {
        order := order + [e.key];
      }
      events := events[e.key := id];
      records := records[id := e];
      if e.state.OUTBOX_PENDING? {
        outbox := outbox + [id];
      }
      if raised {
        return Raised(ConsentUnreadable);
      }
      var answer := Status(id, e.state);
      idempotency := idempotency[idem := (p, answer)];
      reply := Done(answer);
    }

    method FindEvent(name: string, scope: Scope) returns (id: Option<AutoId>)
      requires Inv(Snapshot())
      ensures id == Find(Snapshot(), order, name, scope)
      ensures id.Some? ==> id.value in records
    {
      var n := 0;
      while n < |order|
        invariant 0 <= n <= |order|
        invariant Find(Snapshot(), order, name, scope) == Find(Snapshot(), order[n..], name, scope)
      {
        if Named(Snapshot(), order[n], name, scope) {
          FindsListed(Snapshot(), order, name, scope);
          return Some(events[order[n]]);
        }
        n := n + 1;
      }
      id := None;
    }

    method ReserveDispatch(name: string, scope: Scope) returns (reply: Result<bool>)
      requires Inv(Snapshot())
      modifies this`records
      ensures Snapshot() == Apply(old(Snapshot()), OnEvent(name, scope, Reserve))
      ensures var found := Find(old(Snapshot()), order, name, scope);
              if found.None? then reply == Raised(NotFound)
              else found.value in old(records)
                   && reply == Done(old(records)[found.value].state.OUTBOX_PENDING? && config.enabled && config.binding)
    {
      hide Inv;
      var found := FindEvent(name, scope);
      if found.None? {
        return Raised(NotFound);
      }
      var e := records[found.value];
      hide Transition, Find;
      assert records[found.value := e] == records;
      if !e.state.OUTBOX_PENDING? || !config.enabled || !config.binding {
        return Done(false);
      }
      var ok;
      e, ok := Advance(e, DISPATCH_RESERVED);
      records := records[found.value := e];
      reply := Done(true);
    }

    method ReceiveResult(o: Outcome, scope: Scope) returns (reply: Result<Reply>)
      requires Inv(Snapshot())
      modifies this`records, this`executions, this`quarantine
      ensures Snapshot() == Apply(old(Snapshot()), OnEvent(o.eventId, scope, TakeResult(o)))
      ensures var found := Target(old(Snapshot()), o.eventId, scope, TakeResult(o));
              && (reply == Raised(NotFound) <==> found.None?)
              && (found.Some? ==>
                    && found.value in old(records)
                    && var e := old(records)[found.value];
                    && (reply.Done? <==> e.outcome == Some(o) || AcceptsResult(config, old(executions), e, o))
                    && (reply.Done? ==> reply.value == Status(found.value, ODOO_APPLY_PENDING)))
    {
      hide Inv;
      if scope != o.scope {
        return Raised(NotFound);
      }
      var found := FindEvent(o.eventId, scope);
      if found.None? {
        return Raised(NotFound);
      }
      hide Find, TakeResultEvent, RecordsExecution, AcceptsResult;
      var e, used, notes;
      e, used, notes, reply := TakeResultOn(config, executions, found.value, records[found.value], o);
      records, executions, quarantine := records[found.value := e], used, quarantine + notes;
    }

    method ApplyOdooAck(name: string, a: Ack, scope: Scope, builds: bool) returns (reply: Result<Reply>)
      requires Inv(Snapshot())
      modifies this`records, this`quarantine, this`operations
      ensures Snapshot() == Apply(old(Snapshot()), OnEvent(name, scope, ApplyAck(a, builds)))
      ensures var found := Find(old(Snapshot()), order, name, scope);
              && (reply == Raised(NotFound) <==> found.None?)
              && (found.Some? ==>
                    && found.value in old(records) && found.value in records
                    && var e := old(records)[found.value];
                    && (reply.Done? <==>
                          config.apply && (e.ack == Some(a) || AcceptsAck(config, found.value, e, a, builds)))
                    && (reply.Done? ==> reply.value == Status(found.value, records[found.value].state))
                    && (reply.Done? && e.ack != Some(a) ==> Deserves(a, reply.value.state)))
    {
      hide Inv;
      var found := FindEvent(name, scope);
      if found.None? {
        return Raised(NotFound);
      }
      hide Deserves, Find, ApplyAckEvent, AcceptsAck, AckQuarantines, AckWelcome;
      var e, counted, notes;
      e, counted, notes, reply := ApplyAckOn(config, found.value, records[found.value], a, builds);
      records, quarantine := records[found.value := e], quarantine + notes;
      if counted {
        operations := operations + 1;
      }
    }

    method RecordRetry(name: string, scope: Scope, attempts: int, maximum: int) returns (reply: Result<State>)
      requires Inv(Snapshot())
      modifies this`records
      ensures Snapshot() == Apply(old(Snapshot()), OnEvent(name, scope, Move.RecordRetry(attempts, maximum)))
      ensures var found := Find(old(Snapshot()), order, name, scope);
              if found.None? then reply == Raised(NotFound)
              else found.value in old(records) && found.value in records
                   && reply == if RetryMoves(old(records)[found.value], attempts, maximum)
                               then Done(records[found.value].state) else Raised(InvalidTransition)
    {
      hide Inv;
      var found := FindEvent(name, scope);
      if found.None? {
        return Raised(NotFound);
      }
      hide Find, RecordRetryEvent, RetryMoves;
      var e;
      e, reply := RecordRetryOn(records[found.value], attempts, maximum);
      records := records[found.value := e];
    }

    /** Reports the gaps of the events in scope, and nothing else. */
    method Reconcile(scope: Scope) returns (gaps: seq<Gap>)
      requires forall i | 0 <= i < |order| :: order[i] in events && events[order[i]] in records
      ensures forall g | g in gaps :: exists i | 0 <= i < |order| :: IsGap(Snapshot(), scope, order[i], g)
      ensures forall i, g | 0 <= i < |order| && IsGap(Snapshot(), scope, order[i], g) :: g in gaps
    {
      var s := Snapshot();
      gaps := [];
      var n := 0;
      while n < |order|
        invariant 0 <= n <= |order|
        invariant forall g | g in gaps :: exists i | 0 <= i < |order| :: IsGap(s, scope, order[i], g)
        invariant forall i, g | 0 <= i < n && IsGap(s, scope, order[i], g) :: g in gaps
      {
        var found := GapsOf(s, scope, order[n]);
        gaps := gaps + found;
        n := n + 1;
      }
    }
  }

  predicate IsGap(s: Service, scope: Scope, k: Key, g: Gap) {
    && k in s.events && s.events[k] in s.records && g.id == s.events[k]
    && var e := s.records[s.events[k]];
    && e.payload.scope == scope
    && (if g.WithoutOutbox? then InFlight(e.state) && g.id !in s.outbox else e.state.ODOO_APPLIED? && e.ack.None?)
  }

  method GapsOf(s: Service, scope: Scope, k: Key) returns (gaps: seq<Gap>)
    requires k in s.events && s.events[k] in s.records
    ensures forall g :: g in gaps <==> IsGap(s, scope, k, g)
  {
    var id := s.events[k];
    var e := s.records[id];
    gaps := [];
    if e.payload.scope == scope {
      if InFlight(e.state) && id !in s.outbox {
        gaps := [WithoutOutbox(id)];
      }
      if e.state.ODOO_APPLIED? && e.ack.None? {
        gaps := gaps + [MissingAcknowledgement(id)];
      }
    }
  }

  /** In every state the service can reach the reconciler has nothing to report, for any scope. */
  lemma NoGapsEver(s: Service, ops: seq<Op>, scope: Scope, k: Key, g: Gap)
    requires Inv(s)
    ensures !IsGap(Run(s, ops), scope, k, g)
  {
    RunKeepsInv(s, ops);
    var s' := Run(s, ops);
    hide Run, ExecutionsInv, AcksInv, Walk;
    if k in s'.events {
      assert EventInv(s'.records[s'.events[k]]);
    }
  }
}
