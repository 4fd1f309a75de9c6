/**
 The lead automation service (app/core/lead_automation.py). Events are records named by their
 automation id; the service's dictionary maps (scope, event id) to one of them and may drop an
 older record when a key is used again. Payload hashes are idealised: two payloads have one
 hash exactly when they are equal.
 */
module LeadAutomation {
  import opened Base

  type AutoId = string

  datatype State =
    | RECEIVED | SCHEMA_VALIDATED | POLICY_EVALUATING | POLICY_ALLOWED | POLICY_DENIED | CONSENT_BLOCKED | DNC_BLOCKED
    | OUTBOX_PENDING | DISPATCH_RESERVED | DISPATCHED | N8N_ACKNOWLEDGED | RESULT_RECEIVED | RESULT_VALIDATED
    | ODOO_APPLY_PENDING | ODOO_APPLIED | COMPLETED | RETRY_PENDING | QUARANTINED | FAILED_TERMINAL

  datatype LeadAction =
    | CreateLead | UpdateFields | AssignTeam | AssignUser | ChangeStage | CreateCallback

  datatype Scope = Scope(environment: string, unit: string, campaign: string)

  datatype Key = Key(scope: Scope, id: string)

  datatype Consent = Consent(doNotCall: bool, granted: bool)

  /** wellFormed stands for the field-by-field schema checks, rest for the fields no rule looks at; a consent snapshot
      that is not a mapping is None. */
  datatype Payload = Payload(
    scope: Scope, eventId: string, idempotencyKey: string, wellFormed: bool, company: string, eventType: string,
    action: LeadAction, policyVersion: string, attributes: set<string>, consent: Option<Consent>, rest: string)

  datatype PolicyKey = PolicyKey(scope: Scope, eventType: string, action: LeadAction, version: string)

  datatype Policy = Policy(allow: bool, requiresConsent: bool, contactEligible: bool, allowedFields: set<string>,
                           enabled: bool)

  /** A result reported by the workflow engine. */
  datatype Outcome = Outcome(
    scope: Scope, eventId: string, wellFormed: bool, company: string, action: LeadAction, bindingKey: string,
    execution: string, fields: set<string>, rest: string)

  datatype AckResult = Applied | NoChange | Denied | ConsentBlocked | DncBlocked | AckQuarantined | Failed

  /** An acknowledgement: the identity it is bound to, its verdict, and whether the remaining field checks pass. */
  datatype Ack = Ack(
    event: AutoId, action: LeadAction, company: string, unit: string, campaign: string, policyVersion: string,
    wellFormed: bool, result: AckResult, resultCode: string, rest: string)

  datatype Event = Event(
    key: Key, payload: Payload, state: State, outcome: Option<Outcome>, ack: Option<Ack>, audit: seq<State>)

  datatype Reply = Status(event: AutoId, state: State)

  datatype Reason = IdempotencyConflict | ResultConflict | AckConflict | AckInvalid

  datatype Error =
    | SchemaViolation | ConflictingReplay | NotFound | InvalidTransition | ProcessingDisabled | ApplyDisabled
    | BindingConflict | FieldOutsidePolicy | DuplicateExecution | PolicyMissing | NoPendingApply | ApplyNotBuilt
    | AckMismatch | ConsentUnreadable

  datatype Result<T> = Done(value: T) | Raised(error: Error)

  datatype Config = Config(
    enabled: bool, binding: bool, results: bool, apply: bool, switches: set<LeadAction>,
    policies: map<PolicyKey, Policy>)

  /** order lists the dictionary's keys in insertion order. */
  datatype Service = Service(
    config: Config,
    order: seq<Key>,
    events: map<Key, AutoId>,
    records: map<AutoId, Event>,
    idempotency: map<Key, (Payload, Reply)>,
    executions: set<(string, string)>,
    outbox: seq<AutoId>,
    quarantine: seq<(string, Reason)>,
    operations: nat)

  const BINDING_KEY := "n8n.leads.ingest"
  const PROTECTED_FIELDS: set<string> :=
    {"consent_status", "dnc_status", "environment", "business_unit_key", "campaign_key", "policy_version"}
  const RETRYABLE_CODES: set<string> := {"TEMPORARY_UNAVAILABLE", "ODOO_TEMPORARY_UNAVAILABLE"}

  // ---------------------------------------------------------------- the transition table

  predicate Terminal(s: State) {
    s.POLICY_DENIED? || s.CONSENT_BLOCKED? || s.DNC_BLOCKED? || s.QUARANTINED? || s.FAILED_TERMINAL? || s.COMPLETED?
  }

  predicate Edge(a: State, b: State) {
    match a
    case RECEIVED => b.SCHEMA_VALIDATED? || b.QUARANTINED?
    case SCHEMA_VALIDATED => b.POLICY_EVALUATING?
    case POLICY_EVALUATING => b.POLICY_ALLOWED? || b.POLICY_DENIED? || b.CONSENT_BLOCKED? || b.DNC_BLOCKED?
    case POLICY_ALLOWED => b.OUTBOX_PENDING?
    case OUTBOX_PENDING => b.DISPATCH_RESERVED?
    case DISPATCH_RESERVED => b.DISPATCHED? || b.RETRY_PENDING? || b.QUARANTINED?
    case DISPATCHED => b.N8N_ACKNOWLEDGED? || b.RETRY_PENDING? || b.QUARANTINED?
    case N8N_ACKNOWLEDGED => b.RESULT_RECEIVED? || b.RETRY_PENDING?
    case RESULT_RECEIVED => b.RESULT_VALIDATED? || b.QUARANTINED?
    case RESULT_VALIDATED => b.ODOO_APPLY_PENDING?
    case ODOO_APPLY_PENDING =>
      b.ODOO_APPLIED? || b.POLICY_DENIED? || b.CONSENT_BLOCKED? || b.DNC_BLOCKED? || b.RETRY_PENDING? || b.QUARANTINED?
    case ODOO_APPLIED => b.COMPLETED? || b.QUARANTINED?
    case RETRY_PENDING => b.DISPATCH_RESERVED? || b.ODOO_APPLY_PENDING? || b.FAILED_TERMINAL?
    case _ => false
  }

  /** _transition: the next state is taken and audited, or the call raises. */
  function Transition(e: Event, target: State): Event {
    if Edge(e.state, target) then e.(state := target, audit := e.audit + [target]) else e
  }

  /** A forced quarantine leaves no audit entry. */
  function Quarantined(e: Event): Event {
    e.(state := QUARANTINED)
  }

  // ---------------------------------------------------------------- receive

  function PolicyKeyOf(p: Payload): PolicyKey {
    PolicyKey(p.scope, p.eventType, p.action, p.policyVersion)
  }

  /** The verdict on a well-formed payload, or None if the consent snapshot has to be read and cannot be. */
  function Verdict(c: Config, p: Payload): Option<State> {
    if PolicyKeyOf(p) !in c.policies then Some(POLICY_DENIED) else
      var policy := c.policies[PolicyKeyOf(p)];
      if !policy.enabled || !policy.allow || !c.enabled || p.action !in c.switches then Some(POLICY_DENIED)
      else if policy.contactEligible && p.consent.None? then None
      else if policy.contactEligible && p.consent.value.doNotCall then Some(DNC_BLOCKED)
      else if policy.requiresConsent && p.consent.None? then None
      else if policy.requiresConsent && !p.consent.value.granted then Some(CONSENT_BLOCKED)
      else if !(p.attributes <= policy.allowedFields) then Some(POLICY_DENIED)
      else Some(OUTBOX_PENDING)
  }

  function AuditFor(verdict: Option<State>): seq<State> {
    var evaluated := [SCHEMA_VALIDATED, POLICY_EVALUATING];
    if verdict.None? then evaluated
    else if verdict.value.OUTBOX_PENDING? then evaluated + [POLICY_ALLOWED, OUTBOX_PENDING]
    else evaluated + [verdict.value]
  }

  function NewEvent(c: Config, p: Payload): Event {
    var audit := AuditFor(Verdict(c, p));
    Event(Key(p.scope, p.eventId), p, audit[|audit| - 1], None, None, audit)
  }

  function IdempotencyKeyOf(p: Payload): Key {
    Key(p.scope, p.idempotencyKey)
  }

  /** The payload is new and passes the schema checks. */
  predicate Creates(s: Service, p: Payload) {
    IdempotencyKeyOf(p) !in s.idempotency && p.wellFormed
  }

  function Receive(s: Service, p: Payload, id: AutoId): (Service, Result<Reply>) {
    var idem := IdempotencyKeyOf(p);
    if idem in s.idempotency then
      if s.idempotency[idem].0 == p then (s, Done(s.idempotency[idem].1))
      else (s.(quarantine := s.quarantine + [(p.eventId, IdempotencyConflict)]), Raised(ConflictingReplay))
    else if !p.wellFormed then (s, Raised(SchemaViolation))
    else
      var e := NewEvent(s.config, p);
      var s' := s.(
                order := if e.key in s.events then s.order else s.order + [e.key],
                events := s.events[e.key := id],
                records := s.records[id := e],
                outbox := if e.state.OUTBOX_PENDING? then s.outbox + [id] else s.outbox);
      if Verdict(s.config, p).None? then (s', Raised(ConsentUnreadable))
      else (s'.(idempotency := s.idempotency[idem := (p, Status(id, e.state))]), Done(Status(id, e.state)))
  }

  // ---------------------------------------------------------------- steps of one event

  /** What the methods ask of one event. The apply request may fail to build for reasons outside this model. */
  datatype Move =
    | Reserve
    | MarkDispatched
    | AcknowledgeN8n
    | TakeResult(outcome: Outcome)
    | ApplyAck(ack: Ack, builds: bool)
    | RecordRetry(attempts: int, maximum: int)

  function ReserveEvent(c: Config, e: Event): Event {
    if e.state.OUTBOX_PENDING? && c.enabled && c.binding then Transition(e, DISPATCH_RESERVED) else e
  }

  predicate BindingKept(p: Payload, o: Outcome) {
    o.scope == p.scope && o.company == p.company && o.action == p.action && o.bindingKey == BINDING_KEY
  }

  function ExecutionOf(o: Outcome): (string, string) {
    (o.scope.environment, o.execution)
  }

  predicate FieldsAllowed(c: Config, p: Payload, o: Outcome)
    requires PolicyKeyOf(p) in c.policies
  {
    o.fields <= c.policies[PolicyKeyOf(p)].allowedFields && o.fields !! PROTECTED_FIELDS
  }

  /** receive_result gets as far as recording the execution id. */
  predicate RecordsExecution(c: Config, used: set<(string, string)>, e: Event, o: Outcome) {
    && e.outcome.None? && c.results && o.wellFormed && BindingKept(e.payload, o)
    && PolicyKeyOf(e.payload) in c.policies && FieldsAllowed(c, e.payload, o) && ExecutionOf(o) !in used
  }

  predicate AcceptsResult(c: Config, used: set<(string, string)>, e: Event, o: Outcome) {
    RecordsExecution(c, used, e, o) && e.state.N8N_ACKNOWLEDGED?
  }

  /** The result is refused by forcing the event into quarantine. */
  predicate ResultQuarantines(c: Config, used: set<(string, string)>, e: Event, o: Outcome) {
    if e.outcome.Some? then e.outcome.value != o else
      && c.results && o.wellFormed
      && (!BindingKept(e.payload, o)
          || (PolicyKeyOf(e.payload) in c.policies && (!FieldsAllowed(c, e.payload, o) || ExecutionOf(o) in used)))
  }

  function TakeResultEvent(c: Config, used: set<(string, string)>, e: Event, o: Outcome): Event {
    if ResultQuarantines(c, used, e, o) then Quarantined(e)
    else if AcceptsResult(c, used, e, o) then
      Transition(Transition(Transition(e, RESULT_RECEIVED), RESULT_VALIDATED), ODOO_APPLY_PENDING).(outcome := Some(o))
    else e
  }

  function Classify(a: Ack): AckResult {
    match a.result
    case NoChange => Applied
    case Failed => if a.resultCode in RETRYABLE_CODES then Failed else AckQuarantined
    case other => other
  }

  predicate AckBound(id: AutoId, p: Payload, a: Ack) {
    && a.wellFormed && a.event == id && a.action == p.action && a.company == p.company
    && a.unit == p.scope.unit && a.campaign == p.scope.campaign && a.policyVersion == p.policyVersion
  }

  /** A different acknowledgement is still welcome only while the apply is pending again after a retryable one. */
  predicate AckWelcome(e: Event, a: Ack) {
    e.ack.None? || (e.ack.value != a && Classify(e.ack.value).Failed? && e.state.ODOO_APPLY_PENDING?)
  }

  predicate AcceptsAck(c: Config, id: AutoId, e: Event, a: Ack, builds: bool) {
    c.apply && AckWelcome(e, a) && e.state.ODOO_APPLY_PENDING? && e.outcome.Some? && builds
        && AckBound(id, e.payload, a)
  }

  predicate AckQuarantines(c: Config, id: AutoId, e: Event, a: Ack, builds: bool) {
    && c.apply && e.ack != Some(a)
    && (!AckWelcome(e, a) || !e.state.ODOO_APPLY_PENDING? || e.outcome.None? || (builds && !AckBound(id, e.payload, a)))
  }

  function AckTarget(a: Ack): State {
    match Classify(a)
    case Applied => ODOO_APPLIED
    case Failed => RETRY_PENDING
    case Denied => POLICY_DENIED
    case ConsentBlocked => CONSENT_BLOCKED
    case DncBlocked => DNC_BLOCKED
    case _ => QUARANTINED
  }

  function ApplyAckEvent(c: Config, id: AutoId, e: Event, a: Ack, builds: bool): Event {
    if AckQuarantines(c, id, e, a, builds) then Quarantined(e)
    else if AcceptsAck(c, id, e, a, builds) then
      var e' := Transition(e.(ack := Some(a)), AckTarget(a));
      if AckTarget(a).ODOO_APPLIED? then Transition(e', COMPLETED) else e'
    else e
  }

  /** Exhausted attempts go through RETRY_PENDING to FAILED_TERMINAL. */
  function RecordRetryEvent(e: Event, attempts: int, maximum: int): Event {
    if attempts < maximum then Transition(e, RETRY_PENDING)
    else if e.state.RETRY_PENDING? then Transition(e, FAILED_TERMINAL)
    else if Edge(e.state, RETRY_PENDING) then Transition(Transition(e, RETRY_PENDING), FAILED_TERMINAL)
    else e
  }

  function MoveEvent(s: Service, id: AutoId, e: Event, move: Move): Event {
    match move
    case Reserve => ReserveEvent(s.config, e)
    case MarkDispatched => Transition(e, DISPATCHED)
    case AcknowledgeN8n => Transition(e, N8N_ACKNOWLEDGED)
    case TakeResult(o) => TakeResultEvent(s.config, s.executions, e, o)
    case ApplyAck(a, builds) => ApplyAckEvent(s.config, id, e, a, builds)
    case RecordRetry(attempts, maximum) => RecordRetryEvent(e, attempts, maximum)
  }

  function MoveQuarantine(s: Service, id: AutoId, e: Event, move: Move): seq<(string, Reason)> {
    match move
    case TakeResult(o) => if e.outcome.Some? && e.outcome.value != o then [(o.eventId, ResultConflict)] else []
    case ApplyAck(a, builds) =>
      if !AckQuarantines(s.config, id, e, a, builds) then []
      else if !AckWelcome(e, a) then [(e.payload.eventId, AckConflict)]
      else if e.state.ODOO_APPLY_PENDING? && e.outcome.Some? then [(e.payload.eventId, AckInvalid)]
      else []
    case _ => []
  }

  /** A method applied to an event the service holds. */
  function MoveService(s: Service, id: AutoId, move: Move): Service
    requires id in s.records
  {
    var e := s.records[id];
    s.(records := s.records[id := MoveEvent(s, id, e, move)],
    executions := if move.TakeResult? && RecordsExecution(s.config, s.executions, e, move.outcome)
    then s.executions + {ExecutionOf(move.outcome)} else s.executions,
    quarantine := s.quarantine + MoveQuarantine(s, id, e, move),
    operations := if move.ApplyAck? && AcceptsAck(s.config, id, e, move.ack, move.builds) then s.operations + 1
        else s.operations)
  }

  // ---------------------------------------------------------------- the service

  predicate Named(s: Service, k: Key, name: string, scope: Scope) {
    k in s.events && k.scope == scope && (k.id == name || s.events[k] == name)
  }

  /** _find: the first entry, in insertion order, under this event id or automation id. */
  function Find(s: Service, order: seq<Key>, name: string, scope: Scope): Option<AutoId> {
    if order == [] then None
    else if Named(s, order[0], name, scope) then Some(s.events[order[0]])
    else Find(s, order[1..], name, scope)
  }

  datatype Op =
    | Configure(config: Config)
    | Submit(payload: Payload, id: AutoId)
    | OnEvent(name: string, scope: Scope, move: Move)

  /** receive_result refuses a scope that is not the payload's own. */
  predicate Addressed(name: string, scope: Scope, move: Move) {
    move.TakeResult? ==> move.outcome.scope == scope && move.outcome.eventId == name
  }

  function Target(s: Service, name: string, scope: Scope, move: Move): Option<AutoId> {
    if Addressed(name, scope, move) then Find(s, s.order, name, scope) else None
  }

  /** One method call. Automation ids are fresh. */
  function Apply(s: Service, op: Op): Service {
    match op
    case Configure(config) => s.(config := config)
    case Submit(p, id) => if id in s.records then s else Receive(s, p, id).0
    case OnEvent(name, scope, move) =>
      var target := Target(s, name, scope, move);
      if target.Some? && target.value in s.records then MoveService(s, target.value, move) else s
  }

  function Run(s: Service, ops: seq<Op>): Service
    decreases |ops|
  {
    if ops == [] then s else Run(Apply(s, ops[0]), ops[1..])
  }
}
