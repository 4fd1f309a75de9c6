/**
 The lead automation service, said of the fields of payloads, results and acknowledgements:
 which call takes an event into which state, and what every run has to show for it.
 */
module LeadAutomationEvidence {
  import opened Base
  import opened LeadAutomation
  import opened LeadAutomationProofs

  // ---------------------------------------------------------------- the verdict on a payload

  /** The policy of exactly this scope, event type, action and version is there and everything is switched on. */
  predicate Permitted(c: Config, p: Payload) {
    && var key := PolicyKey(p.scope, p.eventType, p.action, p.policyVersion);
    && key in c.policies && c.policies[key].enabled && c.policies[key].allow && c.enabled && p.action in c.switches
  }

  function PolicyFor(c: Config, p: Payload): Policy
    requires Permitted(c, p)
  {
    c.policies[PolicyKey(p.scope, p.eventType, p.action, p.policyVersion)]
  }

  /** Do-not-call comes before consent, consent before the fields; a snapshot that is needed and missing leaves no
      verdict, and what is not permitted is denied without looking at it. */
  lemma VerdictExactly(c: Config, p: Payload)
    ensures var v := Verdict(c, p);
            && (!Permitted(c, p) ==> v == Some(POLICY_DENIED))
            && (Permitted(c, p) ==>
                  && var q := PolicyFor(c, p);
                  && (v.None? <==> (q.contactEligible || q.requiresConsent) && p.consent.None?)
                  && (v == Some(DNC_BLOCKED) <==> q.contactEligible && p.consent.Some? && p.consent.value.doNotCall)
                  && (v == Some(CONSENT_BLOCKED) <==>
                        && q.requiresConsent && p.consent.Some? && !p.consent.value.granted
                        && !(q.contactEligible && p.consent.value.doNotCall))
                  && (v == Some(POLICY_DENIED) ==> exists f | f in p.attributes :: f !in q.allowedFields)
                  && (v == Some(OUTBOX_PENDING) ==> p.attributes <= q.allowedFields)
                  && (v.None? || v.value in {DNC_BLOCKED, CONSENT_BLOCKED, POLICY_DENIED, OUTBOX_PENDING}))
  {
  }

  // ---------------------------------------------------------------- results and acknowledgements

  /** The result is bound to the event's payload and to the one workflow binding. */
  predicate ResultFits(p: Payload, o: Outcome) {
    o.scope == p.scope && o.company == p.company && o.action == p.action && o.bindingKey == "n8n.leads.ingest"
  }

  predicate HasPolicy(c: Config, p: Payload) {
    PolicyKey(p.scope, p.eventType, p.action, p.policyVersion) in c.policies
  }

  /** It sets only fields the policy allows and none that is protected, under an execution id not seen before. */
  predicate ResultAllowed(c: Config, used: set<(string, string)>, p: Payload, o: Outcome)
    requires HasPolicy(c, p)
  {
    && o.fields <= c.policies[PolicyKey(p.scope, p.eventType, p.action, p.policyVersion)].allowedFields
    && (forall f | f in o.fields :: f != "consent_status" && f != "dnc_status" && f != "environment"
                                    && f != "business_unit_key" && f != "campaign_key" && f != "policy_version")
    && (o.scope.environment, o.execution) !in used
  }

  predicate GoodResult(c: Config, used: set<(string, string)>, e: Event, o: Outcome) {
    && e.state.N8N_ACKNOWLEDGED? && e.outcome.None? && c.results && o.wellFormed && ResultFits(e.payload, o)
    && HasPolicy(c, e.payload) && ResultAllowed(c, used, e.payload, o)
  }

  predicate BadResult(c: Config, used: set<(string, string)>, e: Event, o: Outcome) {
    if e.outcome.Some? then e.outcome.value != o
    else c.results && o.wellFormed
         && (!ResultFits(e.payload, o) || (HasPolicy(c, e.payload) && !ResultAllowed(c, used, e.payload, o)))
  }

  /** The acknowledgement is bound to this event, its action, company, unit, campaign and policy version. */
  predicate AckFits(id: AutoId, p: Payload, a: Ack) {
    && a.wellFormed && a.event == id && a.action == p.action && a.company == p.company
    && a.unit == p.scope.unit && a.campaign == p.scope.campaign && a.policyVersion == p.policyVersion
  }

  predicate GoodAck(c: Config, id: AutoId, e: Event, a: Ack, builds: bool) {
    c.apply && e.state.ODOO_APPLY_PENDING? && builds && AckFits(id, e.payload, a)
  }

  /** A second, different acknowledgement, one that nobody waits for, or one for something else. */
  predicate BadAck(c: Config, id: AutoId, e: Event, a: Ack, builds: bool) {
    && c.apply && e.ack != Some(a)
    && (!e.state.ODOO_APPLY_PENDING? || (builds && !AckFits(id, e.payload, a)))
  }

  predicate Succeeds(a: Ack) {
    a.result.Applied? || a.result.NoChange?
  }

  predicate Retryable(a: Ack) {
    && a.result.Failed?
    && (a.resultCode == "TEMPORARY_UNAVAILABLE" || a.resultCode == "ODOO_TEMPORARY_UNAVAILABLE")
  }

  /** The state an accepted acknowledgement leads to. */
  predicate Deserves(a: Ack, s: State) {
    match s
    case COMPLETED => Succeeds(a)
    case RETRY_PENDING => Retryable(a)
    case POLICY_DENIED => a.result.Denied?
    case CONSENT_BLOCKED => a.result.ConsentBlocked?
    case DNC_BLOCKED => a.result.DncBlocked?
    case QUARANTINED => a.result.AckQuarantined? || (a.result.Failed? && !Retryable(a))
    case _ => false
  }

  /** Acknowledged state by state, by the verdict it carries; an event that is not entitled to it keeps what it has. */
  lemma AckIsWritten(c: Config, id: AutoId, e: Event, a: Ack, builds: bool)
    requires EventInv(e)
    ensures var e' := ApplyAckEvent(c, id, e, a, builds);
            if GoodAck(c, id, e, a, builds) then e.ack.None? && e'.ack == Some(a) && Deserves(a, e'.state)
            else e'.ack == e.ack && e'.state == if BadAck(c, id, e, a, builds) then QUARANTINED else e.state
  {
    hide Walk, Admitted;
  }

  lemma ResultIsWritten(c: Config, used: set<(string, string)>, e: Event, o: Outcome)
    requires EventInv(e)
    ensures var e' := TakeResultEvent(c, used, e, o);
            if GoodResult(c, used, e, o) then e'.outcome == Some(o) && e'.state.ODOO_APPLY_PENDING?
            else e'.outcome == e.outcome && e'.state == if BadResult(c, used, e, o) then QUARANTINED else e.state
  {
    hide Walk, Admitted;
  }

  /** What is noted in quarantine: a result that contradicts the stored one, a second acknowledgement of another
      content, and an acknowledgement that is not bound to the event waiting for one. */
  lemma NotesExactly(s: Service, id: AutoId, e: Event, move: Move)
    requires EventInv(e)
    ensures MoveQuarantine(s, id, e, move) ==
              if move.TakeResult? && e.outcome.Some? && e.outcome.value != move.outcome
              then [(move.outcome.eventId, ResultConflict)]
              else if move.ApplyAck? && s.config.apply && e.ack.Some? && e.ack.value != move.ack
              then [(e.payload.eventId, AckConflict)]
              else if move.ApplyAck? && s.config.apply && e.ack.None? && e.state.ODOO_APPLY_PENDING? && move.builds
                      && !AckFits(id, e.payload, move.ack)
              then [(e.payload.eventId, AckInvalid)]
              else []
  {
    hide Walk, Admitted;
  }

  /** An execution id is used up by every result that is sound and allowed and new to its event, also when the event is
      not in the state to take it; by nothing else. */
  lemma ExecutionIsRecorded(s: Service, id: AutoId, move: Move)
    requires id in s.records
    ensures MoveService(s, id, move).executions ==
              if && move.TakeResult? && s.records[id].outcome.None? && s.config.results && move.outcome.wellFormed
                 && ResultFits(s.records[id].payload, move.outcome) && HasPolicy(s.config, s.records[id].payload)
                 && ResultAllowed(s.config, s.executions, s.records[id].payload, move.outcome)
              then s.executions + {(move.outcome.scope.environment, move.outcome.execution)} else s.executions
  {
    hide MoveEvent, MoveQuarantine, AcceptsAck;
  }

  /** A well-formed payload under an idempotency key its scope has not used becomes an event under its event id, listed
      last if the id is new; the answer is remembered exactly if a verdict was reached. */
  lemma ReceiptIsWritten(s: Service, p: Payload, id: AutoId)
    requires id !in s.records
    ensures var (s', reply) := Receive(s, p, id);
            var known, key := Key(p.scope, p.idempotencyKey) in s.idempotency, Key(p.scope, p.eventId);
            && (id in s'.records <==> !known && p.wellFormed)
            && (id in s'.records ==>
                  && s'.records[id].payload == p && s'.records[id].key == key
                  && s'.events == s.events[key := id]
                  && s'.order == (if key in s.events then s.order else s.order + [key])
                  && (reply.Done? <==> Verdict(s.config, p).Some?)
                  && (reply.Done? ==> reply.value == Status(id, Verdict(s.config, p).value))
                  && s'.idempotency ==
                       if reply.Done? then s.idempotency[Key(p.scope, p.idempotencyKey) := (p, reply.value)]
                       else s.idempotency)
            && (id !in s'.records ==>
                  s'.events == s.events && s'.order == s.order && s'.idempotency == s.idempotency)
  {
    ReceiptState(s.config, p);
    hide Verdict, AuditFor;
  }

  // ---------------------------------------------------------------- the state graph

  predicate Dispatching(s: State) {
    s.DISPATCH_RESERVED? || s.DISPATCHED? || s.N8N_ACKNOWLEDGED? || s.ODOO_APPLY_PENDING?
  }

  /** The edges of the graph into each state, after receipt. */
  predicate Cause(s: Service, id: AutoId, e: Event, move: Move, target: State) {
    var c := s.config;
    if move.ApplyAck? && GoodAck(c, id, e, move.ack, move.builds) then Deserves(move.ack, target) else
    match target
    case DISPATCH_RESERVED => move.Reserve? && e.state.OUTBOX_PENDING? && c.enabled && c.binding
    case DISPATCHED => move.MarkDispatched? && e.state.DISPATCH_RESERVED?
    case N8N_ACKNOWLEDGED => move.AcknowledgeN8n? && e.state.DISPATCHED?
    case ODOO_APPLY_PENDING => move.TakeResult? && GoodResult(c, s.executions, e, move.outcome)
    case RETRY_PENDING => move.RecordRetry? && move.attempts < move.maximum && Dispatching(e.state)
    case FAILED_TERMINAL =>
      move.RecordRetry? && move.attempts >= move.maximum && (Dispatching(e.state) || e.state.RETRY_PENDING?)
    case QUARANTINED =>
      || (move.TakeResult? && BadResult(c, s.executions, e, move.outcome))
      || (move.ApplyAck? && BadAck(c, id, e, move.ack, move.builds))
    case _ => false
  }

  lemma ResultsFollow(s: Service, id: AutoId, e: Event, o: Outcome, target: State)
    requires EventInv(e) && e.state != target
    ensures TakeResultEvent(s.config, s.executions, e, o).state == target <==> Cause(s, id, e, TakeResult(o), target)
  {
    ResultIsWritten(s.config, s.executions, e, o);
    hide EventInv, TakeResultEvent, GoodResult, BadResult;
  }

  lemma AcksFollow(s: Service, id: AutoId, e: Event, a: Ack, builds: bool, target: State)
    requires EventInv(e) && e.state != target
    ensures ApplyAckEvent(s.config, id, e, a, builds).state == target <==>
            Cause(s, id, e, ApplyAck(a, builds), target)
  {
    AckIsWritten(s.config, id, e, a, builds);
    hide EventInv, ApplyAckEvent, GoodAck, BadAck;
  }

  lemma OthersFollow(s: Service, id: AutoId, e: Event, move: Move, target: State)
    requires e.state != target && !move.TakeResult? && !move.ApplyAck?
    ensures MoveEvent(s, id, e, move).state == target <==> Cause(s, id, e, move, target)
  {
  }

  /** An event enters a state if and only if the call is one of that state's causes. */
  lemma EntersExactly(s: Service, id: AutoId, e: Event, move: Move, target: State)
    requires EventInv(e) && e.state != target
    ensures MoveEvent(s, id, e, move).state == target <==> Cause(s, id, e, move, target)
  {
    hide EventInv, Cause, TakeResultEvent, ApplyAckEvent;
    match move
    case TakeResult(o) => ResultsFollow(s, id, e, o, target);
    case ApplyAck(a, builds) => AcksFollow(s, id, e, a, builds, target);
    case _ => OthersFollow(s, id, e, move, target);
  }

  // ---------------------------------------------------------------- evidence over runs

  predicate Empty(s: Service) {
    s.order == [] && s.events == map[] && s.records == map[] && s.outbox == [] && s.operations == 0
  }

  lemma EmptyInv(s: Service)
    requires Empty(s)
    ensures Inv(s)
  {
  }

  lemma {:induction false} LastCall(start: Service, ops: seq<Op>)
    requires ops != []
    ensures Run(start, ops) == Apply(Run(start, ops[..|ops| - 1]), ops[|ops| - 1])
    decreases |ops|
  {
    hide Apply;
    if |ops| > 1 {
      LastCall(Apply(start, ops[0]), ops[1..]);
      assert ops[..|ops| - 1][1..] == ops[1..][..|ops| - 2];
    } else {
      assert ops[..0] == [] && ops[1..] == [];
    }
  }

  /** The call moves this very record. */
  predicate Moves(s: Service, op: Op, id: AutoId) {
    op.OnEvent? && Target(s, op.name, op.scope, op.move) == Some(id)
  }

  /** A record changes only by a call that found it, and appears only by the receipt of its payload. */
  lemma StepMoves(s: Service, op: Op, id: AutoId)
    ensures id in s.records ==>
              && id in Apply(s, op).records
              && Apply(s, op).records[id] ==
                   if Moves(s, op, id) then MoveEvent(s, id, s.records[id], op.move) else s.records[id]
    ensures id !in s.records && id in Apply(s, op).records ==>
              op.Submit? && op.id == id && Apply(s, op).records[id] == NewEvent(s.config, op.payload)
  {
    hide MoveEvent, NewEvent, Verdict, RecordsExecution, AcceptsAck, MoveQuarantine, Find;
  }

  /** Whatever holds of a record at the end of a run was made true by one of its calls. */
  lemma {:induction false} TurningPoint(start: Service, ops: seq<Op>, id: AutoId, p: Event -> bool) returns (n: nat)
    requires Empty(start) && id in Run(start, ops).records && p(Run(start, ops).records[id])
    ensures n < |ops|
    ensures var before := Run(start, ops[..n]);
            && Inv(before)
            && (if id in before.records
                then && !p(before.records[id]) && Moves(before, ops[n], id)
                     && p(MoveEvent(before, id, before.records[id], ops[n].move))
                else ops[n].Submit? && ops[n].id == id && p(NewEvent(before.config, ops[n].payload)))
    decreases |ops|
  {
    assert ops != [];
    EmptyInv(start);
    hide Inv, Apply, MoveEvent, NewEvent, Run, Empty, Moves;
    var m := |ops| - 1;
    var prefix := ops[..m];
    var before := Run(start, prefix);
    RunKeepsInv(start, prefix);
    LastCall(start, ops);
    StepMoves(before, ops[m], id);
    if id in before.records && p(before.records[id]) {
      n := TurningPoint(start, prefix, id, p);
      assert prefix[..n] == ops[..n] && prefix[n] == ops[n];
    } else {
      n := m;
    }
  }

  /** The n-th call received the payload and left the event in this state at once: a verdict, or - when no verdict could
      be given - policy evaluation. */
  predicate ReceivedIn(start: Service, ops: seq<Op>, n: nat, id: AutoId, s: State)
    requires n < |ops|
  {
    && ops[n].Submit? && ops[n].id == id
    && var verdict := Verdict(Run(start, ops[..n]).config, ops[n].payload);
       if verdict.None? then s.POLICY_EVALUATING? else s == verdict.value
  }

  lemma ReceiptState(c: Config, p: Payload)
    ensures NewEvent(c, p).state == if Verdict(c, p).None? then POLICY_EVALUATING else Verdict(c, p).value
  {
    hide Verdict;
  }

  /** Every event of every run is in the state its payload's verdict gave it, or was brought into its state by one of
      that state's causes. */
  lemma EveryStateHasItsCause(start: Service, ops: seq<Op>, id: AutoId) returns (n: nat)
    requires Empty(start) && id in Run(start, ops).records
    ensures n < |ops|
    ensures var before, s := Run(start, ops[..n]), Run(start, ops).records[id].state;
            if id in before.records
            then Moves(before, ops[n], id) && Cause(before, id, before.records[id], ops[n].move, s)
            else ReceivedIn(start, ops, n, id, s)
  {
    var s := Run(start, ops).records[id].state;
    n := TurningPoint(start, ops, id, (e: Event) => e.state == s);
    var before := Run(start, ops[..n]);
    hide Run, NewEvent, MoveEvent, Cause, Verdict, Moves;
    if id in before.records {
      assert EventInv(before.records[id]) by { hide DictionaryInv, OutboxInv, ExecutionsInv, AcksInv, EventInv; }
      EntersExactly(before, id, before.records[id], ops[n].move, s);
    } else {
      ReceiptState(before.config, ops[n].payload);
    }
  }

  /** What an event's fields prove about each other. A completed event holds an acknowledgement of success; an event
      that holds an acknowledgement is in the state it deserves, quarantined, or given up after a retryable one; a
      result is bound to its payload. */
  predicate Evidence(id: AutoId, e: Event) {
    && (e.state.COMPLETED? ==> e.ack.Some?)
    && (e.ack.Some? ==>
          && AckFits(id, e.payload, e.ack.value)
          && (Deserves(e.ack.value, e.state) || e.state.QUARANTINED?
              || (e.state.FAILED_TERMINAL? && Retryable(e.ack.value))))
    && (e.outcome.Some? ==> e.outcome.value.wellFormed && ResultFits(e.payload, e.outcome.value))
  }

  lemma OtherMovesKeepFields(s: Service, id: AutoId, e: Event, move: Move)
    requires !move.TakeResult? && !move.ApplyAck?
    ensures var e' := MoveEvent(s, id, e, move); e'.ack == e.ack && e'.outcome == e.outcome && e'.payload == e.payload
  {
  }

  lemma MoveKeepsEvidence(s: Service, id: AutoId, e: Event, move: Move)
    requires EventInv(e) && Evidence(id, e)
    ensures Evidence(id, MoveEvent(s, id, e, move))
  {
    var e' := MoveEvent(s, id, e, move);
    MoveKeepsEvent(s, id, e, move);
    OutcomeMoves(s, id, e, move);
    match move
    case TakeResult(o) =>
      ResultIsWritten(s.config, s.executions, e, o);
      assert e'.ack == e.ack by { hide BindingKept, FieldsAllowed, Walk, Admitted; }
      hide TakeResultEvent, AckFits, Walk, Admitted, BindingKept, FieldsAllowed;
    case ApplyAck(a, builds) =>
      AckIsWritten(s.config, id, e, a, builds);
      hide ApplyAckEvent, Walk, Admitted, AckFits, ResultFits;
    case _ =>
      OtherMovesKeepFields(s, id, e, move);
      if e'.state != e.state {
        EntersExactly(s, id, e, move, e'.state);
      }
      hide MoveEvent, Walk, Admitted, AckFits, ResultFits;
  }

  lemma NewEventHasEvidence(id: AutoId, c: Config, p: Payload)
    ensures Evidence(id, NewEvent(c, p))
  {
    hide PolicyKeyOf;
    assert Verdict(c, p).Some? ==> !Verdict(c, p).value.COMPLETED?;
  }

  lemma {:induction false} RunKeepsEvidence(start: Service, ops: seq<Op>, id: AutoId)
    requires Empty(start) && id in Run(start, ops).records
    ensures Evidence(id, Run(start, ops).records[id])
    decreases |ops|
  {
    assert ops != [];
    EmptyInv(start);
    hide Inv, Apply, MoveEvent, NewEvent, Run, Empty, Moves, Evidence;
    var m := |ops| - 1;
    var before := Run(start, ops[..m]);
    RunKeepsInv(start, ops[..m]);
    LastCall(start, ops);
    StepMoves(before, ops[m], id);
    if id in before.records {
      RunKeepsEvidence(start, ops[..m], id);
      RecordIsValid(before, id);
      if Moves(before, ops[m], id) {
        MoveKeepsEvidence(before, id, before.records[id], ops[m].move);
      }
    } else {
      NewEventHasEvidence(id, before.config, ops[m].payload);
    }
  }

  lemma RecordIsValid(s: Service, id: AutoId)
    requires Inv(s) && id in s.records
    ensures EventInv(s.records[id])
  {
    hide DictionaryInv, OutboxInv, ExecutionsInv, AcksInv, EventInv;
  }

  /** Odoo's word is final: an event of a run is completed if and only if it holds an acknowledgement of success and was
      not quarantined afterwards. */
  lemma CompletedMeansApplied(start: Service, ops: seq<Op>, id: AutoId)
    requires Empty(start) && id in Run(start, ops).records
    ensures var e := Run(start, ops).records[id];
            e.state.COMPLETED? <==> e.ack.Some? && Succeeds(e.ack.value) && !e.state.QUARANTINED?
  {
    RunKeepsEvidence(start, ops, id);
    hide Run, AckFits, ResultFits;
  }

  // ---------------------------------------------------------------- scopes

  lemma {:induction false} FindStaysInScope(s: Service, order: seq<Key>, name: string, scope: Scope)
    requires DictionaryInv(s.order, s.events, s.records) && Find(s, order, name, scope).Some?
    ensures var id := Find(s, order, name, scope).value; id in s.records && s.records[id].key.scope == scope
    decreases |order|
  {
    if !Named(s, order[0], name, scope) {
      FindStaysInScope(s, order[1..], name, scope);
    }
  }

  /** The call cannot be about this event: it names another scope, or it is no call on an event at all. */
  predicate Outside(op: Op, scope: Scope) {
    op.OnEvent? ==> op.scope != scope
  }

  lemma OutsideStep(s: Service, op: Op, id: AutoId)
    requires Inv(s) && id in s.records && Outside(op, s.records[id].payload.scope)
    ensures id in Apply(s, op).records && Apply(s, op).records[id] == s.records[id]
  {
    RecordIsValid(s, id);
    hide EventsInv, OutboxInv, ExecutionsInv, AcksInv;
    StepMoves(s, op, id);
    if Moves(s, op, id) {
      FindStaysInScope(s, s.order, op.name, op.scope);
    }
    hide Apply, Find, DictionaryInv, MoveEvent;
  }

  /** Over every run: an event is touched only by calls that name its own environment, unit and campaign. */
  lemma {:induction false} ScopesAreIsolated(s: Service, ops: seq<Op>, id: AutoId)
    requires Inv(s) && id in s.records
    requires forall i | 0 <= i < |ops| :: Outside(ops[i], s.records[id].payload.scope)
    ensures id in Run(s, ops).records && Run(s, ops).records[id] == s.records[id]
    decreases |ops|
  {
    if ops != [] {
      hide Inv, Apply, Outside;
      StepKeepsInv(s, ops[0]);
      OutsideStep(s, ops[0], id);
      ScopesAreIsolated(Apply(s, ops[0]), ops[1..], id);
    }
  }

  /** The i-th key of the dictionary goes by this name in this scope: the event's own id, or the automation id it maps
      to. */
  predicate GoesBy(s: Service, i: nat, name: string, scope: Scope)
    requires i < |s.order|
  {
    && s.order[i] in s.events && s.order[i].scope == scope
    && (s.order[i].id == name || s.events[s.order[i]] == name)
  }

  /** A call on an event is about the first entry that goes by the name given, or about none. */
  lemma FindsTheFirst(s: Service, name: string, scope: Scope) returns (i: nat)
    ensures Find(s, s.order, name, scope).None? ==> i == |s.order|
    ensures Find(s, s.order, name, scope).Some? ==>
              i < |s.order| && GoesBy(s, i, name, scope) && Find(s, s.order, name, scope) == Some(s.events[s.order[i]])
    ensures forall k | 0 <= k < i && k < |s.order| :: !GoesBy(s, k, name, scope)
  {
    i := 0;
    assert s.order[0..] == s.order;
    while i < |s.order| && !Named(s, s.order[i], name, scope)
      invariant i <= |s.order| && Find(s, s.order, name, scope) == Find(s, s.order[i..], name, scope)
      invariant forall k | 0 <= k < i :: !GoesBy(s, k, name, scope)
    {
      assert s.order[i..][1..] == s.order[i + 1..];
      i := i + 1;
    }
  }

  // ---------------------------------------------------------------- idempotency keys

  lemma KeyAppears(s: Service, op: Op, k: Key)
    requires k in Apply(s, op).idempotency && (k !in s.idempotency || Apply(s, op).idempotency[k] != s.idempotency[k])
    ensures k !in s.idempotency && op.Submit? && op.payload.scope == k.scope && op.payload.idempotencyKey == k.id
    ensures Apply(s, op).idempotency[k].0 == op.payload && Apply(s, op).idempotency[k].1.event == op.id
  {
    hide MoveEvent, NewEvent, Verdict, RecordsExecution, AcceptsAck, MoveQuarantine, Find;
  }

  /** A payload counts as a replay only if one with its scope and its idempotency key was received before: what the
      service answers it with is the answer to that very payload. */
  lemma {:induction false} EveryKeyWasReceived(start: Service, ops: seq<Op>, k: Key) returns (n: nat)
    requires start.idempotency == map[] && k in Run(start, ops).idempotency
    ensures n < |ops| && ops[n].Submit? && ops[n].payload == Run(start, ops).idempotency[k].0
    ensures ops[n].payload.scope == k.scope && ops[n].payload.idempotencyKey == k.id
    ensures Run(start, ops).idempotency[k].1.event == ops[n].id
    decreases |ops|
  {
    assert ops != [];
    hide Apply, Run;
    var m := |ops| - 1;
    var before := Run(start, ops[..m]);
    LastCall(start, ops);
    if k in before.idempotency && before.idempotency[k] == Run(start, ops).idempotency[k] {
      n := EveryKeyWasReceived(start, ops[..m], k);
    } else {
      KeyAppears(before, ops[m], k);
      n := m;
    }
  }
}
