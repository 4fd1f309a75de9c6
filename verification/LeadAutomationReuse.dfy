/** A run of the lead automation service after which its operation count and its acknowledged events differ. */
module LeadAutomationReuse {
  import opened Base
  import opened LeadAutomation
  import opened LeadAutomationProofs

  const HERE := Scope("production", "unit", "campaign")
  const KEY := Key(HERE, "event")
  const POLICY := Policy(true, false, false, {}, true)
  const CONFIG := Config(true, true, true, true, {CreateLead}, map[PolicyKey(HERE, "lead", CreateLead, "1") := POLICY])
  const EMPTY := Service(CONFIG, [], map[], map[], map[], {}, [], [], 0)
  const RESULT := Outcome(HERE, "event", true, "COMPANY-1", CreateLead, BINDING_KEY, "execution", {}, "")
  const ACK := Ack("LAE-1", CreateLead, "COMPANY-1", "unit", "campaign", "1", true, Applied, "", "")

  function Lead(idempotencyKey: string): Payload {
    Payload(HERE, "event", idempotencyKey, true, "COMPANY-1", "lead", CreateLead, "1", {}, None, "")
  }

  /** One lead from receipt to acknowledgement. */
  function Acknowledged(): seq<Op> {
    [Submit(Lead("first"), "LAE-1"), OnEvent("event", HERE, Reserve), OnEvent("event", HERE, MarkDispatched),
     OnEvent("event", HERE, AcknowledgeN8n), OnEvent("event", HERE, TakeResult(RESULT)),
     OnEvent("event", HERE, ApplyAck(ACK, true))]
  }

  /** The service holds this one event, under its key, and has not seen the second idempotency key. */
  predicate Holds(s: Service, e: Event, used: set<(string, string)>) {
    && s.config == CONFIG && s.order == [KEY] && s.events == map[KEY := "LAE-1"] && s.records == map["LAE-1" := e]
    && s.executions == used && Key(HERE, "second") !in s.idempotency
  }

  lemma EventMoves(s: Service, e: Event, used: set<(string, string)>, move: Move)
    requires Holds(s, e, used) && (move.TakeResult? ==> move.outcome == RESULT)
    ensures var s' := Apply(s, OnEvent("event", HERE, move)); Holds(s', MoveEvent(s, "LAE-1", e, move), s'.executions)
    ensures !move.TakeResult? ==> Apply(s, OnEvent("event", HERE, move)).executions == used
  {
    hide MoveEvent, RecordsExecution, AcceptsAck, MoveQuarantine;
    assert Named(s, KEY, "event", HERE);
    assert Find(s, s.order, "event", HERE) == Some("LAE-1");
    assert s.records["LAE-1" := MoveEvent(s, "LAE-1", e, move)] == map["LAE-1" := MoveEvent(s, "LAE-1", e, move)];
  }

  function AuditTo(n: nat): seq<State> {
    [SCHEMA_VALIDATED, POLICY_EVALUATING, POLICY_ALLOWED, OUTBOX_PENDING, DISPATCH_RESERVED, DISPATCHED,
     N8N_ACKNOWLEDGED][..if n <= 7 then n else 7]
  }

  function Waiting(n: nat): Event
    requires 4 <= n <= 7
  {
    Event(KEY, Lead("first"), AuditTo(n)[n - 1], None, None, AuditTo(n))
  }

  lemma Received()
    ensures Holds(Apply(EMPTY, Submit(Lead("first"), "LAE-1")), Waiting(4), {})
  {
    assert Verdict(CONFIG, Lead("first")) == Some(OUTBOX_PENDING);
    assert NewEvent(CONFIG, Lead("first")) == Waiting(4);
    hide NewEvent, Verdict;
    assert EMPTY.events[KEY := "LAE-1"] == map[KEY := "LAE-1"];
    assert EMPTY.records["LAE-1" := Waiting(4)] == map["LAE-1" := Waiting(4)];
    assert IdempotencyKeyOf(Lead("first")) != Key(HERE, "second");
  }

  lemma Walks(s: Service)
    requires s.config == CONFIG && s.executions == {}
    ensures MoveEvent(s, "LAE-1", Waiting(4), Reserve) == Waiting(5)
    ensures MoveEvent(s, "LAE-1", Waiting(5), MarkDispatched) == Waiting(6)
    ensures MoveEvent(s, "LAE-1", Waiting(6), AcknowledgeN8n) == Waiting(7)
  {
    assert AuditTo(4) + [DISPATCH_RESERVED] == AuditTo(5);
    assert AuditTo(5) + [DISPATCHED] == AuditTo(6);
    assert AuditTo(6) + [N8N_ACKNOWLEDGED] == AuditTo(7);
  }

  lemma TakesItsResult(s: Service)
    requires s.config == CONFIG && s.executions == {}
    ensures var e := MoveEvent(s, "LAE-1", Waiting(7), TakeResult(RESULT));
            && e.state.ODOO_APPLY_PENDING? && e.outcome == Some(RESULT) && e.ack.None?
            && e.payload == Lead("first") && e.key == KEY
  {
    assert PolicyKeyOf(Lead("first")) in CONFIG.policies;
    assert RESULT.fields !! PROTECTED_FIELDS;
  }

  lemma TakesItsAck(s: Service, e: Event)
    requires s.config == CONFIG && e.state.ODOO_APPLY_PENDING? && e.outcome.Some? && e.ack.None?
    requires e.payload == Lead("first")
    ensures MoveEvent(s, "LAE-1", e, ApplyAck(ACK, true)).ack == Some(ACK)
  {
  }

  lemma Unrolled(s: Service, ops: seq<Op>)
    requires ops != []
    ensures Run(s, ops) == Run(Apply(s, ops[0]), ops[1..])
  {
  }

  lemma LeadIsAcknowledged() returns (e: Event, used: set<(string, string)>)
    ensures Holds(Run(EMPTY, Acknowledged()), e, used) && e.ack == Some(ACK)
  {
    var ops := Acknowledged();
    var s1 := Apply(EMPTY, ops[0]);
    var s2 := Apply(s1, ops[1]);
    var s3 := Apply(s2, ops[2]);
    var s4 := Apply(s3, ops[3]);
    var s5 := Apply(s4, ops[4]);
    var s6 := Apply(s5, ops[5]);
    Received();
    hide Apply, MoveEvent, Waiting;
    EventMoves(s1, Waiting(4), {}, Reserve);
    Walks(s1);
    EventMoves(s2, Waiting(5), {}, MarkDispatched);
    Walks(s2);
    EventMoves(s3, Waiting(6), {}, AcknowledgeN8n);
    Walks(s3);
    EventMoves(s4, Waiting(7), {}, TakeResult(RESULT));
    TakesItsResult(s4);
    var pending := MoveEvent(s4, "LAE-1", Waiting(7), TakeResult(RESULT));
    EventMoves(s5, pending, s5.executions, ApplyAck(ACK, true));
    TakesItsAck(s5, pending);
    e, used := MoveEvent(s5, "LAE-1", pending, ApplyAck(ACK, true)), s6.executions;
    hide Holds;
    Unrolled(EMPTY, ops);
    Unrolled(s1, ops[1..]);
    Unrolled(s2, ops[2..]);
    Unrolled(s3, ops[3..]);
    Unrolled(s4, ops[4..]);
    Unrolled(s5, ops[5..]);
  }

  lemma SecondReuses(s: Service, e: Event, used: set<(string, string)>)
    requires Holds(s, e, used) && e.ack == Some(ACK)
    ensures ReusesAckedId(s, Submit(Lead("second"), "LAE-2"))
  {
    assert KEY in AckedKeys(s);
  }

  /** After one lead is acknowledged, a second payload with its event id under a new idempotency key leaves the service
      with one counted operation and no event that holds an acknowledgement - in that state and in every later one. */
  lemma CountsCanDiffer(ops: seq<Op>)
    ensures var s := Run(EMPTY, Acknowledged());
            && Inv(s) && ReusesAckedId(s, Submit(Lead("second"), "LAE-2"))
            && var later := Run(Apply(s, Submit(Lead("second"), "LAE-2")), ops);
            later.operations != |AckedKeys(later)|
  {
    var s := Run(EMPTY, Acknowledged());
    InitialInv(CONFIG);
    RunKeepsInv(EMPTY, Acknowledged());
    var e, used := LeadIsAcknowledged();
    SecondReuses(s, e, used);
    var reuse := [Submit(Lead("second"), "LAE-2")];
    assert (reuse + ops)[1..] == ops;
    hide Inv, Apply, Holds, ReusesAckedId, AckedKeys, Acknowledged, Run;
    BrokenForGood(s, reuse + ops);
    Unrolled(s, reuse + ops);
  }
}
