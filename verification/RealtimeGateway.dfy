/** The publishing handler as it runs. */
module RealtimeGateway {
  import opened Realtime

  lemma {:induction false} RunAppends(net: Net, ops: seq<Op>, op: Op)
    ensures Run(net, ops + [op]) == Apply(Run(net, ops), op)
    decreases |ops|
  {
    if ops == [] {
      assert ([] + [op])[0] == op && Run(net, [op]) == Run(Apply(net, op), []);
    } else {
      assert (ops + [op])[0] == ops[0] && (ops + [op])[1..] == ops[1..] + [op];
      RunAppends(Apply(net, ops[0]), ops[1..], op);
    }
  }

  /** The connections an event is put into, and those it closes for a full queue. */
  predicate Delivers(conn: Conn, r: Row, maxPending: nat) {
    conn.isOpen && Allows(conn.scope, r.event) && |conn.queue| < maxPending
  }

  /** The connections of done that the row is put into. */
  function Reached(conns: map<ConnId, Conn>, done: set<ConnId>, r: Row, maxPending: nat): set<ConnId> {
    set c | c in conns && c in done && Delivers(conns[c], r, maxPending)
  }

  /** Connections in done have been offered the row. */
  function OfferedTo(conns: map<ConnId, Conn>, done: set<ConnId>, r: Row, maxPending: nat): map<ConnId, Conn> {
    map c | c in conns :: if c in done then Offer(conns[c], r, maxPending) else conns[c]
  }

  lemma OfferOne(conns: map<ConnId, Conn>, done: set<ConnId>, c: ConnId, r: Row, maxPending: nat)
    requires c in conns && c !in done
    ensures c in OfferedTo(conns, done, r, maxPending) && OfferedTo(conns, done, r, maxPending)[c] == conns[c]
    ensures OfferedTo(conns, done, r, maxPending)[c := Offer(conns[c], r, maxPending)] ==
              OfferedTo(conns, done + {c}, r, maxPending)
    ensures |Reached(conns, done + {c}, r, maxPending)| ==
            |Reached(conns, done, r, maxPending)| + if Delivers(conns[c], r, maxPending) then 1 else 0
  {
    hide Offer, Delivers;
    var before, now := Reached(conns, done, r, maxPending), Reached(conns, done + {c}, r, maxPending);
    assert now == if Delivers(conns[c], r, maxPending) then before + {c} else before;
  }

  lemma LastRowFound(log: seq<Row>, r: Row)
    requires forall q | q in log :: q.event.id != r.event.id
    ensures LogHas(log + [r], r.event.id) && RowOf(log + [r], r.event.id) == r
  {
    assert r in log + [r];
  }

  /** How many of the fan-out steps of a run put their event into a queue. */
  ghost function Deliveries(net: Net, ops: seq<Op>): nat {
    if ops == [] then 0 else
      var m := |ops| - 1;
      Deliveries(net, ops[..m]) + if Reaches(Run(net, ops[..m]), ops[m]) then 1 else 0
  }

  predicate Reaches(net: Net, op: Op) {
    && op.FanOut? && op.c in net.conns && LogHas(net.log, op.id)
    && Delivers(net.conns[op.c], RowOf(net.log, op.id), net.maxPending)
  }

  predicate FanOuts(ops: seq<Op>, id: EventId) {
    forall i | 0 <= i < |ops| :: ops[i].FanOut? && ops[i].id == id
  }

  /** A publication whose fan-out is under way, if it is not over, owes the event to connections of the table. */
  predicate Owing(net: Net, id: EventId) {
    id in net.publishing ==> net.publishing[id].Owed? && {} < net.publishing[id].rest <= net.conns.Keys
  }

  ghost function TurnsLeft(net: Net, id: EventId): nat {
    if id in net.publishing && net.publishing[id].Owed? then |net.publishing[id].rest| + 1 else 0
  }

  lemma StepShrinks(net: Net, id: EventId, c: ConnId)
    requires id in net.publishing && Owing(net, id) && c in net.publishing[id].rest && LogHas(net.log, id)
    ensures var net' := Apply(net, FanOut(id, c));
            Owing(net', id) && TurnsLeft(net', id) < TurnsLeft(net, id) && net'.log == net.log
  {
    hide RowOf, LogHas, Offer;
  }

  lemma OneMoreTurn(net: Net, ops: seq<Op>, id: EventId, c: ConnId)
    requires var now := Run(net, ops); c in now.conns && LogHas(now.log, id)
    requires FanOuts(ops, id)
    ensures FanOuts(ops + [FanOut(id, c)], id) && Run(net, ops + [FanOut(id, c)]) == Apply(Run(net, ops), FanOut(id, c))
    ensures var now := Run(net, ops);
            Deliveries(net, ops + [FanOut(id, c)]) ==
            Deliveries(net, ops) + if Delivers(now.conns[c], RowOf(now.log, id), now.maxPending) then 1 else 0
  {
    RunAppends(net, ops, FanOut(id, c));
    assert (ops + [FanOut(id, c)])[..|ops|] == ops;
  }

  class Gateway {
    const maxPending: nat
    var log: seq<Row>
    var publishing: map<EventId, Fan>
    var connections: map<ConnId, Conn>

    constructor (pending: nat)
      ensures maxPending == pending && Snapshot() == Net([], map[], map[], pending)
    {
      maxPending := pending;
      log, publishing, connections := [], map[], map[];
    }

    function Snapshot(): Net
      reads this
    {
      Net(log, publishing, connections, maxPending)
    }

    /** One turn of the fan-out loop, during which nothing else runs: put_nowait, or the close of a connection whose
        queue is full. */
    method OfferNext(id: EventId, c: ConnId) returns (delivered: bool, closed: bool)
      requires LogHas(log, id) && c in connections && id in publishing && publishing[id].Owed?
      requires c in publishing[id].rest
      modifies this`publishing, this`connections
      ensures Snapshot() == Apply(old(Snapshot()), FanOut(id, c))
      ensures delivered <==> Delivers(old(connections)[c], RowOf(log, id), maxPending)
      ensures closed <==> old(connections)[c].isOpen && !connections[c].isOpen
      ensures connections.Keys == old(connections).Keys
    {
      var r := RowOf(log, id);
      hide RowOf, LogHas;
      var conn := connections[c];
      delivered, closed := false, false;
      if conn.isOpen && Allows(conn.scope, r.event) {
        if |conn.queue| < maxPending {
          conn := conn.(queue := conn.queue + [r]);
          delivered := true;
        } else {
          conn := conn.(isOpen := false);
          closed := true;
        }
      }
      connections := connections[c := conn];
      publishing := StillOwed(publishing, id, publishing[id].rest - {c});
    }

    /** The fan-out from one point where the handler may be suspended to the next: it runs on until it has
        closed a connection, whose close it awaits, or owes nobody. What other tasks do in between is the step
        of somebody else. */
    method Resume(id: EventId) returns (finished: bool, delivered: nat, ghost ops: seq<Op>)
      requires LogHas(log, id) && Owing(Snapshot(), id)
      modifies this`publishing, this`connections
      ensures Snapshot() == Run(old(Snapshot()), ops) && FanOuts(ops, id)
      ensures finished ==> id !in publishing
      ensures !finished ==> ops != [] && ops[|ops| - 1].c in connections && !connections[ops[|ops| - 1].c].isOpen
      ensures delivered == Deliveries(old(Snapshot()), ops)
    {
      ops, delivered := [], 0;
      ghost var start := Snapshot();
      assert Run(start, ops) == start;
      hide Run, Apply, LogHas, RowOf, Delivers, Deliveries, TurnsLeft;
      while id in publishing
        invariant LogHas(log, id) && Owing(Snapshot(), id)
        invariant Snapshot() == Run(start, ops) && FanOuts(ops, id) && delivered == Deliveries(start, ops)
        decreases TurnsLeft(Snapshot(), id)
      {
        var c :| c in publishing[id].rest;
        OneMoreTurn(start, ops, id, c);
        StepShrinks(Snapshot(), id, c);
        var put, closed := OfferNext(id, c);
        ops := ops + [FanOut(id, c)];
        delivered := if put then delivered + 1 else delivered;
        if closed {
          return false, delivered, ops;
        }
      }
      finished := true;
    }

    /** The loop over the connections captured in all: each is offered the row once. */
    method OfferToAll(r: Row, all: set<ConnId>, ghost start: Net, ghost sofar: seq<Op>)
      returns (delivered: nat, ghost ops: seq<Op>)
      requires LogHas(log, r.event.id) && RowOf(log, r.event.id) == r
      requires all <= connections.Keys && Snapshot() == Run(start, sofar)
      requires publishing == StillOwed(publishing - {r.event.id}, r.event.id, all)
      modifies this`publishing, this`connections
      ensures Snapshot() == Run(start, ops) && publishing == old(publishing) - {r.event.id}
      ensures connections == OfferedTo(old(connections), all, r, maxPending)
      ensures delivered == |Reached(old(connections), all, r, maxPending)|
    {
      hide Run, Apply, OfferedTo, Offer, Delivers, Reached, RowOf, LogHas, StillOwed;
      ghost var id, base := r.event.id, publishing - {r.event.id};
      var before, todo := connections, all;
      delivered, ops := 0, sofar;
      NothingOffered(before, r, maxPending);
      assert all - todo == {};
      while todo != {}
        invariant todo <= all && publishing == StillOwed(base, id, todo)
        invariant connections == OfferedTo(before, all - todo, r, maxPending)
        invariant delivered == |Reached(before, all - todo, r, maxPending)|
        invariant Snapshot() == Run(start, ops)
        decreases |todo|
      {
        var c :| c in todo;
        RunAppends(start, ops, FanOut(id, c));
        OfferOne(before, all - todo, c, r, maxPending);
        FanStep(Snapshot(), base, id, todo, c, r);
        OwedLess(base, id, todo, c);
        if Delivers(connections[c], r, maxPending) {
          delivered := delivered + 1;
        }
        connections := connections[c := Offer(connections[c], r, maxPending)];
        publishing := StillOwed(publishing, r.event.id, todo - {c});
        assert all - todo + {c} == all - (todo - {c});
        todo := todo - {c};
        ops := ops + [FanOut(id, c)];
      }
      NothingOwed(base, id);
      assert all - todo == all;
    }

    /** Commits the event unless its id is known, then offers it to the connections open at that moment. The effect is
        one uninterrupted run of the publisher's steps; delivered counts the queues it was put into. */
    method Publish(event: Event, ordinal: nat) returns (duplicate: bool, delivered: nat, ghost ops: seq<Op>)
      requires ordinal > 0 && (forall r | r in log :: r.ordinal != ordinal)
      requires event.id in publishing ==> LogHas(log, event.id)
      modifies this`log, this`publishing, this`connections
      ensures Snapshot() == Run(old(Snapshot()), ops)
      ensures duplicate <==> LogHas(old(log), event.id)
      ensures duplicate ==> Snapshot() == old(Snapshot()) && delivered == 0
      ensures !duplicate ==>
                var r := Row(ordinal, event);
                && log == old(log) + [r] && publishing == old(publishing)
                && connections == OfferedTo(old(connections), old(connections).Keys, r, maxPending)
                && delivered == |Reached(old(connections), old(connections).Keys, r, maxPending)|
    {
      if LogHas(log, event.id) {
        return true, 0, [];
      }
      ghost var start := Snapshot();
      var r := Row(ordinal, event);
      LastRowFound(log, r);
      PublicationStarts(start, r);
      hide Run, Apply, OfferedTo, Delivers, Reached, RowOf;
      log := log + [r];
      publishing := StillOwed(publishing, event.id, Listening(Snapshot()));
      delivered, ops := OfferToAll(r, Listening(Snapshot()), start, [Insert(event, ordinal), StartFanOut(event.id)]);
      OnlyOpenOnesCount(start.conns, Listening(start), r, maxPending);
      duplicate := false;
    }
  }

  lemma NothingOffered(conns: map<ConnId, Conn>, r: Row, maxPending: nat)
    ensures OfferedTo(conns, {}, r, maxPending) == conns && Reached(conns, {}, r, maxPending) == {}
  {
    hide Offer;
  }

  lemma OwedLess(base: map<EventId, Fan>, id: EventId, todo: set<ConnId>, c: ConnId)
    requires c in todo && id !in base
    ensures StillOwed(StillOwed(base, id, todo), id, todo - {c}) == StillOwed(base, id, todo - {c})
  {
    assert (base[id := Owed(todo)]) - {id} == base - {id};
  }

  lemma NothingOwed(base: map<EventId, Fan>, id: EventId)
    requires id !in base
    ensures StillOwed(base, id, {}) == base
  {
  }

  lemma FanStep(net: Net, base: map<EventId, Fan>, id: EventId, todo: set<ConnId>, c: ConnId, r: Row)
    requires net.publishing == StillOwed(base, id, todo) && c in todo && c in net.conns
    requires LogHas(net.log, id) && RowOf(net.log, id) == r
    ensures Apply(net, FanOut(id, c)) ==
            Net(net.log, StillOwed(net.publishing, id, todo - {c}),
                net.conns[c := Offer(net.conns[c], r, net.maxPending)], net.maxPending)
  {
    hide Offer, RowOf, LogHas;
  }

  lemma PublicationStarts(net: Net, r: Row)
    requires Fresh(net.log, r.event, r.ordinal) && r.event.id !in net.publishing
    ensures var net' := Run(net, [Insert(r.event, r.ordinal), StartFanOut(r.event.id)]);
            && net' == net.(log := net.log + [r], publishing := StillOwed(net.publishing, r.event.id, Listening(net)))
            && net'.publishing == StillOwed(net'.publishing - {r.event.id}, r.event.id, Listening(net))
            && net'.publishing - {r.event.id} == net.publishing
  {
    hide Fresh;
    var ops := [Insert(r.event, r.ordinal), StartFanOut(r.event.id)];
    var net1 := Apply(net, ops[0]);
    assert ops[1..] == [ops[1]] && ops[1..][1..] == [];
    assert Run(net, ops) == Run(net1, ops[1..]) == Apply(net1, ops[1]);
    assert Listening(net1) == Listening(net);
    assert net.publishing[r.event.id := Inserted] - {r.event.id} == net.publishing;
  }

  lemma OnlyOpenOnesCount(conns: map<ConnId, Conn>, open: set<ConnId>, r: Row, maxPending: nat)
    requires open == set c | c in conns && conns[c].isOpen
    ensures OfferedTo(conns, open, r, maxPending) == OfferedTo(conns, conns.Keys, r, maxPending)
    ensures Reached(conns, open, r, maxPending) == Reached(conns, conns.Keys, r, maxPending)
  {
  }
}
