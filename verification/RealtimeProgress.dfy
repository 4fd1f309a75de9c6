/** Catching up is always possible: whatever has happened, some schedule of the steps under way leads an open connection
    there. */
module RealtimeProgress {
  import opened Base
  import opened Realtime

  /** Publications still owed to the connection. */
  function Debt(net: Net, c: ConnId): set<EventId> {
    set id | id in net.publishing && Promised(net.publishing, c, id)
  }

  function Todo(net: Net, c: ConnId): nat {
    if c in net.conns && net.conns[c].phase.Replaying? then |net.conns[c].phase.todo| else 0
  }

  predicate Working(net: Net, c: ConnId) {
    c in net.conns && net.conns[c].isOpen && net.conns[c].phase.Replaying?
  }

  /** Steps that bring nothing new and close nothing. */
  predicate Delivering(op: Op) {
    op.StartFanOut? || op.FanOut? || op.EnqueueReplay? || op.Send?
  }

  lemma SendMoves(net: Net, c: ConnId)
    requires Working(net, c) && net.conns[c].queue != []
    ensures var net' := Apply(net, Send(c));
            Working(net', c) && net'.publishing == net.publishing && net'.conns[c].phase == net.conns[c].phase
            && |net'.conns[c].queue| == |net.conns[c].queue| - 1 && net'.maxPending == net.maxPending
  {
  }

  lemma EnqueueMoves(net: Net, c: ConnId)
    requires Working(net, c) && net.conns[c].phase.todo != [] && |net.conns[c].queue| < net.maxPending
    ensures var net' := Apply(net, EnqueueReplay(c));
            Working(net', c) && net'.publishing == net.publishing && Todo(net', c) == Todo(net, c) - 1
                && net'.maxPending == net.maxPending
  {
  }

  /** Starting a fan-out turns the promise into a debt to every open connection. */
  lemma StartMoves(net: Net, c: ConnId, id: EventId)
    requires Working(net, c) && id in net.publishing && net.publishing[id].Inserted?
    ensures var net' := Apply(net, StartFanOut(id));
            && Debt(net', c) == Debt(net, c) && net'.conns == net.conns && net'.log == net.log
                 && net'.maxPending == net.maxPending
            && id in net'.publishing && net'.publishing[id].Owed? && c in net'.publishing[id].rest
  {
    assert c in Listening(net);
  }

  lemma FanOutMoves(net: Net, c: ConnId, id: EventId)
    requires Working(net, c) && net.conns[c].queue == [] && net.maxPending >= 1
    requires id in net.publishing && net.publishing[id].Owed? && c in net.publishing[id].rest && LogHas(net.log, id)
    ensures var net' := Apply(net, FanOut(id, c));
            Working(net', c) && Debt(net', c) == Debt(net, c) - {id} && net'.maxPending == net.maxPending
  {
    hide RowOf, LogHas, Allows;
  }

  lemma PublishedIsLogged(net: Net, id: EventId)
    requires LogInv(net) && id in net.publishing
    ensures LogHas(net.log, id)
  {
    assert id in IdsOf(net.log);
  }

  lemma Unroll(net: Net, op: Op, ops: seq<Op>)
    ensures Run(net, [op] + ops) == Run(Apply(net, op), ops)
  {
    assert ([op] + ops)[1..] == ops;
  }

  /** From every state the gateway can be in, an open connection past its replay query can be caught up by nothing but
      deliveries already under way: its queue is drained, each owed event is offered while the queue is empty, then the
      replay is enqueued. */
  lemma {:induction false} CanCatchUp(net: Net, c: ConnId) returns (ops: seq<Op>)
    requires Inv(net) && Working(net, c) && net.maxPending >= 1
    ensures c in Run(net, ops).conns && CaughtUp(Run(net, ops), c)
    ensures forall i | 0 <= i < |ops| :: Delivering(ops[i])
    decreases |Debt(net, c)|, Todo(net, c), |net.conns[c].queue|
  {
    hide Inv, Apply;
    if net.conns[c].queue != [] {
      ops := ThenCatchUp(net, c, Send(c));
    } else if Debt(net, c) != {} {
      var id :| id in Debt(net, c);
      ops := PayDebt(net, c, id);
    } else if net.conns[c].phase.todo != [] {
      ops := ThenCatchUp(net, c, EnqueueReplay(c));
    } else {
      ops := [];
      assert forall id | id in net.publishing :: Promised(net.publishing, c, id) ==> id in Debt(net, c);
    }
  }

  lemma {:induction false} ThenCatchUp(net: Net, c: ConnId, op: Op) returns (ops: seq<Op>)
    requires Inv(net) && Working(net, c) && net.maxPending >= 1
    requires (op == Send(c) && net.conns[c].queue != [])
               || (op == EnqueueReplay(c) && net.conns[c].queue == [] && net.conns[c].phase.todo != [])
    ensures c in Run(net, ops).conns && CaughtUp(Run(net, ops), c)
    ensures forall i | 0 <= i < |ops| :: Delivering(ops[i])
    decreases |Debt(net, c)|, Todo(net, c), |net.conns[c].queue|, 0
  {
    StepKeepsInv(net, op);
    if op.Send? {
      SendMoves(net, c);
    } else {
      EnqueueMoves(net, c);
    }
    hide Inv, Apply, CaughtUp;
    var net' := Apply(net, op);
    assert Debt(net', c) == Debt(net, c);
    var rest := CanCatchUp(net', c);
    ops := [op] + rest;
    Unroll(net, op, rest);
  }

  lemma {:induction false} PayDebt(net: Net, c: ConnId, id: EventId) returns (ops: seq<Op>)
    requires Inv(net) && Working(net, c) && net.maxPending >= 1 && net.conns[c].queue == [] && id in Debt(net, c)
    ensures c in Run(net, ops).conns && CaughtUp(Run(net, ops), c)
    ensures forall i | 0 <= i < |ops| :: Delivering(ops[i])
    decreases |Debt(net, c)|, Todo(net, c), |net.conns[c].queue|, 1
  {
    if net.publishing[id].Inserted? {
      StepKeepsInv(net, StartFanOut(id));
      StartMoves(net, c, id);
      hide Inv, Apply, CaughtUp;
      var rest := PayOwed(Apply(net, StartFanOut(id)), c, id);
      ops := [StartFanOut(id)] + rest;
      Unroll(net, StartFanOut(id), rest);
    } else {
      hide Inv, CaughtUp;
      ops := PayOwed(net, c, id);
    }
  }

  lemma {:induction false} PayOwed(net: Net, c: ConnId, id: EventId) returns (ops: seq<Op>)
    requires Inv(net) && Working(net, c) && net.maxPending >= 1 && net.conns[c].queue == []
    requires id in net.publishing && net.publishing[id].Owed? && c in net.publishing[id].rest
    ensures c in Run(net, ops).conns && CaughtUp(Run(net, ops), c)
    ensures forall i | 0 <= i < |ops| :: Delivering(ops[i])
    decreases |Debt(net, c)|, Todo(net, c), |net.conns[c].queue|, 0
  {
    PublishedIsLogged(net, id);
    StepKeepsInv(net, FanOut(id, c));
    FanOutMoves(net, c, id);
    hide Inv, Apply, CaughtUp;
    assert id in Debt(net, c);
    var rest := CanCatchUp(Apply(net, FanOut(id, c)), c);
    ops := [FanOut(id, c)] + rest;
    Unroll(net, FanOut(id, c), rest);
  }
}
