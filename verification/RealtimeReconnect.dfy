/** A run of the gateway in which an event is lost across a reconnect (agent_desktop/src/realtime.ts:60). */
module RealtimeReconnect {
  import opened Base
  import opened Realtime
  import opened RealtimeClient

  const HERE := Scope("t", "b", "u", "a", {"c"})

  function Sample(ordinal: nat, id: EventId): Row {
    Row(ordinal, Event(id, "t", "b", "u", "a", "c"))
  }

  const ONE := Sample(1, "1")
  const TWO := Sample(2, "2")
  const THREE := Sample(3, "3")

  /** A connection resuming after event 1 is sent the live event 3 before the replayed event 2, and breaks. */
  function Overtaken(): seq<Op> {
    [Register(0, HERE, Some("1")), Insert(THREE.event, 3), StartFanOut("3"), FanOut("3", 0),
     Snapshot(0, [TWO, THREE]), Send(0), Close(0)]
  }

  /** The next connection names event 3, the last one handled. */
  function Reconnected(): seq<Op> {
    [Register(1, HERE, Some("3")), Snapshot(1, [])]
  }

  const QUIET := Net([ONE, TWO], map[], map[], 10)

  function First(isOpen: bool, phase: Phase, after: nat, queue: seq<Row>, sent: seq<Row>): Conn {
    Conn(HERE, Some("1"), isOpen, phase, after, None, queue, sent, 2, {"1", "2"})
  }

  lemma {:induction false} Unroll(net: Net, ops: seq<Op>)
    requires ops != []
    ensures Run(net, ops) == Run(Apply(net, ops[0]), ops[1..])
  {
  }

  function Logged(): seq<Row> {
    [ONE, TWO, THREE]
  }

  function Registering(): Net {
    Net([ONE, TWO], map[], map[0 := First(true, Registered, 0, [], [])], 10)
  }

  function Queued(): Net {
    Net(Logged(), map[], map[0 := First(true, Registered, 0, [THREE], [])], 10)
  }

  lemma FirstRegisters()
    ensures Apply(QUIET, Register(0, HERE, Some("1"))) == Registering()
  {
    assert ONE in QUIET.log && TWO in QUIET.log;
    assert SettledFor(QUIET, 0) == {"1", "2"};
    assert QUIET.conns[0 := First(true, Registered, 0, [], [])] == map[0 := First(true, Registered, 0, [], [])];
  }

  lemma LiveEventIsQueued()
    ensures Run(Registering(), [Insert(THREE.event, 3), StartFanOut("3"), FanOut("3", 0)]) == Queued()
  {
    var ops := [Insert(THREE.event, 3), StartFanOut("3"), FanOut("3", 0)];
    var n1 := Registering();
    var n2 := Net(Logged(), map["3" := Inserted], n1.conns, 10);
    var n3 := Net(Logged(), map["3" := Owed({0})], n1.conns, 10);
    assert Apply(n1, ops[0]) == n2;
    assert Apply(n2, ops[1]) == n3 by { assert Listening(n2) == {0}; }
    assert THREE in Logged() && RowOf(Logged(), "3") == THREE;
    assert Offer(n3.conns[0], THREE, 10) == First(true, Registered, 0, [THREE], []);
    assert Apply(n3, ops[2]) == Queued() by {
      assert {0} - {0} == {};
      assert n3.publishing - {"3"} == map[];
      assert n3.conns[0 := First(true, Registered, 0, [THREE], [])] == Queued().conns;
    }
    hide Apply;
    Unroll(n1, ops);
    Unroll(n2, ops[1..]);
    Unroll(n3, ops[2..]);
  }

  function Broken(): Conn {
    First(false, Replaying([TWO, THREE]), 1, [], [THREE])
  }

  function Lost(): Net {
    Net(Logged(), map[], map[0 := Broken()], 10)
  }

  lemma ReplayOf(after: nat, rows: seq<Row>)
    requires (after == 1 && rows == [TWO, THREE]) || (after == 3 && rows == [])
    ensures IsReplay(Logged(), HERE, after, REPLAY_LIMIT, rows) && !Missing(Logged(), HERE, after, rows)
  {
    forall r | r in Logged() ensures r == ONE || r == TWO || r == THREE {
    }
  }

  lemma QueryIsAnswered()
    ensures Replayed(Queued(), Queued().conns[0], [TWO, THREE]) == First(true, Replaying([TWO, THREE]), 1, [THREE], [])
  {
    assert After(Logged(), "1") == 1 by { AfterIsOrdinal(Logged(), "1"); assert ONE in Logged(); }
    ReplayOf(1, [TWO, THREE]);
    hide IsReplay, Missing, After;
  }

  /** The first connection has replayed, with event 3 still queued or already sent. */
  function Replaying1(queue: seq<Row>, sent: seq<Row>): Net {
    Net(Logged(), map[], map[0 := First(true, Replaying([TWO, THREE]), 1, queue, sent)], 10)
  }

  lemma SnapshotIsTaken()
    ensures Apply(Queued(), Snapshot(0, [TWO, THREE])) == Replaying1([THREE], [])
  {
    QueryIsAnswered();
    hide Replayed;
    var c1 := First(true, Replaying([TWO, THREE]), 1, [THREE], []);
    assert Queued().conns[0 := c1] == map[0 := c1];
  }

  lemma ThreeIsSent()
    ensures Apply(Replaying1([THREE], []), Send(0)) == Replaying1([], [THREE])
  {
    var c1 := Replaying1([THREE], []).conns[0];
    assert c1.queue[1..] == [] && c1.sent + [c1.queue[0]] == [THREE];
    assert Replaying1([THREE], []).conns[0 := Replaying1([], [THREE]).conns[0]] == Replaying1([], [THREE]).conns;
  }

  lemma ConnectionBreaks()
    ensures Apply(Replaying1([], [THREE]), Close(0)) == Lost()
  {
    assert Replaying1([], [THREE]).conns[0 := Broken()] == Lost().conns;
  }

  lemma ReplayIsOvertaken()
    ensures Run(Queued(), [Snapshot(0, [TWO, THREE]), Send(0), Close(0)]) == Lost()
  {
    var ops := [Snapshot(0, [TWO, THREE]), Send(0), Close(0)];
    hide Apply, Queued, Lost, Replaying1;
    SnapshotIsTaken();
    ThreeIsSent();
    ConnectionBreaks();
    Unroll(Queued(), ops);
    Unroll(Replaying1([THREE], []), ops[1..]);
    Unroll(Replaying1([], [THREE]), ops[2..]);
  }

  function Second(phase: Phase, after: nat): Conn {
    Conn(HERE, Some("3"), true, phase, after, None, [], [], 3, {"1", "2", "3"})
  }

  lemma NothingIsReplayed()
    ensures Run(Lost(), [Register(1, HERE, Some("3")), Snapshot(1, [])]) ==
            Net(Logged(), map[], map[0 := Broken(), 1 := Second(Replaying([]), 3)], 10)
  {
    var ops := [Register(1, HERE, Some("3")), Snapshot(1, [])];
    var n1 := Net(Logged(), map[], map[0 := Broken(), 1 := Second(Registered, 0)], 10);
    var n2 := Net(Logged(), map[], map[0 := Broken(), 1 := Second(Replaying([]), 3)], 10);
    assert Apply(Lost(), ops[0]) == n1 by {
      assert ONE in Logged() && TWO in Logged() && THREE in Logged();
      assert SettledFor(Lost(), 1) == {"1", "2", "3"};
      assert Lost().conns[1 := Second(Registered, 0)] == n1.conns;
    }
    assert After(Logged(), "3") == 3;
    ReplayOf(3, []);
    assert Apply(n1, ops[1]) == n2 by {
      hide IsReplay, Missing, After;
      assert Replayed(n1, n1.conns[1], []) == Second(Replaying([]), 3);
      assert n1.conns[1 := Second(Replaying([]), 3)] == n2.conns;
    }
    hide Apply;
    Unroll(Lost(), ops);
    Unroll(n1, ops[1..]);
  }

  lemma {:induction false} RunConcat(net: Net, a: seq<Op>, b: seq<Op>)
    ensures Run(net, a + b) == Run(Run(net, a), b)
    decreases |a|
  {
    if a == [] {
      assert a + b == b;
    } else {
      assert (a + b)[0] == a[0] && (a + b)[1..] == a[1..] + b;
      RunConcat(Apply(net, a[0]), a[1..], b);
    }
  }

  function End(): Net {
    Net(Logged(), map[], map[0 := Broken(), 1 := Second(Replaying([]), 3)], 10)
  }

  lemma WholeRun()
    ensures Run(QUIET, Overtaken() + Reconnected()) == End()
  {
    FirstRegisters();
    LiveEventIsQueued();
    ReplayIsOvertaken();
    NothingIsReplayed();
    var live := [Insert(THREE.event, 3), StartFanOut("3"), FanOut("3", 0)];
    var broken := [Snapshot(0, [TWO, THREE]), Send(0), Close(0)];
    assert Overtaken() == [Register(0, HERE, Some("1"))] + (live + broken);
    hide Apply, Lost, Queued, Registering, End;
    RunConcat(QUIET, Overtaken(), Reconnected());
    Unroll(QUIET, Overtaken());
    assert Overtaken()[1..] == live + broken;
    RunConcat(Registering(), live, broken);
  }

  /** Across reconnects there can be a gap. Event 2 is in scope and published, the client was connected twice and named
      the last event it had handled, the second connection is caught up - and event 2 never reached the handler. */
  lemma EventIsLostAcrossReconnects()
    ensures Inv(QUIET)
    ensures var net := Run(QUIET, Overtaken() + Reconnected());
            && 0 in net.conns && 1 in net.conns && CaughtUp(net, 1) && TWO in net.log && Allows(HERE, TWO.event)
            && FirstArrivals(Frames(net.conns[0].sent) + Frames(net.conns[1].sent)) == ["3"]
                 && net.conns[1].last == Some("3")
  {
    WholeRun();
    assert TWO in Logged();
    var frames := Frames([THREE]) + Frames([]);
    assert frames == [Delivery("3")];
    assert frames[..0] == [] && FirstArrivals(frames) == ["3"];
  }
}
