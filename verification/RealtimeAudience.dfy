/** Who gets which event, said of the fields of events and connections. */
module RealtimeAudience {
  import opened Base
  import opened Realtime

  /** The event is for this tenant, unit, user and agent, and for one of the session's campaigns. */
  predicate IsFor(e: Event, scope: Scope) {
    e.tenant == scope.tenant && e.unit == scope.unit && e.user == scope.user && e.agent == scope.agent
    && e.campaign in scope.campaigns
  }

  /** Nobody else's events: whatever a connection was ever sent or has queued was published, and is for its session. */
  lemma NobodyElsesEvents(start: Net, ops: seq<Op>, c: ConnId, r: Row)
    requires Inv(start) && c in Run(start, ops).conns
    requires r in Run(start, ops).conns[c].sent || r in Run(start, ops).conns[c].queue
    ensures r in Run(start, ops).log && IsFor(r.event, Run(start, ops).conns[c].scope)
  {
    RunKeepsInv(start, ops);
    var net := Run(start, ops);
    hide Run, LogInv, NoGap, Anchored;
    assert ConnInv(net, c, net.conns[c]);
    assert Has(net.conns[c], r);
  }

  /** The audience of an event, exactly. A connection registered in state before and caught up since was sent an event
      of the log if and only if the event is for its session and was not yet committed at registration, or was then
      still to be offered to it, or lies between the named event and the end of the replay. */
  lemma AudienceExactly(before: Net, c: ConnId, scope: Scope, last: Option<EventId>, ops: seq<Op>, r: Row)
    requires Inv(before) && c !in before.conns
    requires var net := Run(Apply(before, Register(c, scope, last)), ops);
             c in net.conns && CaughtUp(net, c) && r in net.log
    ensures var conn := Run(Apply(before, Register(c, scope, last)), ops).conns[c];
            var id := r.event.id;
            r in conn.sent <==>
            && IsFor(r.event, scope)
            && (|| r !in before.log
                || (id in before.publishing && (before.publishing[id].Inserted? || c in before.publishing[id].rest))
                || (last.Some? && conn.after < r.ordinal && (conn.upTo.Some? ==> r.ordinal <= conn.upTo.value)))
  {
    var start := Apply(before, Register(c, scope, last));
    var net := Run(start, ops);
    StepKeepsInv(before, Register(c, scope, last));
    RunKeepsRegistration(start, ops, c);
    assert net.conns[c].scope == scope;
    if Allows(scope, r.event) {
      hide Run, Apply, Inv;
      ReconnectBringsBackExactly(before, c, scope, last, ops, r);
    } else {
      hide Run, Apply, Inv;
      CaughtUpConnectionsHaveNoGap(start, ops, c);
    }
  }

  // ---------------------------------------------------------------- how long a replay is

  /** The logged events a cut replay covered. */
  function Covered(log: seq<Row>, conn: Conn): set<Row>
    requires conn.upTo.Some?
  {
    set r | r in log && IsFor(r.event, conn.scope) && conn.after < r.ordinal <= conn.upTo.value
  }

  /** A replay was cut only after a thousand events. */
  ghost predicate CutsAreLong(net: Net) {
    forall c | c in net.conns && net.conns[c].upTo.Some? :: |Covered(net.log, net.conns[c])| >= 1000
  }

  predicate Ascending(rows: seq<Row>) {
    forall i, k | 0 <= i < k < |rows| :: rows[i].ordinal < rows[k].ordinal
  }

  function SetOf(rows: seq<Row>): set<Row> {
    set r | r in rows
  }

  lemma OneMoreRow(rows: seq<Row>, r: Row)
    requires r !in rows
    ensures |SetOf(rows + [r])| == |SetOf(rows)| + 1
  {
    assert SetOf(rows + [r]) == SetOf(rows) + {r};
  }

  lemma {:induction false} AscendingRows(rows: seq<Row>)
    requires Ascending(rows)
    ensures |SetOf(rows)| == |rows|
  {
    if rows != [] {
      var init, r := rows[..|rows| - 1], rows[|rows| - 1];
      assert Ascending(init) && r !in init;
      assert rows == init + [r];
      hide Ascending, SetOf;
      AscendingRows(init);
      OneMoreRow(init, r);
    } else {
      assert SetOf(rows) == {};
    }
  }

  lemma CutReplay(net: Net, conn: Conn, rows: seq<Row>)
    requires conn.last.Some? && IsReplay(net.log, conn.scope, After(net.log, conn.last.value), REPLAY_LIMIT, rows)
    requires Missing(net.log, conn.scope, After(net.log, conn.last.value), rows) && rows != []
    ensures |Covered(net.log, Replayed(net, conn, rows))| >= 1000
  {
    AscendingRows(rows);
    var conn' := Replayed(net, conn, rows);
    assert |rows| == REPLAY_LIMIT;
    assert forall r | r in rows :: r.ordinal <= rows[|rows| - 1].ordinal;
    hide After, Missing, Ascending;
    SubsetSize(SetOf(rows), Covered(net.log, conn'));
  }

  lemma LongerLog(log: seq<Row>, log': seq<Row>, conn: Conn)
    requires log <= log' && conn.upTo.Some?
    ensures |Covered(log, conn)| <= |Covered(log', conn)|
  {
    SubsetSize(Covered(log, conn), Covered(log', conn));
  }

  lemma StepKeepsCuts(net: Net, op: Op)
    requires CutsAreLong(net)
    ensures CutsAreLong(Apply(net, op))
  {
    var net' := Apply(net, op);
    assert net.log <= net'.log by { hide Offer, RowOf, LogHas, Replayed, Covered; }
    forall c | c in net'.conns && net'.conns[c].upTo.Some? ensures |Covered(net'.log, net'.conns[c])| >= 1000 {
      if c in net.conns && SameReplay(net.conns[c], net'.conns[c]) {
        LongerLog(net.log, net'.log, net'.conns[c]);
      } else {
        OnlyTheQueryCuts(net, op, c);
        CutReplay(net, net.conns[c], op.rows);
      }
    }
  }

  predicate SameReplay(a: Conn, b: Conn) {
    a.scope == b.scope && a.after == b.after && a.upTo == b.upTo
  }

  lemma OnlyTheQueryCuts(net: Net, op: Op, c: ConnId)
    requires c in Apply(net, op).conns && Apply(net, op).conns[c].upTo.Some?
    requires c !in net.conns || !SameReplay(net.conns[c], Apply(net, op).conns[c])
    ensures op.Snapshot? && op.c == c && c in net.conns && Apply(net, op).log == net.log
    ensures var conn := net.conns[c];
            && conn.last.Some? && Apply(net, op).conns[c] == Replayed(net, conn, op.rows)
            && IsReplay(net.log, conn.scope, After(net.log, conn.last.value), REPLAY_LIMIT, op.rows)
            && Missing(net.log, conn.scope, After(net.log, conn.last.value), op.rows) && op.rows != []
  {
    hide IsReplay, Missing, After, RowOf, LogHas, Allows;
  }

  /** In every run: a connection misses the end of its replay only if a thousand of its events lay before. */
  lemma {:induction false} RunKeepsCuts(net: Net, ops: seq<Op>)
    requires CutsAreLong(net)
    ensures CutsAreLong(Run(net, ops))
    decreases |ops|
  {
    if ops != [] {
      hide CutsAreLong, Apply;
      StepKeepsCuts(net, ops[0]);
      RunKeepsCuts(Apply(net, ops[0]), ops[1..]);
    }
  }
}
