/**
 The realtime gateway (websocket_gateway/app.py) as a state machine. Publishing is an insert
 followed by a fan-out over the connections registered when the fan-out starts; connecting is
 a registration followed by a replay query and the enqueueing of its rows. All of these steps
 interleave freely. Messages are the event rows themselves, so that a message carries its
 ordinal for the statements below; the wire format does not.
 */
module Realtime {
  import opened Base

  type EventId = string
  type ConnId = nat

  const REPLAY_LIMIT: nat := 1000

  datatype Event = Event(id: EventId, tenant: string, unit: string, user: string, agent: string, campaign: string)

  datatype Scope = Scope(tenant: string, unit: string, user: string, agent: string, campaigns: set<string>)

  datatype Row = Row(ordinal: nat, event: Event)

  /** Before and after the replay query of a connection. */
  datatype Phase = Registered | Replaying(todo: seq<Row>)

  /** after and upTo bound the ordinals the replay covered (upTo only when it was cut at its limit); joined and settled
      remember the log length at registration and the events no publisher was going to offer the connection any more. */
  datatype Conn = Conn(
    scope: Scope,
    last: Option<EventId>,
    isOpen: bool,
    phase: Phase,
    after: nat,
    upTo: Option<nat>,
    queue: seq<Row>,
    sent: seq<Row>,
    joined: nat,
    settled: set<EventId>)

  /** A publication whose row is committed: not yet fanned out, or still owed to some connections. */
  datatype Fan = Inserted | Owed(rest: set<ConnId>)

  /** The event table in commit order (ordinals are drawn before commit and need not follow it), the publications under
      way and every connection ever made. A closed connection takes no further part. */
  datatype Net = Net(log: seq<Row>, publishing: map<EventId, Fan>, conns: map<ConnId, Conn>, maxPending: nat)

  datatype Op =
    | Insert(event: Event, ordinal: nat)
    | StartFanOut(id: EventId)
    | FanOut(id: EventId, c: ConnId)
    | Register(c: ConnId, scope: Scope, last: Option<EventId>)
    | Snapshot(c: ConnId, rows: seq<Row>)
    | EnqueueReplay(c: ConnId)
    | Send(c: ConnId)
    | Close(c: ConnId)

  predicate Allows(scope: Scope, e: Event) {
    && e.tenant == scope.tenant && e.unit == scope.unit && e.user == scope.user && e.agent == scope.agent
    && e.campaign in scope.campaigns
  }

  // ---------------------------------------------------------------- the replay query

  predicate Matches(r: Row, scope: Scope, after: nat) {
    r.ordinal > after && Allows(scope, r.event)
  }

  /** ORDER BY ordinal LIMIT limit over the matching rows: ascending, only matching rows, and nothing smaller
      left out. */
  ghost predicate IsReplay(log: seq<Row>, scope: Scope, after: nat, limit: nat, rows: seq<Row>) {
    && |rows| <= limit
    && (forall i, k | 0 <= i < k < |rows| :: rows[i].ordinal < rows[k].ordinal)
    && (forall r | r in rows :: r in log && Matches(r, scope, after))
    && (forall r | r in log && Matches(r, scope, after) && r !in rows ::
          |rows| == limit && forall q | q in rows :: q.ordinal < r.ordinal)
  }

  /** The ordinal the query starts after: that of the last event the client names, or 0 if it is unknown. */
  function After(log: seq<Row>, last: EventId): nat {
    if log == [] then 0
    else if log[|log| - 1].event.id == last then log[|log| - 1].ordinal
    else After(log[..|log| - 1], last)
  }

  predicate DistinctRows(log: seq<Row>) {
    && (forall i, k | 0 <= i < k < |log| :: log[i].ordinal != log[k].ordinal && log[i].event.id != log[k].event.id)
  }

  lemma {:induction false} AfterIsOrdinal(log: seq<Row>, last: EventId)
    requires DistinctRows(log)
    ensures forall r | r in log && r.event.id == last :: After(log, last) == r.ordinal
    ensures (forall r | r in log :: r.event.id != last) ==> After(log, last) == 0
  {
    if log != [] && log[|log| - 1].event.id != last {
      var init := log[..|log| - 1];
      AfterIsOrdinal(init, last);
      forall r | r in log && r.event.id == last ensures r in init {
        assert r != log[|log| - 1];
      }
    } else if log != [] {
      forall r | r in log && r.event.id == last ensures r == log[|log| - 1] {
        var i :| 0 <= i < |log| && log[i] == r;
      }
    }
  }

  lemma {:induction false} LeastRow(rows: set<Row>) returns (least: Row)
    requires rows != {}
    ensures least in rows && forall q | q in rows :: least.ordinal <= q.ordinal
    decreases |rows|
  {
    least :| least in rows;
    if rows != {least} {
      var other := LeastRow(rows - {least});
      if other.ordinal < least.ordinal {
        least := other;
      }
      assert forall q | q in rows :: q == least || q in rows - {least} || other.ordinal <= q.ordinal;
    }
  }

  lemma DistinctOrdinals(log: seq<Row>, a: Row, b: Row)
    requires DistinctRows(log) && a in log && b in log && a != b
    ensures a.ordinal != b.ordinal
  {
    var i :| 0 <= i < |log| && log[i] == a;
    var k :| 0 <= k < |log| && log[k] == b;
  }

  /** The selection under way: rows are the least matching rows in order, left the others. */
  predicate Selecting(log: seq<Row>, scope: Scope, after: nat, rows: seq<Row>, left: set<Row>) {
    && (forall i, k | 0 <= i < k < |rows| :: rows[i].ordinal < rows[k].ordinal)
    && (forall r | r in rows :: r in log && Matches(r, scope, after))
    && (forall r | r in left :: r in log && Matches(r, scope, after))
    && (forall q, r | q in rows && r in left :: q.ordinal < r.ordinal)
    && (forall r | r in log && Matches(r, scope, after) :: r in rows || r in left)
  }

  lemma LeastIsNext(log: seq<Row>, scope: Scope, after: nat, rows: seq<Row>, left: set<Row>, next: Row)
    requires DistinctRows(log) && Selecting(log, scope, after, rows, left)
    requires next in left && forall q | q in left :: next.ordinal <= q.ordinal
    ensures Selecting(log, scope, after, rows + [next], left - {next})
  {
    hide DistinctRows, Matches;
    forall q | q in left && q != next ensures next.ordinal < q.ordinal {
      DistinctOrdinals(log, q, next);
    }
  }

  /** The replay query evaluated: the least matching rows are taken off one by one. */
  method Replay(log: seq<Row>, scope: Scope, last: EventId, limit: nat) returns (rows: seq<Row>)
    requires DistinctRows(log)
    ensures IsReplay(log, scope, After(log, last), limit, rows)
  {
    hide DistinctRows, After, Matches;
    var after := After(log, last);
    var left := set r | r in log && Matches(r, scope, after);
    rows := [];
    while left != {} && |rows| < limit
      invariant |rows| <= limit && Selecting(log, scope, after, rows, left)
      decreases |left|
    {
      ghost var least := LeastRow(left);
      var next :| next in left && forall q | q in left :: next.ordinal <= q.ordinal;
      LeastIsNext(log, scope, after, rows, left, next);
      rows := rows + [next];
      left := left - {next};
    }
  }

  lemma ReplayPrefix(log: seq<Row>, scope: Scope, after: nat, limit: nat, a: seq<Row>, b: seq<Row>, n: nat)
    requires DistinctRows(log) && IsReplay(log, scope, after, limit, a) && IsReplay(log, scope, after, limit, b)
    requires n < |a| && n <= |b| && a[..n] == b[..n]
    ensures n < |b| && b[n].ordinal <= a[n].ordinal
  {
    assert a[n] !in b[..n] by {
      forall i | 0 <= i < n ensures b[..n][i] != a[n] {
        assert a[..n][i] == a[i] && a[i].ordinal < a[n].ordinal;
      }
    }
    if a[n] in b {
      var i :| 0 <= i < |b| && b[i] == a[n];
      assert i >= n;
    } else {
      assert |b| == limit;
      assert b[n] in b;
    }
  }

  /** The query has one answer. */
  lemma {:induction false} ReplayIsUnique(log: seq<Row>, scope: Scope, after: nat, limit: nat, a: seq<Row>, b: seq<Row>,
                                          n: nat)
    requires DistinctRows(log) && IsReplay(log, scope, after, limit, a) && IsReplay(log, scope, after, limit, b)
    requires n <= |a| && n <= |b| && a[..n] == b[..n]
    ensures a == b
    decreases |a| - n
  {
    if n < |a| {
      ReplayPrefix(log, scope, after, limit, a, b, n);
      ReplayPrefix(log, scope, after, limit, b, a, n);
      assert a[n] in a && b[n] in b;
      var i :| 0 <= i < |log| && log[i] == a[n];
      var k :| 0 <= k < |log| && log[k] == b[n];
      assert a[n] == b[n];
      assert a[..n + 1] == a[..n] + [a[n]] && b[..n + 1] == b[..n] + [b[n]];
      ReplayIsUnique(log, scope, after, limit, a, b, n + 1);
    } else if n < |b| {
      ReplayPrefix(log, scope, after, limit, b, a, n);
    } else {
      assert a == a[..n] && b == b[..n];
    }
  }

  /** A truncated replay resumes without loss or repetition: querying again after its last row continues it exactly. */
  lemma ReplayResumes(log: seq<Row>, scope: Scope, after: nat, limit: nat, more: nat, rows: seq<Row>, next: seq<Row>)
    requires IsReplay(log, scope, after, limit, rows) && rows != [] && |rows| == limit
    requires IsReplay(log, scope, rows[|rows| - 1].ordinal, more, next)
    requires DistinctRows(log)
    ensures IsReplay(log, scope, after, limit + more, rows + next)
  {
    var edge := rows[|rows| - 1];
    var all := rows + next;
    assert edge in rows;
    forall i, k | 0 <= i < k < |all| ensures all[i].ordinal < all[k].ordinal {
      if i < |rows| <= k {
        assert all[k] in next && Matches(all[k], scope, edge.ordinal);
        assert i == |rows| - 1 || rows[i].ordinal < edge.ordinal;
      }
    }
    forall r | r in log && Matches(r, scope, after) && r !in all
      ensures |all| == limit + more && forall q | q in all :: q.ordinal < r.ordinal
    {
      assert edge.ordinal < r.ordinal;
      assert Matches(r, scope, edge.ordinal);
    }
  }

  // ---------------------------------------------------------------- steps

  ghost predicate Missing(log: seq<Row>, scope: Scope, after: nat, rows: seq<Row>) {
    exists r | r in log && r !in rows :: Matches(r, scope, after)
  }

  predicate LogHas(log: seq<Row>, id: EventId) {
    exists r | r in log :: r.event.id == id
  }

  predicate Fresh(log: seq<Row>, event: Event, ordinal: nat) {
    ordinal > 0 && forall r | r in log :: r.event.id != event.id && r.ordinal != ordinal
  }

  function IdsOf(log: seq<Row>): set<EventId> {
    set r | r in log :: r.event.id
  }

  function Listening(net: Net): set<ConnId> {
    set c | c in net.conns && net.conns[c].isOpen
  }

  function StillOwed(publishing: map<EventId, Fan>, id: EventId, rest: set<ConnId>): map<EventId, Fan> {
    if rest == {} then publishing - {id} else publishing[id := Owed(rest)]
  }

  /** The row of a committed event. */
  function RowOf(log: seq<Row>, id: EventId): Row
    requires LogHas(log, id)
    ensures RowOf(log, id) in log && RowOf(log, id).event.id == id
  {
    if log[|log| - 1].event.id == id then log[|log| - 1] else
      assert LogHas(log[..|log| - 1], id) by { var r :| r in log && r.event.id == id; assert r in log[..|log| - 1]; }
      RowOf(log[..|log| - 1], id)
  }

  /** put_nowait: append, or close the connection if its queue is full. Out-of-scope events are skipped. */
  function Offer(conn: Conn, r: Row, maxPending: nat): Conn {
    if !conn.isOpen || !Allows(conn.scope, r.event) then conn
    else if |conn.queue| < maxPending then conn.(queue := conn.queue + [r])
    else conn.(isOpen := false)
  }

  /** The replay query runs only for a client that names a last event. */
  ghost function Replayed(net: Net, conn: Conn, rows: seq<Row>): Conn {
    if conn.last.None? then conn.(phase := Replaying([])) else
      var after := After(net.log, conn.last.value);
      if IsReplay(net.log, conn.scope, after, REPLAY_LIMIT, rows)
      then conn.(phase := Replaying(rows), after := after,
      upTo := if Missing(net.log, conn.scope, after, rows) && rows != [] then Some(rows[|rows| - 1].ordinal) else None)
      else conn
  }

  function Put(net: Net, c: ConnId, conn: Conn): Net {
    net.(conns := net.conns[c := conn])
  }

  /** No publisher is going to offer these logged events to connection c. */
  function SettledFor(net: Net, c: ConnId): set<EventId> {
    set id | id in IdsOf(net.log) && !Promised(net.publishing, c, id)
  }

  function NewConn(net: Net, c: ConnId, scope: Scope, last: Option<EventId>): Conn {
    Conn(scope, last, true, Registered, 0, None, [], [], |net.log|, SettledFor(net, c))
  }

  ghost function Apply(net: Net, op: Op): Net {
    match op
    case Insert(event, ordinal) =>
      if Fresh(net.log, event, ordinal)
      then net.(log := net.log + [Row(ordinal, event)], publishing := net.publishing[event.id := Inserted])
      else net
    case StartFanOut(id) =>
      if id in net.publishing && net.publishing[id].Inserted?
      then net.(publishing := StillOwed(net.publishing, id, Listening(net)))
      else net
    case FanOut(id, c) =>
      if id in net.publishing && net.publishing[id].Owed? && c in net.publishing[id].rest && c in net.conns
          && LogHas(net.log, id)
      then Put(net, c, Offer(net.conns[c], RowOf(net.log, id), net.maxPending)).(
      publishing := StillOwed(net.publishing, id, net.publishing[id].rest - {c}))
      else net
    case Register(c, scope, last) =>
      if c in net.conns then net
      else Put(net, c, NewConn(net, c, scope, last))
    case Snapshot(c, rows) =>
      if c in net.conns && net.conns[c].isOpen && net.conns[c].phase.Registered?
      then Put(net, c, Replayed(net, net.conns[c], rows))
      else net
    case EnqueueReplay(c) =>
      if c in net.conns && net.conns[c].isOpen && net.conns[c].phase.Replaying? && net.conns[c].phase.todo != []
         && |net.conns[c].queue| < net.maxPending
      then var conn := net.conns[c]; Put(net, c,
          conn.(phase := Replaying(conn.phase.todo[1..]), queue := conn.queue + [conn.phase.todo[0]]))
      else net
    case Send(c) =>
      if c in net.conns && net.conns[c].isOpen && net.conns[c].queue != []
      then var conn := net.conns[c]; Put(net, c, conn.(queue := conn.queue[1..], sent := conn.sent + [conn.queue[0]]))
      else net
    case Close(c) =>
      if c in net.conns then Put(net, c, net.conns[c].(isOpen := false)) else net
  }

  ghost function Run(net: Net, ops: seq<Op>): Net
    decreases |ops|
  {
    if ops == [] then net else Run(Apply(net, ops[0]), ops[1..])
  }

  // ---------------------------------------------------------------- the invariant

  /** The message has been sent, is queued, or is waiting to be replayed. */
  predicate Has(conn: Conn, r: Row) {
    r in conn.sent || r in conn.queue || (conn.phase.Replaying? && r in conn.phase.todo)
  }

  /** A publisher still has to offer the event to this connection. */
  predicate Promised(publishing: map<EventId, Fan>, c: ConnId, id: EventId) {
    id in publishing && (publishing[id].Inserted? || c in publishing[id].rest)
  }

  /** Rows the replay asked for and, if it was cut at its limit, got. */
  predicate Wanted(conn: Conn, r: Row) {
    && conn.phase.Replaying? && conn.last.Some? && r.ordinal > conn.after
    && (conn.upTo.None? || r.ordinal <= conn.upTo.value)
  }

  /** Events a connection is to be given: not settled when it registered - committed later, or still to be offered - or
      replayed. */
  predicate Due(conn: Conn, r: Row) {
    Allows(conn.scope, r.event) && (r.event.id !in conn.settled || Wanted(conn, r))
  }

  ghost predicate NoGap(log: seq<Row>, publishing: map<EventId, Fan>, c: ConnId, conn: Conn) {
    forall r | r in log && Due(conn, r) :: Has(conn, r) || Promised(publishing, c, r.event.id)
  }

  /** Nothing but logged events that are due. */
  ghost predicate NothingElse(log: seq<Row>, conn: Conn) {
    forall r | Has(conn, r) :: r in log && Due(conn, r)
  }

  /** A named event that was logged when the connection registered is where its replay starts. */
  predicate Anchored(log: seq<Row>, conn: Conn) {
    forall i | 0 <= i < |log| && i < conn.joined && conn.phase.Replaying? && conn.last == Some(log[i].event.id) ::
      conn.after == log[i].ordinal
  }

  ghost predicate ConnInv(net: Net, c: ConnId, conn: Conn) {
    && |conn.queue| <= net.maxPending
    && conn.joined <= |net.log|
    && conn.settled <= IdsOf(net.log) && (forall id | id in conn.settled :: !Promised(net.publishing, c, id))
    && NothingElse(net.log, conn) && Anchored(net.log, conn)
    && (conn.isOpen ==> NoGap(net.log, net.publishing, c, conn))
  }

  ghost predicate LogInv(net: Net) {
    && DistinctRows(net.log)
    && (forall r | r in net.log :: r.ordinal > 0)
    && net.publishing.Keys <= IdsOf(net.log)
  }

  ghost predicate Inv(net: Net) {
    LogInv(net) && forall c | c in net.conns :: ConnInv(net, c, net.conns[c])
  }

  // ---------------------------------------------------------------- every step keeps it

  lemma SameRow(log: seq<Row>, q: Row, r: Row)
    requires DistinctRows(log) && q in log && r in log && r.event.id == q.event.id
    ensures r == q
  {
    var i :| 0 <= i < |log| && log[i] == q;
    var k :| 0 <= k < |log| && log[k] == r;
  }

  lemma InsertKeepsLog(net: Net, event: Event, ordinal: nat)
    requires LogInv(net) && Fresh(net.log, event, ordinal)
    ensures LogInv(Apply(net, Insert(event, ordinal)))
  {
    var log' := net.log + [Row(ordinal, event)];
    assert Row(ordinal, event) in log';
    forall i, k | 0 <= i < k < |log'|
        ensures log'[i].ordinal != log'[k].ordinal && log'[i].event.id != log'[k].event.id {
      assert log'[i] in net.log;
    }
    forall id | id in net.publishing ensures id in IdsOf(log') {
      var r :| r in net.log && r.event.id == id;
      assert r in log';
    }
  }

  lemma InsertKeeps(net: Net, event: Event, ordinal: nat, c: ConnId, conn: Conn)
    requires LogInv(net) && Fresh(net.log, event, ordinal) && ConnInv(net, c, conn)
    ensures ConnInv(Apply(net, Insert(event, ordinal)), c, conn)
  {
    hide Has, Allows, LogInv;
    var net' := Apply(net, Insert(event, ordinal));
    assert forall r | r in net.log :: r in net'.log;
    assert conn.settled <= IdsOf(net'.log) by {
      forall id | id in conn.settled ensures id in IdsOf(net'.log) {
        var r :| r in net.log && r.event.id == id;
        assert r in net'.log;
      }
    }
    assert event.id !in conn.settled;
  }

  lemma StartKeeps(net: Net, id: EventId, c: ConnId, conn: Conn)
    requires id in net.publishing && net.publishing[id].Inserted?
    requires c in net.conns && net.conns[c] == conn && ConnInv(net, c, conn)
    ensures ConnInv(Apply(net, StartFanOut(id)), c, conn)
  {
    hide Has, Due, NothingElse;
    var net' := Apply(net, StartFanOut(id));
    if conn.isOpen {
      assert c in Listening(net);
      assert forall e | Promised(net.publishing, c, e) :: Promised(net'.publishing, c, e);
    }
  }

  lemma OfferKeeps(net: Net, id: EventId, c: ConnId, conn: Conn)
    requires LogInv(net) && id in net.publishing && net.publishing[id].Owed? && c in net.publishing[id].rest
    requires LogHas(net.log, id)
    requires c in net.conns && net.conns[c] == conn && ConnInv(net, c, conn)
    ensures ConnInv(Apply(net, FanOut(id, c)), c, Offer(conn, RowOf(net.log, id), net.maxPending))
  {
    hide RowOf, IdsOf;
    var net' := Apply(net, FanOut(id, c));
    var r := RowOf(net.log, id);
    var conn' := Offer(conn, r, net.maxPending);
    assert forall q :: Has(conn', q) ==> Has(conn, q) || (q == r && Allows(conn.scope, r.event));
    assert id !in conn.settled;
    if conn'.isOpen {
      forall q | q in net.log && Due(conn', q) ensures Has(conn', q) || Promised(net'.publishing, c, q.event.id) {
        assert Due(conn, q);
        if q.event.id == id {
          SameRow(net.log, q, r);
        }
      }
    }
  }

  lemma OfferSpares(net: Net, id: EventId, c: ConnId, d: ConnId, conn: Conn)
    requires id in net.publishing && net.publishing[id].Owed? && c in net.publishing[id].rest && LogHas(net.log, id)
    requires c in net.conns
    requires d != c && ConnInv(net, d, conn)
    ensures ConnInv(Apply(net, FanOut(id, c)), d, conn)
  {
    hide RowOf, IdsOf, Has, Due, NothingElse, Offer;
    var net' := Apply(net, FanOut(id, c));
    if conn.isOpen {
      assert d in net.publishing[id].rest ==> d in net.publishing[id].rest - {c};
      assert forall e | Promised(net.publishing, d, e) :: Promised(net'.publishing, d, e);
    }
  }

  lemma ReplayedIsAnchored(net: Net, conn: Conn, rows: seq<Row>)
    requires DistinctRows(net.log) && conn.phase.Registered?
    ensures Anchored(net.log, Replayed(net, conn, rows))
  {
    if conn.last.Some? {
      AfterIsOrdinal(net.log, conn.last.value);
    }
    hide IsReplay, Missing, After;
  }

  lemma SnapshotKeeps(net: Net, c: ConnId, conn: Conn, rows: seq<Row>)
    requires DistinctRows(net.log) && ConnInv(net, c, conn) && conn.phase.Registered?
    ensures ConnInv(net, c, Replayed(net, conn, rows))
  {
    ReplayedIsAnchored(net, conn, rows);
    ReplayCovers(net, conn, rows);
    hide IdsOf, Promised, Allows, Anchored, DistinctRows, Replayed;
    var conn' := Replayed(net, conn, rows);
    if conn'.phase.Replaying? {
      assert forall r | Has(conn, r) :: r.event.id !in conn.settled;
      assert forall r | Has(conn', r) :: Has(conn, r) || r in conn'.phase.todo;
    }
  }

  lemma ReplayCovers(net: Net, conn: Conn, rows: seq<Row>)
    requires conn.phase.Registered?
    ensures var conn' := Replayed(net, conn, rows);
            && conn' == conn.(phase := conn'.phase, after := conn'.after, upTo := conn'.upTo)
            && (conn'.phase.Registered? ==> conn' == conn)
            && (conn'.phase.Replaying? ==>
                  && (forall r | r in conn'.phase.todo ::
                       r in net.log && Allows(conn.scope, r.event) && Wanted(conn', r))
                  && (forall r | r in net.log && Allows(conn.scope, r.event) && Wanted(conn', r) ::
                       r in conn'.phase.todo))
  {
    hide After, Allows;
    var conn' := Replayed(net, conn, rows);
    if conn'.phase.Replaying? && conn.last.Some? && conn'.upTo.Some? {
      assert rows[|rows| - 1] in rows;
      forall r | r in rows ensures r.ordinal <= rows[|rows| - 1].ordinal {
        var i :| 0 <= i < |rows| && rows[i] == r;
      }
    }
  }

  /** Moving a message from one stage to the next keeps everything the connection holds. */
  lemma MovingKeeps(net: Net, c: ConnId, conn: Conn, conn': Conn)
    requires ConnInv(net, c, conn) && |conn'.queue| <= net.maxPending
    requires conn' == conn.(queue := conn'.queue, sent := conn'.sent, phase := conn'.phase)
    requires conn'.phase.Registered? <==> conn.phase.Registered?
    requires forall r :: Has(conn', r) <==> Has(conn, r)
    ensures ConnInv(net, c, conn')
  {
    hide Has, IdsOf, Promised, Allows;
    assert forall r :: Due(conn', r) <==> Due(conn, r);
  }

  lemma HeadMoves(s: seq<Row>, r: Row)
    requires s != []
    ensures r in s <==> r == s[0] || r in s[1..]
  {
    assert s == [s[0]] + s[1..];
  }

  lemma EnqueueKeeps(net: Net, c: ConnId, conn: Conn)
    requires ConnInv(net, c, conn) && conn.phase.Replaying? && conn.phase.todo != [] && |conn.queue| < net.maxPending
    ensures ConnInv(net, c, conn.(phase := Replaying(conn.phase.todo[1..]), queue := conn.queue + [conn.phase.todo[0]]))
  {
    var conn' := conn.(phase := Replaying(conn.phase.todo[1..]), queue := conn.queue + [conn.phase.todo[0]]);
    forall r ensures Has(conn', r) <==> Has(conn, r) {
      HeadMoves(conn.phase.todo, r);
    }
    MovingKeeps(net, c, conn, conn');
  }

  lemma SendKeeps(net: Net, c: ConnId, conn: Conn)
    requires ConnInv(net, c, conn) && conn.queue != []
    ensures ConnInv(net, c, conn.(queue := conn.queue[1..], sent := conn.sent + [conn.queue[0]]))
  {
    var conn' := conn.(queue := conn.queue[1..], sent := conn.sent + [conn.queue[0]]);
    forall r ensures Has(conn', r) <==> Has(conn, r) {
      HeadMoves(conn.queue, r);
    }
    MovingKeeps(net, c, conn, conn');
  }

  lemma NewConnection(net: Net, c: ConnId, scope: Scope, last: Option<EventId>)
    ensures ConnInv(net, c, NewConn(net, c, scope, last))
  {
    assert forall r | r in net.log :: r.event.id in IdsOf(net.log);
  }

  /** Steps of one connection leave the table and the publications alone. */
  lemma PutKeeps(net: Net, c: ConnId, conn: Conn)
    requires Inv(net) && ConnInv(net, c, conn)
    ensures Inv(Put(net, c, conn))
  {
    var net' := Put(net, c, conn);
    hide NothingElse, NoGap, DistinctRows;
    forall d | d in net'.conns ensures ConnInv(net', d, net'.conns[d]) {
      assert ConnInv(net, d, net'.conns[d]);
    }
  }

  lemma PublishStepKeepsInv(net: Net, op: Op)
    requires Inv(net) && (op.Insert? || op.StartFanOut? || op.FanOut?)
    ensures Inv(Apply(net, op))
  {
    hide ConnInv, DistinctRows, Fresh, RowOf, Listening, Offer, LogHas;
    var net' := Apply(net, op);
    if net' != net {
      match op
      case Insert(event, ordinal) => {
        InsertKeepsLog(net, event, ordinal);
        forall d | d in net'.conns ensures ConnInv(net', d, net'.conns[d]) {
          InsertKeeps(net, event, ordinal, d, net.conns[d]);
        }
      }
      case StartFanOut(id) => {
        forall d | d in net'.conns ensures ConnInv(net', d, net'.conns[d]) {
          StartKeeps(net, id, d, net.conns[d]);
        }
      }
      case FanOut(id, c) => {
        forall d | d in net'.conns ensures ConnInv(net', d, net'.conns[d]) {
          if d == c {
            OfferKeeps(net, id, c, net.conns[c]);
          } else {
            OfferSpares(net, id, c, d, net.conns[d]);
          }
        }
      }
    }
  }

  lemma ConnStepKeeps(net: Net, op: Op)
    requires op.Snapshot? || op.EnqueueReplay? || op.Send? || op.Close?
    requires LogInv(net) && op.c in net.conns && ConnInv(net, op.c, net.conns[op.c])
    ensures op.c in Apply(net, op).conns && Apply(net, op) == Put(net, op.c, Apply(net, op).conns[op.c])
    ensures ConnInv(net, op.c, Apply(net, op).conns[op.c])
  {
    hide ConnInv, Replayed;
    var conn := net.conns[op.c];
    assert Put(net, op.c, conn) == net;
    if conn.isOpen {
      match op
      case Snapshot(c, rows) =>
        if conn.phase.Registered? {
          SnapshotKeeps(net, c, conn, rows);
        }
      case EnqueueReplay(c) =>
        if conn.phase.Replaying? && conn.phase.todo != [] && |conn.queue| < net.maxPending {
          EnqueueKeeps(net, c, conn);
        }
      case Send(c) =>
        if conn.queue != [] {
          SendKeeps(net, c, conn);
        }
      case Close(c) => ClosedKeeps(net, c, conn);
    } else if op.Close? {
      ClosedKeeps(net, op.c, conn);
    }
  }

  lemma ClosedKeeps(net: Net, c: ConnId, conn: Conn)
    requires ConnInv(net, c, conn)
    ensures ConnInv(net, c, conn.(isOpen := false))
  {
    assert forall r :: Has(conn.(isOpen := false), r) <==> Has(conn, r);
  }

  /** Every step of a publisher, a connection or the network keeps the invariant. */
  lemma StepKeepsInv(net: Net, op: Op)
    requires Inv(net)
    ensures Inv(Apply(net, op)) && Apply(net, op).maxPending == net.maxPending
  {
    if op.Insert? || op.StartFanOut? || op.FanOut? {
      hide Inv;
      PublishStepKeepsInv(net, op);
    } else if op.c in net.conns {
      assert ConnInv(net, op.c, net.conns[op.c]);
      hide Inv, ConnInv;
      if !op.Register? {
        ConnStepKeeps(net, op);
        hide Apply;
        PutKeeps(net, op.c, Apply(net, op).conns[op.c]);
      }
    } else if op.Register? {
      hide Inv, ConnInv;
      NewConnection(net, op.c, op.scope, op.last);
      PutKeeps(net, op.c, Apply(net, op).conns[op.c]);
    }
  }

  lemma {:induction false} RunKeepsInv(net: Net, ops: seq<Op>)
    requires Inv(net)
    ensures Inv(Run(net, ops))
    decreases |ops|
  {
    if ops != [] {
      hide Inv, Apply;
      StepKeepsInv(net, ops[0]);
      RunKeepsInv(Apply(net, ops[0]), ops[1..]);
    }
  }

  lemma InitialInv(maxPending: nat)
    ensures Inv(Net([], map[], map[], maxPending))
  {
  }

  // ---------------------------------------------------------------- what a connection is given

  /** The connection has replayed and sent all it holds, and no publisher still owes it anything. */
  predicate CaughtUp(net: Net, c: ConnId)
    requires c in net.conns
  {
    && net.conns[c].isOpen && net.conns[c].phase == Replaying([]) && net.conns[c].queue == []
    && forall id | id in net.publishing :: !Promised(net.publishing, c, id)
  }

  /** No gap and nothing else: an open connection that has caught up was sent exactly the logged events due to it. */
  lemma CaughtUpConnectionsHaveNoGap(start: Net, ops: seq<Op>, c: ConnId)
    requires Inv(start)
    requires var net := Run(start, ops); c in net.conns && CaughtUp(net, c)
    ensures var net := Run(start, ops); forall r :: r in net.conns[c].sent <==> r in net.log && Due(net.conns[c], r)
  {
    RunKeepsInv(start, ops);
    var net := Run(start, ops);
    hide Run, LogInv, Due;
    assert ConnInv(net, c, net.conns[c]);
    assert forall r :: Has(net.conns[c], r) <==> r in net.conns[c].sent;
  }

  // ---------------------------------------------------------------- what a reconnect brings back

  /** What registration fixes for a connection, and that the log only grows. */
  predicate Registration(net: Net, net': Net, c: ConnId) {
    && c in net.conns && c in net'.conns && net.log <= net'.log
    && net'.conns[c].scope == net.conns[c].scope && net'.conns[c].last == net.conns[c].last
    && net'.conns[c].joined == net.conns[c].joined && net'.conns[c].settled == net.conns[c].settled
  }

  lemma StepKeepsRegistration(net: Net, op: Op, c: ConnId)
    requires c in net.conns
    ensures Registration(net, Apply(net, op), c)
  {
    hide IsReplay, Missing, After, RowOf, Fresh, LogHas, Listening;
  }

  lemma {:induction false} RunKeepsRegistration(net: Net, ops: seq<Op>, c: ConnId)
    requires c in net.conns
    ensures Registration(net, Run(net, ops), c)
    decreases |ops|
  {
    if ops != [] {
      StepKeepsRegistration(net, ops[0], c);
      hide Apply;
      RunKeepsRegistration(Apply(net, ops[0]), ops[1..], c);
    }
  }

  lemma NewEventsHaveNewIds(log: seq<Row>, log': seq<Row>, r: Row)
    requires DistinctRows(log') && log <= log' && r in log'
    ensures r in log <==> r.event.id in IdsOf(log)
  {
    if r.event.id in IdsOf(log) {
      var q :| q in log && q.event.id == r.event.id;
      SameRow(log', q, r);
    }
  }

  /** What a connection brings back, exactly. A client that connected to the gateway in state before, naming last, and
      has caught up was sent an in-scope event of the log if and only if it was committed after the connection
      registered, or its publisher was still to offer it to this connection then, or the replay covered its ordinal. An
      event at or below the named one's ordinal whose fan-out had begun is therefore never delivered on it, handled or
      not. */
  lemma ReconnectBringsBackExactly(before: Net, c: ConnId, scope: Scope, last: Option<EventId>, ops: seq<Op>, r: Row)
    requires Inv(before) && c !in before.conns
    requires var net := Run(Apply(before, Register(c, scope, last)), ops);
             c in net.conns && CaughtUp(net, c) && r in net.log && Allows(scope, r.event)
    ensures var conn := Run(Apply(before, Register(c, scope, last)), ops).conns[c];
            && (r in conn.sent <==> r !in before.log || Promised(before.publishing, c, r.event.id) || Wanted(conn, r))
            && conn.last == last && (forall q | q in before.log && last == Some(q.event.id) :: conn.after == q.ordinal)
  {
    var start := Apply(before, Register(c, scope, last));
    var net := Run(start, ops);
    StepKeepsInv(before, Register(c, scope, last));
    CaughtUpConnectionsHaveNoGap(start, ops, c);
    RunKeepsRegistration(start, ops, c);
    RunKeepsInv(start, ops);
    assert start.log == before.log && start.conns[c] == NewConn(before, c, scope, last);
    hide Run, Apply;
    NewEventsHaveNewIds(before.log, net.log, r);
    assert ConnInv(net, c, net.conns[c]) && CaughtUp(net, c);
    forall q | q in before.log && last == Some(q.event.id) ensures net.conns[c].after == q.ordinal {
      var i :| 0 <= i < |before.log| && before.log[i] == q;
      assert net.log[i] == q;
    }
  }
}
