/** The browser client (agent_desktop/src/realtime.ts): deduplication and the last event it names when it reconnects. */
module RealtimeClient {
  import opened Base
  import opened Realtime

  /** Frames as the client tells them apart. */
  datatype Frame = Authenticated | Delivery(id: EventId) | Other

  /** The ids of a stream of frames in order of first arrival. */
  function FirstArrivals(frames: seq<Frame>): seq<EventId> {
    if frames == [] then [] else
      var earlier := FirstArrivals(frames[..|frames| - 1]);
      var f := frames[|frames| - 1];
      if f.Delivery? && f.id !in earlier then earlier + [f.id] else earlier
  }

  predicate Distinct(ids: seq<EventId>) {
    forall i, k | 0 <= i < k < |ids| :: ids[i] != ids[k]
  }

  /** Exactly once: the handled ids are the delivered ones, and none occurs twice. */
  lemma {:induction false} FirstArrivalsAreExact(frames: seq<Frame>, id: EventId)
    ensures Distinct(FirstArrivals(frames))
    ensures id in FirstArrivals(frames) <==> Delivery(id) in frames
  {
    if frames != [] {
      var init, f := frames[..|frames| - 1], frames[|frames| - 1];
      FirstArrivalsAreExact(init, id);
      assert frames == init + [f];
    }
  }

  /** Handling is incremental: what has been handled is never handled again, and later frames only append. */
  lemma {:induction false} FirstArrivalsGrow(a: seq<Frame>, b: seq<Frame>)
    ensures FirstArrivals(a) <= FirstArrivals(a + b)
    decreases |b|
  {
    if b == [] {
      assert a + b == a;
    } else {
      var init := b[..|b| - 1];
      assert (a + b)[..|a + b| - 1] == a + init;
      FirstArrivalsGrow(a, init);
    }
  }

  class Client {
    var processed: set<EventId>
    var last: Option<EventId>
    var handled: seq<EventId>
    var connected: bool
    ghost var frames: seq<Frame>

    /** The handler has been called once for each id ever delivered, in order of first arrival; the stored id is the
        latest. */
    ghost predicate Valid()
      reads this
    {
      && handled == FirstArrivals(frames)
      && (forall id :: id in processed <==> id in handled)
      && last == (if handled == [] then None else Some(handled[|handled| - 1]))
    }

    constructor ()
      ensures Valid() && frames == []
    {
      processed, last, handled, connected, frames := {}, None, [], false, [];
    }

    method OnMessage(f: Frame)
      requires Valid()
      modifies this
      ensures Valid() && frames == old(frames) + [f]
      ensures handled == old(handled) || (f.Delivery? && f.id !in old(processed) && handled == old(handled) + [f.id])
    {
      frames := frames + [f];
      assert frames[..|frames| - 1] == old(frames);
      if f.Authenticated? {
        connected := true;
        return;
      }
      if f.Other? || f.id in processed {
        return;
      }
      processed := processed + {f.id};
      last := Some(f.id);
      handled := handled + [f.id];
    }

    /** All the frames of a connection, in the order the socket delivers them. */
    method OnMessages(fs: seq<Frame>)
      requires Valid()
      modifies this
      ensures Valid() && frames == old(frames) + fs
    {
      var n := 0;
      while n < |fs|
        invariant 0 <= n <= |fs| && Valid() && frames == old(frames) + fs[..n]
      {
        OnMessage(fs[n]);
        n := n + 1;
      }
      assert fs[..n] == fs;
    }
  }

  function Frames(sent: seq<Row>): seq<Frame> {
    seq(|sent|, i requires 0 <= i < |sent| => Delivery(sent[i].event.id))
  }

  /** End to end: when a caught-up connection's messages have all reached a client, whatever it received before, every
      event due to that connection has been handed to the handler exactly once. */
  lemma DueEventsAreHandledOnce(start: Net, ops: seq<Op>, c: ConnId, earlier: seq<Frame>, r: Row)
    requires Inv(start)
    requires var net := Run(start, ops); c in net.conns && CaughtUp(net, c) && r in net.log && Due(net.conns[c], r)
    ensures var net := Run(start, ops);
            var handled := FirstArrivals(earlier + Frames(net.conns[c].sent));
            && Distinct(handled) && r.event.id in handled
  {
    CaughtUpConnectionsHaveNoGap(start, ops, c);
    var net := Run(start, ops);
    hide Run, Inv, Due, CaughtUp;
    var sent := net.conns[c].sent;
    var k :| 0 <= k < |sent| && sent[k] == r;
    assert Frames(sent)[k] == Delivery(r.event.id);
    FirstArrivalsAreExact(earlier + Frames(sent), r.event.id);
  }
}
