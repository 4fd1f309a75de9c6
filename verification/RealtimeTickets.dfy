/** Who gets connected: the ticket behind every connection, said of the fields of tickets and sessions. */
module RealtimeTickets {
  import opened RealtimeSessions

  /** Another session of the same tenant's agent is connected and not revoked. */
  predicate Occupied(s: Store, id: SessionId)
    requires id in s.sessions
  {
    exists o | o in s.sessions && o != id ::
      && s.sessions[o].active && !s.sessions[o].revoked
      && s.sessions[o].tenant == s.sessions[id].tenant && s.sessions[o].agent == s.sessions[id].agent
  }

  /** An unused ticket in time, of a session in time that was not revoked. */
  predicate Valid(s: Store, digest: Digest, id: SessionId) {
    && digest in s.tickets && !s.tickets[digest].used && s.now < s.tickets[digest].expiresAt
    && s.tickets[digest].session == id
    && id in s.sessions && !s.sessions[id].revoked && s.now < s.sessions[id].expiresAt
  }

  lemma ContestExactly(s: Store, id: SessionId)
    requires id in s.sessions
    ensures Contested(s, id) <==> Occupied(s, id)
  {
    if o :| o in s.sessions && o != id && Primary(s.sessions[o]) && Rivals(s.sessions[o], s.sessions[id]) {
      assert Occupied(s, id);
    }
    if Occupied(s, id) {
      var o :| && o in s.sessions && o != id && s.sessions[o].active && !s.sessions[o].revoked
               && s.sessions[o].tenant == s.sessions[id].tenant && s.sessions[o].agent == s.sessions[id].agent;
      assert Primary(s.sessions[o]) && Rivals(s.sessions[o], s.sessions[id]);
    }
  }

  /** A ticket admits its session, and only its session, exactly while both are good and the agent is not connected
      already; any redeemed ticket is used up. */
  lemma AdmittedExactly(s: Store, digest: Digest, id: SessionId)
    ensures Outcome(s, digest) == Admitted(id) <==> Valid(s, digest, id) && !Occupied(s, id)
    ensures Outcome(s, digest) == DuplicateConnection <==>
            digest in s.tickets && Valid(s, digest, s.tickets[digest].session) && Occupied(s, s.tickets[digest].session)
    ensures digest in s.tickets && !s.tickets[digest].used && s.now < s.tickets[digest].expiresAt ==>
              digest in Apply(s, Consume(digest)).tickets && Apply(s, Consume(digest)).tickets[digest].used
  {
    if digest in s.tickets && s.tickets[digest].session in s.sessions {
      ContestExactly(s, s.tickets[digest].session);
    }
    hide Contested, Occupied;
  }

  /** A session is connected exactly from its admission until it disconnects or the gateway restarts, and revoked
      exactly from its revocation on; an agent whose session is neither is free again. */
  lemma StatusExactly(s: Store, op: Op, id: SessionId)
    requires id in s.sessions
    ensures id in Apply(s, op).sessions
    ensures var a, b := s.sessions[id], Apply(s, op).sessions[id];
            && (b.active <==> (op.Consume? && Outcome(s, op.digest) == Admitted(id))
                              || (a.active && op != Disconnect(id) && !op.Restart?))
            && (b.revoked <==> a.revoked || op == Revoke(id))
            && b.tenant == a.tenant && b.agent == a.agent && b.expiresAt == a.expiresAt
  {
    hide Contested;
  }

  lemma {:induction false} LastStep(s: Store, ops: seq<Op>)
    requires ops != []
    ensures Run(s, ops) == Apply(Run(s, ops[..|ops| - 1]), ops[|ops| - 1])
    decreases |ops|
  {
    hide Apply;
    if |ops| > 1 {
      LastStep(Apply(s, ops[0]), ops[1..]);
      assert ops[..|ops| - 1][1..] == ops[1..][..|ops| - 2];
    } else {
      assert ops[..0] == [] && ops[1..] == [];
    }
  }

  /** What becomes true in a run becomes true by one of its steps. */
  lemma {:induction false} TurningPoint(start: Store, ops: seq<Op>, p: Store -> bool) returns (n: nat)
    requires !p(start) && p(Run(start, ops))
    ensures n < |ops| && !p(Run(start, ops[..n])) && p(Apply(Run(start, ops[..n]), ops[n]))
    decreases |ops|
  {
    assert ops != [];
    var m := |ops| - 1;
    LastStep(start, ops);
    hide Run, Apply;
    if p(Run(start, ops[..m])) {
      n := TurningPoint(start, ops[..m], p);
      assert ops[..m][..n] == ops[..n] && ops[..m][n] == ops[n];
    } else {
      n := m;
    }
  }

  predicate Connected(s: Store, id: SessionId) {
    id in s.sessions && s.sessions[id].active
  }

  lemma ConnectionAppears(s: Store, op: Op, id: SessionId)
    requires !Connected(s, id) && Connected(Apply(s, op), id)
    ensures op.Consume? && Outcome(s, op.digest) == Admitted(id)
  {
    hide Contested;
  }

  /** The ticket and its session, with the times they end. */
  predicate Issued(s: Store, digest: Digest, id: SessionId, ticketEnd: int, sessionEnd: int) {
    && digest in s.tickets && s.tickets[digest].session == id && s.tickets[digest].expiresAt == ticketEnd
    && id in s.sessions && s.sessions[id].expiresAt == sessionEnd
  }

  lemma TicketAppears(s: Store, op: Op, digest: Digest, id: SessionId, ticketEnd: int, sessionEnd: int)
    requires TicketsOwned(s)
    requires !Issued(s, digest, id, ticketEnd, sessionEnd) && Issued(Apply(s, op), digest, id, ticketEnd, sessionEnd)
    ensures op.Issue? && op.id == id && op.digest == digest
    ensures ticketEnd == s.now + op.ticketTtl && sessionEnd == s.now + op.sessionTtl
  {
    hide Contested;
  }

  /** Behind every connection of every run stands a ticket issued for that session and redeemed before it and the
      session ran out. */
  lemma EveryConnectionHasItsTicket(start: Store, ops: seq<Op>, id: SessionId) returns (n: nat, m: nat)
    requires start.sessions == map[] && start.tickets == map[] && Connected(Run(start, ops), id)
    ensures n < m < |ops| && ops[n].Issue? && ops[n].id == id && ops[m] == Consume(ops[n].digest)
    ensures Run(start, ops[..m]).now < Run(start, ops[..n]).now + ops[n].ticketTtl
    ensures Run(start, ops[..m]).now < Run(start, ops[..n]).now + ops[n].sessionTtl
  {
    m := TurningPoint(start, ops, (s: Store) => Connected(s, id));
    var using := Run(start, ops[..m]);
    ConnectionAppears(using, ops[m], id);
    var digest := ops[m].digest;
    AdmittedExactly(using, digest, id);
    var ticketEnd, sessionEnd := using.tickets[digest].expiresAt, using.sessions[id].expiresAt;
    n := TurningPoint(start, ops[..m], (s: Store) => Issued(s, digest, id, ticketEnd, sessionEnd));
    assert ops[..m][..n] == ops[..n] && ops[..m][n] == ops[n];
    RunKeepsInv(start, ops[..n]);
    hide Run, Apply;
    TicketAppears(Run(start, ops[..n]), ops[n], digest, id, ticketEnd, sessionEnd);
  }
}
