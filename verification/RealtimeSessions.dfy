/**
 Session admission of the gateway (websocket_gateway/app.py): single-use tickets and one
 active connection per agent. A transaction is one atomic step.
 */
module RealtimeSessions {
  type SessionId = nat
  type Digest = string

  datatype Session = Session(tenant: string, agent: string, expiresAt: int, revoked: bool, active: bool)

  datatype Ticket = Ticket(session: SessionId, expiresAt: int, used: bool)

  datatype Store = Store(now: int, sessions: map<SessionId, Session>, tickets: map<Digest, Ticket>)

  datatype Op =
    | Tick(seconds: nat)
    | Issue(id: SessionId, digest: Digest, tenant: string, agent: string, ticketTtl: nat, sessionTtl: nat)
    | Consume(digest: Digest)
    | Disconnect(id: SessionId)
    | Revoke(id: SessionId)
    | Restart

  datatype Admission = Rejected | DuplicateConnection | Admitted(id: SessionId)

  predicate Live(s: Store, id: SessionId) {
    id in s.sessions && !s.sessions[id].revoked && s.now < s.sessions[id].expiresAt
  }

  predicate Primary(session: Session) {
    session.active && !session.revoked
  }

  predicate Rivals(a: Session, b: Session) {
    a.tenant == b.tenant && a.agent == b.agent
  }

  predicate Contested(s: Store, id: SessionId)
    requires id in s.sessions
  {
    exists o | o in s.sessions && o != id :: Primary(s.sessions[o]) && Rivals(s.sessions[o], s.sessions[id])
  }

  predicate Redeemable(s: Store, digest: Digest) {
    digest in s.tickets && !s.tickets[digest].used && s.now < s.tickets[digest].expiresAt
  }

  function Outcome(s: Store, digest: Digest): Admission {
    if !Redeemable(s, digest) || !Live(s, s.tickets[digest].session) then Rejected
    else if Contested(s, s.tickets[digest].session) then DuplicateConnection
    else Admitted(s.tickets[digest].session)
  }

  function WithActive(s: Store, id: SessionId, active: bool): Store {
    if id !in s.sessions then s else s.(sessions := s.sessions[id := s.sessions[id].(active := active)])
  }

  /** A redeemed ticket is spent whether or not the connection is admitted. */
  function Consumed(s: Store, digest: Digest): Store {
    if !Redeemable(s, digest) then s else
      var s' := s.(tickets := s.tickets[digest := s.tickets[digest].(used := true)]);
      if Outcome(s, digest).Admitted? then WithActive(s', s.tickets[digest].session, true) else s'
  }

  function Apply(s: Store, op: Op): Store {
    match op
    case Tick(seconds) => s.(now := s.now + seconds)
    case Issue(id, digest, tenant, agent, ticketTtl, sessionTtl) =>
      if id in s.sessions || digest in s.tickets then s else
        s.(sessions := s.sessions[id := Session(tenant, agent, s.now + sessionTtl, false, false)],
        tickets := s.tickets[digest := Ticket(id, s.now + ticketTtl, false)])
    case Consume(digest) => Consumed(s, digest)
    case Disconnect(id) => WithActive(s, id, false)
    case Revoke(id) => if id !in s.sessions then s
        else s.(sessions := s.sessions[id := s.sessions[id].(revoked := true)])
    case Restart => s.(sessions := map id | id in s.sessions :: s.sessions[id].(active := false))
  }

  function Run(s: Store, ops: seq<Op>): Store
    decreases |ops|
  {
    if ops == [] then s else Run(Apply(s, ops[0]), ops[1..])
  }

  /** The partial unique index: no agent has two active, unrevoked sessions. */
  predicate OnePrimary(s: Store) {
    forall a, b | a in s.sessions && b in s.sessions && Primary(s.sessions[a]) && Primary(s.sessions[b])
        && Rivals(s.sessions[a], s.sessions[b]) ::
      a == b
  }

  /** Each session has one ticket, of a session that exists. */
  predicate TicketsOwned(s: Store) {
    && (forall d | d in s.tickets :: s.tickets[d].session in s.sessions)
    && (forall d, e | d in s.tickets && e in s.tickets && s.tickets[d].session == s.tickets[e].session :: d == e)
  }

  predicate Inv(s: Store) {
    OnePrimary(s) && TicketsOwned(s)
  }

  lemma AdmissionKeepsOnePrimary(s: Store, digest: Digest)
    requires Inv(s)
    ensures Inv(Consumed(s, digest))
  {
    hide Live;
    if Outcome(s, digest).Admitted? {
      var id, s' := s.tickets[digest].session, Consumed(s, digest);
      assert forall o | o in s.sessions && o != id :: s'.sessions[o] == s.sessions[o];
    }
  }

  lemma StepKeepsInv(s: Store, op: Op)
    requires Inv(s)
    ensures Inv(Apply(s, op))
  {
    hide Consumed, Rivals;
    if op.Consume? {
      hide Inv;
      AdmissionKeepsOnePrimary(s, op.digest);
    } else if op.Issue? {
      var s' := Apply(s, op);
      assert forall d | d in s.tickets :: s.tickets[d].session != op.id || op.id in s.sessions;
    } else {
      SameAgents(s, op);
    }
  }

  /** Only an admission makes a session primary, and no step moves a session to another agent. */
  lemma SameAgents(s: Store, op: Op)
    requires !op.Consume? && !op.Issue?
    ensures Apply(s, op).sessions.Keys == s.sessions.Keys && Apply(s, op).tickets == s.tickets
    ensures forall id | id in s.sessions ::
              && (Primary(Apply(s, op).sessions[id]) ==> Primary(s.sessions[id]))
              && Apply(s, op).sessions[id].tenant == s.sessions[id].tenant
                   && Apply(s, op).sessions[id].agent == s.sessions[id].agent
    ensures OnePrimary(s) ==> OnePrimary(Apply(s, op))
  {
  }

  /** In every reachable state an agent has at most one active session that is not revoked. */
  lemma {:induction false} RunKeepsInv(s: Store, ops: seq<Op>)
    requires Inv(s)
    ensures Inv(Run(s, ops))
    decreases |ops|
  {
    if ops != [] {
      hide Inv, Apply;
      StepKeepsInv(s, ops[0]);
      RunKeepsInv(Apply(s, ops[0]), ops[1..]);
    }
  }

  /** How often a run admits a connection for the session. */
  function Admissions(s: Store, ops: seq<Op>, id: SessionId): nat
    decreases |ops|
  {
    if ops == [] then 0 else
      (if ops[0].Consume? && Outcome(s, ops[0].digest) == Admitted(id) then 1 else 0)
          + Admissions(Apply(s, ops[0]), ops[1..], id)
  }

  predicate Spent(s: Store, id: SessionId) {
    id in s.sessions && forall d | d in s.tickets && s.tickets[d].session == id :: s.tickets[d].used
  }

  lemma SpentStep(s: Store, op: Op, id: SessionId)
    requires Inv(s) && Spent(s, id)
    ensures Spent(Apply(s, op), id) && !(op.Consume? && Outcome(s, op.digest) == Admitted(id))
  {
    hide Live, Contested, OnePrimary;
  }

  lemma {:induction false} SpentSessionsStayOut(s: Store, ops: seq<Op>, id: SessionId)
    requires Inv(s) && Spent(s, id)
    ensures Admissions(s, ops, id) == 0
    decreases |ops|
  {
    if ops != [] {
      hide Inv, Apply, Spent, Outcome;
      StepKeepsInv(s, ops[0]);
      SpentStep(s, ops[0], id);
      SpentSessionsStayOut(Apply(s, ops[0]), ops[1..], id);
    }
  }

  lemma AdmissionSpends(s: Store, digest: Digest, id: SessionId)
    requires Inv(s) && Outcome(s, digest) == Admitted(id)
    ensures Spent(Apply(s, Consume(digest)), id)
  {
    hide Live, Contested, OnePrimary;
  }

  /** A session is connected at most once in any run, so the table of live connections never overwrites an entry. */
  lemma {:induction false} SessionsConnectAtMostOnce(s: Store, ops: seq<Op>, id: SessionId)
    requires Inv(s)
    ensures Admissions(s, ops, id) <= 1
    decreases |ops|
  {
    if ops != [] {
      StepKeepsInv(s, ops[0]);
      if ops[0].Consume? && Outcome(s, ops[0].digest) == Admitted(id) {
        AdmissionSpends(s, ops[0].digest, id);
        hide Inv, Apply, Spent, Outcome;
        SpentSessionsStayOut(Apply(s, ops[0]), ops[1..], id);
      } else {
        hide Inv, Apply, Outcome;
        SessionsConnectAtMostOnce(Apply(s, ops[0]), ops[1..], id);
      }
    }
  }
}
