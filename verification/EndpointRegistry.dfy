/**
 Endpoint resolution (app/core/endpoint_registry.py): ranking of route bindings, the two cache
 levels in front of the authoritative repository, and how stale an answer can be. The signed L2
 envelope is idealised: an envelope passes its check exactly when some resolver stored it.
 */
module EndpointRegistry {
  import opened Base

  // ---------------------------------------------------------------- ranking

  /** Organization, business unit, campaign, workflow and event type; empty means any. */
  datatype Scopes = Scopes(organization: string, unit: string, campaign: string, workflow: string, eventType: string)

  datatype Request = Request(environment: string, service: string, endpoint: string, version: string, scopes: Scopes,
                             mutation: bool)

  datatype Endpoint = Endpoint(id: string, generation: int, staleReadSafe: bool, contents: string)

  /** A joined row that passed the WHERE clause: its binding scopes and the endpoint it would resolve to. */
  datatype Route = Route(scopes: Scopes, endpoint: Endpoint)

  predicate Fits(expected: string, actual: string) {
    expected == "" || expected == actual
  }

  predicate Applies(binding: Scopes, actual: Scopes) {
    && Fits(binding.organization, actual.organization) && Fits(binding.unit, actual.unit)
    && Fits(binding.campaign, actual.campaign) && Fits(binding.workflow, actual.workflow)
    && Fits(binding.eventType, actual.eventType)
  }

  function Score(binding: Scopes, actual: Scopes): int {
    if !Applies(binding, actual) then -1 else
      match (binding.organization != "", binding.unit != "", binding.campaign != "", binding.workflow != "",
          binding.eventType != "")
      case (true, true, true, true, true) => 5
      case (true, true, true, false, false) => 4
      case (true, true, false, false, false) => 3
      case (true, false, false, false, false) => 2
      case (false, false, false, false, false) => 1
      case _ => -1
  }

  /** Every scope a constrains is constrained by b. */
  predicate NoMoreSpecific(a: Scopes, b: Scopes) {
    && (a.organization != "" ==> b.organization != "") && (a.unit != "" ==> b.unit != "")
    && (a.campaign != "" ==> b.campaign != "") && (a.workflow != "" ==> b.workflow != "")
    && (a.eventType != "" ==> b.eventType != "")
  }

  /** Among the bindings that may serve a request the score is exactly specificity, and a tie means identical scopes. */
  lemma ScoreIsSpecificity(a: Scopes, b: Scopes, actual: Scopes)
    requires Score(a, actual) > 0 && Score(b, actual) > 0
    ensures Score(a, actual) <= Score(b, actual) <==> NoMoreSpecific(a, b)
    ensures Score(a, actual) == Score(b, actual) <==> a == b
  {
  }

  /** A binding may serve a request exactly when every scope it constrains is the request's and it constrains an
      unbroken run of them from the organization down, workflow and event type only together. */
  lemma ServesExactly(r: Route, q: Request)
    ensures Serves(r, q) <==>
            && (r.scopes.organization != "" ==> r.scopes.organization == q.scopes.organization)
            && (r.scopes.unit != "" ==> r.scopes.unit == q.scopes.unit && r.scopes.organization != "")
            && (r.scopes.campaign != "" ==> r.scopes.campaign == q.scopes.campaign && r.scopes.unit != "")
            && (r.scopes.workflow != "" ==> r.scopes.workflow == q.scopes.workflow && r.scopes.campaign != "")
            && (r.scopes.eventType != "" ==> r.scopes.eventType == q.scopes.eventType)
            && (r.scopes.eventType != "" <==> r.scopes.workflow != "")
  {
  }

  datatype Selection = NoRoute | Ambiguous | Chosen(route: Route)

  predicate Serves(r: Route, q: Request) {
    Score(r.scopes, q.scopes) > 0
  }

  /** The selection of candidates: the single most specific serving row. */
  method Select(rows: seq<Route>, q: Request) returns (result: Selection)
    ensures result.NoRoute? <==> forall r | r in rows :: !Serves(r, q)
    ensures result.Chosen? ==> exists i | 0 <= i < |rows| ::
              && rows[i] == result.route && Serves(rows[i], q)
              && forall k | 0 <= k < |rows| && k != i && Serves(rows[k], q) ::
                   Score(rows[k].scopes, q.scopes) < Score(rows[i].scopes, q.scopes)
    ensures result.Ambiguous? ==> exists i, k | 0 <= i < k < |rows| ::
              && Serves(rows[i], q) && Serves(rows[k], q) && rows[i].scopes == rows[k].scopes
              && forall r | r in rows && Serves(r, q) :: NoMoreSpecific(r.scopes, rows[i].scopes)
  {
    hide Score, NoMoreSpecific;
    var best, first, n := -1, -1, 0;
    ghost var second := -1;
    var count := 0;
    while n < |rows|
      invariant 0 <= n <= |rows|
      invariant count == 0 ==> best == -1 && forall k | 0 <= k < n :: !Serves(rows[k], q)
      invariant count >= 1 ==> 0 <= first < n && best > 0 && Score(rows[first].scopes, q.scopes) == best
      invariant count >= 1 ==> forall k | 0 <= k < n && Serves(rows[k], q) :: Score(rows[k].scopes, q.scopes) <= best
      invariant count == 1 ==> forall k | 0 <= k < n && k != first && Serves(rows[k], q) ::
                  Score(rows[k].scopes, q.scopes) < best
      invariant count >= 2 ==> first < second < n && Score(rows[second].scopes, q.scopes) == best
      invariant count >= 0
    {
      var score := Score(rows[n].scopes, q.scopes);
      if score > 0 {
        if score > best {
          best, first, count := score, n, 1;
        } else if score == best {
          second := if count == 1 then n else second;
          count := count + 1;
        }
      }
      n := n + 1;
    }
    if count == 0 {
      result := NoRoute;
    } else if count == 1 {
      result := Chosen(rows[first]);
      assert Serves(rows[first], q);
    } else {
      result := Ambiguous;
      assert Serves(rows[first], q) && Serves(rows[second], q);
      ScoreIsSpecificity(rows[first].scopes, rows[second].scopes, q.scopes);
      forall r | r in rows && Serves(r, q) ensures NoMoreSpecific(r.scopes, rows[first].scopes) {
        ScoreIsSpecificity(r.scopes, rows[first].scopes, q.scopes);
      }
    }
  }

  // ---------------------------------------------------------------- the caches

  datatype Entry = Entry(endpoint: Endpoint, expiresAt: int, staleUntil: int)

  datatype L2Key = L2Key(request: Request, generation: int)

  datatype Stored = Stored(endpoint: Endpoint, expiresAt: int)

  /** An answer the repository gave, when it gave it, and when it was signed and put into the caches. */
  datatype Produced = Produced(request: Request, endpoint: Endpoint, answeredAt: int, at: int)

  function Removed(order: seq<Request>, q: Request): seq<Request> {
    if order == [] then [] else if order[0] == q then Removed(order[1..], q) else [order[0]] + Removed(order[1..], q)
  }

  predicate Distinct(order: seq<Request>) {
    forall i, k | 0 <= i < k < |order| :: order[i] != order[k]
  }

  lemma {:induction false} RemovedKeepsRest(order: seq<Request>, q: Request)
    requires Distinct(order)
    ensures Distinct(Removed(order, q)) && q !in Removed(order, q)
    ensures forall x :: x in Removed(order, q) <==> x in order && x != q
    ensures |Removed(order, q)| == |order| - if q in order then 1 else 0
  {
    if order != [] {
      RemovedKeepsRest(order[1..], q);
      assert order == [order[0]] + order[1..];
      assert order[0] !in order[1..];
    }
  }

  /** move_to_end. */
  function Touched(order: seq<Request>, q: Request): seq<Request> {
    Removed(order, q) + [q]
  }

  function Newest(order: seq<Request>, n: nat): seq<Request> {
    if |order| <= n then order else order[|order| - n..]
  }

  lemma TouchKeepsRest(order: seq<Request>, q: Request)
    requires Distinct(order)
    ensures Distinct(Touched(order, q)) && forall x :: x in Touched(order, q) <==> x in order || x == q
    ensures |Touched(order, q)| == |order| + if q in order then 0 else 1
  {
    RemovedKeepsRest(order, q);
  }

  lemma NewestKeeps(order: seq<Request>, n: nat)
    requires Distinct(order)
    ensures Distinct(Newest(order, n)) && forall x | x in Newest(order, n) :: x in order
    ensures n > 0 && order != [] ==> order[|order| - 1] in Newest(order, n)
  {
  }

  datatype Repository = Unavailable | Refused | Routes(best: Option<Endpoint>)

  /** What the L2 read meets: the stored envelope if there is one, nothing (also after an early eviction), an error the
      resolver swallows, an envelope whose signature does not check, or one that was signed but not stored under this
      key, or not as recently: the signature covers the endpoint alone. */
  datatype L2Read = Reads | Misses | Errs | Forged | Moved(endpoint: Endpoint)

  datatype Answer = Resolved(endpoint: Endpoint) | NoActiveRoute | Denied | InvalidSignature | RegistryUnavailable

  predicate Usable(e: Entry, now: int, allowStale: bool) {
    now <= e.expiresAt || (allowStale && e.endpoint.staleReadSafe && now <= e.staleUntil)
  }

  /** The repository gave this endpoint for this request, and it was cached no more than limit seconds before now. */
  ghost predicate Within(produced: set<Produced>, q: Request, endpoint: Endpoint, now: int, limit: int) {
    exists p | p in produced :: p.request == q && p.endpoint == endpoint && p.answeredAt <= p.at <= now <= p.at + limit
  }

  /** The repository gave this endpoint to somebody at some time: all a valid signature says. */
  ghost predicate Signed(produced: set<Produced>, endpoint: Endpoint) {
    exists p | p in produced :: p.endpoint == endpoint
  }

  /** A valid signature says neither for which request nor how long ago: the one answer p is signed, but within no bound
      for any other request, and for its own only while the bound lasts. */
  lemma SignatureSaysNeitherRequestNorAge(p: Produced, q: Request, now: int, limit: int)
    requires p.answeredAt <= p.at <= now
    ensures Signed({p}, p.endpoint)
    ensures Within({p}, q, p.endpoint, now, limit) <==> q == p.request && now <= p.at + limit
  {
    assert p in {p};
  }

  /** A cached copy that expires at most limit seconds after the repository's answer was cached. */
  ghost predicate Backed(produced: set<Produced>, q: Request, endpoint: Endpoint, expiresAt: int, limit: int) {
    exists p | p in produced :: p.request == q && p.endpoint == endpoint && expiresAt <= p.at + limit
  }

  lemma LaterExpiry(produced: set<Produced>, q: Request, endpoint: Endpoint, expiresAt: int, limit: int, more: nat)
    requires Backed(produced, q, endpoint, expiresAt, limit)
    ensures Backed(produced, q, endpoint, expiresAt + more, limit + more)
  {
    var p :| p in produced && p.request == q && p.endpoint == endpoint && expiresAt <= p.at + limit;
    assert expiresAt + more <= p.at + limit + more;
  }

  lemma UnexpiredIsWithin(produced: set<Produced>, q: Request, endpoint: Endpoint, expiresAt: int, limit: int, now: int)
    requires Backed(produced, q, endpoint, expiresAt, limit) && now <= expiresAt
    requires forall p | p in produced :: p.answeredAt <= p.at <= now
    ensures Within(produced, q, endpoint, now, limit) && Backed(produced, q, endpoint, now, limit)
  {
  }

  /** The entries of base that are still listed. */
  function Listed(base: map<Request, Entry>, order: seq<Request>): map<Request, Entry> {
    map x | x in base && x in order :: base[x]
  }

  /** Every L1 entry was signed, and all but those copied from misplaced envelopes are backed. */
  ghost predicate L1Backed(produced: set<Produced>, l1: map<Request, Entry>, misplaced: set<Request>, limit: int) {
    && (forall q | q in l1 :: Signed(produced, l1[q].endpoint))
    && (forall q | q in l1 && q !in misplaced :: Backed(produced, q, l1[q].endpoint, l1[q].expiresAt, limit))
  }

  ghost predicate L2Backed(produced: set<Produced>, l2: map<L2Key, Stored>, limit: int) {
    forall k | k in l2 :: Backed(produced, k.request, l2[k].endpoint, l2[k].expiresAt, limit)
  }

  lemma BackedIsSigned(produced: set<Produced>, q: Request, endpoint: Endpoint, expiresAt: int, limit: int)
    requires Backed(produced, q, endpoint, expiresAt, limit)
    ensures Signed(produced, endpoint)
  {
  }

  /** Another answer of the repository leaves everything cached as well founded as it was. */
  lemma MoreProduced(produced: set<Produced>, p: Produced, l1: map<Request, Entry>, misplaced: set<Request>,
                     l2: map<L2Key, Stored>, limit1: int, limit2: int)
    requires L1Backed(produced, l1, misplaced, limit1) && L2Backed(produced, l2, limit2)
    ensures L1Backed(produced + {p}, l1, misplaced, limit1) && L2Backed(produced + {p}, l2, limit2)
  {
    assert forall x | x in produced :: x in produced + {p};
  }

  predicate Indexes(order: seq<Request>, l1: map<Request, Entry>) {
    Distinct(order) && (forall q | q in order :: q in l1) && (forall q | q in l1 :: q in order)
  }

  lemma StoringKeeps(produced: set<Produced>, order: seq<Request>, l1: map<Request, Entry>, misplaced: set<Request>,
                     q: Request, e: Entry, backed: bool, bound: nat, limit: int)
    requires Indexes(order, l1) && L1Backed(produced, l1, misplaced, limit) && Signed(produced, e.endpoint)
    requires backed ==> Backed(produced, q, e.endpoint, e.expiresAt, limit)
    ensures Indexes(Touched(order, q), l1[q := e])
    ensures var order' := Newest(Touched(order, q), bound); var l1' := Listed(l1[q := e], order');
            Indexes(order', l1') && L1Backed(produced, l1', Placed(misplaced, q, backed), limit)
  {
    hide Backed, Signed, Removed;
    TouchKeepsRest(order, q);
    NewestKeeps(Touched(order, q), bound);
    hide Touched, Newest;
  }

  lemma DroppingKeeps(produced: set<Produced>, order: seq<Request>, l1: map<Request, Entry>, misplaced: set<Request>,
                      q: Request, limit: int)
    requires Indexes(order, l1) && L1Backed(produced, l1, misplaced, limit)
    ensures Indexes(Removed(order, q), l1 - {q}) && |Removed(order, q)| <= |order|
    ensures L1Backed(produced, l1 - {q}, misplaced, limit)
  {
    hide Backed, Signed;
    RemovedKeepsRest(order, q);
    hide Removed;
  }

  /** The requests whose L1 entry came from a misplaced envelope, after one more entry. */
  function Placed(misplaced: set<Request>, q: Request, backed: bool): set<Request> {
    if backed then misplaced - {q} else misplaced + {q}
  }

  lemma OldestDropped(base: map<Request, Entry>, order: seq<Request>)
    requires order != [] && Distinct(order)
    ensures Listed(base, order) - {order[0]} == Listed(base, order[1..]) && Distinct(order[1..])
  {
    assert order == [order[0]] + order[1..];
  }

  /** popitem until the table is within its bound: the least recently used entries go first. */
  method Evicted(full: map<Request, Entry>, recency: seq<Request>, bound: nat)
    returns (order: seq<Request>, l1: map<Request, Entry>)
    requires Indexes(recency, full)
    ensures order == Newest(recency, bound) && l1 == Listed(full, order)
    ensures |order| <= bound
  {
    order, l1 := recency, full;
    assert l1 == Listed(full, order);
    while |order| > bound
      invariant Distinct(order) && |order| <= |recency| && order == recency[|recency| - |order|..]
      invariant |order| < |recency| ==> |order| >= bound
      invariant l1 == Listed(full, order)
      decreases |order|
    {
      OldestDropped(full, order);
      l1 := l1 - {order[0]};
      order := order[1..];
    }
  }

  class SignedSnapshotCache {
    const l1Ttl: nat
    const l2Ttl: nat
    const grace: nat
    const maxEntries: nat
    var order: seq<Request>
    var l1: map<Request, Entry>
    var l2: map<L2Key, Stored>
    ghost var produced: set<Produced>
    ghost var misplaced: set<Request>
    ghost var clock: int

    constructor (l1Ttl: nat, l2Ttl: nat, grace: nat, maxEntries: nat)
      ensures Valid() && l1 == map[] && l2 == map[] && produced == {} && misplaced == {}
      ensures this.l1Ttl == l1Ttl && this.l2Ttl == l2Ttl && this.maxEntries == maxEntries
    {
      this.l1Ttl, this.l2Ttl, this.grace, this.maxEntries := l1Ttl, l2Ttl, grace, maxEntries;
      order, l1, l2, produced, misplaced, clock := [], map[], map[], {}, {}, 0;
    }

    /** L1 is a bounded LRU table of signed endpoints. Its entries expire at most l1Ttl + l2Ttl, and L2's at most l2Ttl,
        after the repository's answer was cached - except an L1 entry copied from a misplaced envelope. */
    ghost predicate Valid()
      reads this
    {
      && Indexes(order, l1) && |order| <= maxEntries
      && (forall p | p in produced :: p.answeredAt <= p.at <= clock)
      && L1Backed(produced, l1, misplaced, l1Ttl + l2Ttl) && L2Backed(produced, l2, l2Ttl)
    }

    /** An expired entry is evicted by the first read that finds it. */
    method Get(q: Request, now: int, allowStale: bool) returns (hit: Option<Endpoint>)
      requires Valid()
      modifies this`order, this`l1
      ensures Valid()
      ensures hit.Some? <==>
                && q in old(l1)
                && var e := old(l1)[q];
                   now <= e.expiresAt || (allowStale && e.endpoint.staleReadSafe && now <= e.staleUntil)
      ensures hit.Some? ==> hit.value == old(l1)[q].endpoint && l1 == old(l1) && order == Touched(old(order), q)
      ensures hit.None? ==> q !in l1 && l1 == old(l1) - {q} && order == Removed(old(order), q)
    {
      if q in l1 && Usable(l1[q], now, allowStale) {
        TouchKeepsRest(order, q);
        hide L1Backed, L2Backed, Touched;
        order := Touched(order, q);
        return Some(l1[q].endpoint);
      }
      DroppingKeeps(produced, order, l1, misplaced, q, l1Ttl + l2Ttl);
      hide Indexes, L1Backed, L2Backed, Removed;
      order := Removed(order, q);
      l1 := l1 - {q};
      hit := None;
    }

    /** Stores the entry as the most recent one and evicts the least recent ones beyond the bound. */
    method PutL1(q: Request, endpoint: Endpoint, now: int, ghost backed: bool)
      requires Valid() && Signed(produced, endpoint) && (backed ==> Backed(produced, q, endpoint, now, l2Ttl))
      modifies this`order, this`l1, this`misplaced
      ensures Valid()
      ensures order == Newest(Touched(old(order), q), maxEntries) && misplaced == Placed(old(misplaced), q, backed)
      ensures l1 == Listed(old(l1)[q := Entry(endpoint, now + l1Ttl, now + l1Ttl + grace)], order)
    {
      if backed {
        LaterExpiry(produced, q, endpoint, now, l2Ttl, l1Ttl);
      }
      var entry := Entry(endpoint, now + l1Ttl, now + l1Ttl + grace);
      StoringKeeps(produced, order, l1, misplaced, q, entry, backed, maxEntries, l1Ttl + l2Ttl);
      hide Indexes, L1Backed, L2Backed, Backed, Signed, Touched, Listed, Newest, Placed;
      order, l1 := Evicted(l1[q := entry], Touched(order, q), maxEntries);
      misplaced := Placed(misplaced, q, backed);
    }

    /** A signature is unforgeable: a moved envelope carries an endpoint somebody was given. */
    method GetL2(q: Request, generation: int, now: int, read: L2Read) returns (hit: Option<Endpoint>, forged: bool)
      requires Valid() && clock <= now && (read.Moved? ==> Signed(produced, read.endpoint))
      modifies this`order, this`l1, this`misplaced
      ensures Valid()
      ensures forged <==> read.Forged?
      ensures hit == if read.Moved? then Some(read.endpoint)
                     else if read.Reads? && L2Key(q, generation) in l2 && now < l2[L2Key(q, generation)].expiresAt
                     then Some(l2[L2Key(q, generation)].endpoint) else None
      ensures hit.Some? ==> Signed(produced, hit.value) && misplaced == Placed(old(misplaced), q, !read.Moved?)
      ensures hit.Some? && !read.Moved? ==> Within(produced, q, hit.value, now, l2Ttl)
      ensures hit.None? ==> l1 == old(l1) && order == old(order) && misplaced == old(misplaced)
    {
      if read.Moved? {
        PutL1(q, read.endpoint, now, false);
        return Some(read.endpoint), false;
      }
      var k := L2Key(q, generation);
      if !read.Reads? || k !in l2 || !Readable(l2[k], now) {
        return None, read.Forged?;
      }
      UnexpiredIsWithin(produced, q, l2[k].endpoint, l2[k].expiresAt, l2Ttl, now);
      BackedIsSigned(produced, q, l2[k].endpoint, now, l2Ttl);
      hide Within, Backed, Signed;
      PutL1(q, l2[k].endpoint, now, true);
      return Some(l2[k].endpoint), false;
    }

    /** Another process, or this one, stores a repository answer in L2. */
    method SetL2(q: Request, endpoint: Endpoint, answeredAt: int, now: int)
      requires Valid() && clock <= now && answeredAt <= now
      modifies this`l2, this`produced, this`clock
      ensures Valid() && clock == now && produced == old(produced) + {Produced(q, endpoint, answeredAt, now)}
      ensures l2 == old(l2)[L2Key(q, endpoint.generation) := Stored(endpoint, now + l2Ttl)]
    {
      ghost var p := Produced(q, endpoint, answeredAt, now);
      MoreProduced(produced, p, l1, misplaced, l2, l1Ttl + l2Ttl, l2Ttl);
      hide Indexes, L1Backed;
      clock := now;
      produced := produced + {p};
      l2 := l2[L2Key(q, endpoint.generation) := Stored(endpoint, now + l2Ttl)];
      assert p in produced;
    }

    /** A failed Redis write leaves both levels as they were. */
    method Put(q: Request, endpoint: Endpoint, answeredAt: int, now: int, redisOk: bool)
      requires Valid() && clock <= now && answeredAt <= now
      modifies this
      ensures Valid() && clock == now && produced == old(produced) + {Produced(q, endpoint, answeredAt, now)}
      ensures !redisOk ==> l1 == old(l1) && l2 == old(l2) && misplaced == old(misplaced)
      ensures redisOk ==>
                && order == Newest(Touched(old(order), q), maxEntries) && misplaced == old(misplaced) - {q}
                && l1 == Listed(old(l1)[q := Entry(endpoint, now + l1Ttl, now + l1Ttl + grace)], order)
                && l2 == old(l2)[L2Key(q, endpoint.generation) := Stored(endpoint, now + l2Ttl)]
    {
      ghost var p := Produced(q, endpoint, answeredAt, now);
      if !redisOk {
        MoreProduced(produced, p, l1, misplaced, l2, l1Ttl + l2Ttl, l2Ttl);
        hide Indexes, L1Backed, L2Backed;
        clock := now;
        produced := produced + {p};
        return;
      }
      SetL2(q, endpoint, answeredAt, now);
      assert p in produced;
      assert Backed(produced, q, endpoint, now, l2Ttl);
      PutL1(q, endpoint, now, true);
    }

    /** The resolver. get is called at time now, the repository answers at answeredAt, and what follows happens at time
        later. The answer is the live L1 entry if there is one, else what the repository says, else what L2 yields, else
        a denial: the stale grace never plays a part. Whatever is returned was signed. Unless it came from a misplaced
        envelope, now or when L1 was filled, it is the repository's answer to this request, cached at most l1Ttl + l2Ttl
        ago. */
    method Resolve(q: Request, generation: int, now: int, answeredAt: int, later: int, repository: Repository,
                   read: L2Read, redisOk: bool)
      returns (answer: Answer)
      requires Valid() && clock <= now <= answeredAt <= later && (read.Moved? ==> Signed(produced, read.endpoint))
      modifies this
      ensures Valid()
      ensures answer.Resolved? ==> Signed(produced, answer.endpoint)
      ensures answer.Resolved? && (if LiveIn(old(l1), q, now) then q !in old(misplaced)
                                   else repository.Unavailable? ==> !read.Moved?) ==>
                Within(produced, q, answer.endpoint, if LiveIn(old(l1), q, now) then now else later, l1Ttl + l2Ttl)
      ensures answer == if LiveIn(old(l1), q, now) then Resolved(old(l1)[q].endpoint)
                        else if repository.Refused? then Denied
                        else if repository.Routes?
                        then (if repository.best.Some? then Resolved(repository.best.value) else NoActiveRoute)
                        else if read.Forged? then InvalidSignature
                        else if read.Moved? then Resolved(read.endpoint)
                        else if read.Reads? && L2Key(q, generation) in old(l2)
                                && later < old(l2)[L2Key(q, generation)].expiresAt
                        then Resolved(old(l2)[L2Key(q, generation)].endpoint)
                        else RegistryUnavailable
    {
      var cached := Get(q, now, false);
      clock := now;
      if cached.Some? {
        if q !in misplaced {
          UnexpiredIsWithin(produced, q, cached.value, l1[q].expiresAt, l1Ttl + l2Ttl, now);
        }
        return Resolved(cached.value);
      }
      clock := later;
      match repository {
        case Refused =>
          answer := Denied;
        case Routes(best) =>
          if best.None? {
            return NoActiveRoute;
          }
          Put(q, best.value, answeredAt, later, redisOk);
          assert Produced(q, best.value, answeredAt, later) in produced;
          answer := Resolved(best.value);
        case Unavailable =>
          var fromL2, forged := GetL2(q, generation, later, read);
          if forged {
            return InvalidSignature;
          }
          if fromL2.Some? {
            assert !read.Moved? ==> Within(produced, q, fromL2.value, later, l1Ttl + l2Ttl);
            return Resolved(fromL2.value);
          }
          var stale := Get(q, later, !q.mutation);
          if stale.Some? {
            // The first get has evicted any entry that was not live, so there is never a stale one to return.
            assert false;
          }
          answer := RegistryUnavailable;
      }
    }
  }

  predicate LiveIn(l1: map<Request, Entry>, q: Request, now: int) {
    q in l1 && now <= l1[q].expiresAt
  }

  /** A Redis value is readable from the moment it is set until its time to live has passed. */
  predicate Readable(s: Stored, now: int) {
    now < s.expiresAt
  }
}
