/** The L1 table keeps the most recently used entries, said of the history of requests that were stored or hit. */
module EndpointRecency {
  import opened Base
  import opened EndpointRegistry

  /** The order of the table after these stores and hits, had nothing been evicted. */
  function Recency(touches: seq<Request>): seq<Request> {
    if touches == [] then [] else Touched(Recency(touches[..|touches| - 1]), touches[|touches| - 1])
  }

  /** The requests touched since q was last touched. */
  function Since(touches: seq<Request>, q: Request): set<Request> {
    if touches == [] || touches[|touches| - 1] == q then {}
    else Since(touches[..|touches| - 1], q) + {touches[|touches| - 1]}
  }

  /** The requests behind q in the order. */
  function Behind(order: seq<Request>, q: Request): set<Request> {
    if order == [] then {} else if order[0] == q then set x | x in order[1..] else Behind(order[1..], q)
  }

  lemma {:induction false} DistinctSize(order: seq<Request>)
    requires Distinct(order)
    ensures |set x | x in order| == |order|
  {
    if order != [] {
      DistinctSize(order[1..]);
      assert order[0] !in order[1..];
      assert (set x | x in order) == (set x | x in order[1..]) + {order[0]};
    }
  }

  lemma {:induction false} BehindSize(order: seq<Request>, q: Request)
    requires Distinct(order) && q in order
    ensures |Behind(order, q)| < |order|
  {
    DistinctSize(order[1..]);
    if order[0] != q {
      BehindSize(order[1..], q);
    }
  }

  lemma {:induction false} NewestExactly(order: seq<Request>, q: Request, n: nat)
    requires Distinct(order)
    ensures q in Newest(order, n) <==> q in order && |Behind(order, q)| < n
  {
    if |order| <= n {
      if q in order {
        BehindSize(order, q);
      }
    } else {
      var rest := order[1..];
      assert Newest(order, n) == Newest(rest, n);
      DistinctSize(rest);
      NewestExactly(rest, q, n);
      assert order[0] !in rest;
      assert q in order <==> q == order[0] || q in rest;
    }
  }

  lemma {:induction false} BehindAppended(order: seq<Request>, q: Request, t: Request)
    requires q in order
    ensures Behind(order + [t], q) == Behind(order, q) + {t}
  {
    assert (order + [t])[0] == order[0] && (order + [t])[1..] == order[1..] + [t];
    if order[0] != q {
      BehindAppended(order[1..], q, t);
    }
  }

  lemma {:induction false} BehindRemoved(order: seq<Request>, q: Request, t: Request)
    requires Distinct(order) && q in order && q != t
    ensures q in Removed(order, t) && Behind(Removed(order, t), q) == Behind(order, q) - {t}
  {
    var rest := order[1..];
    RemovedKeepsRest(rest, t);
    assert order[0] !in rest;
    if order[0] == q {
      assert Removed(order, t) == [q] + Removed(rest, t);
      assert Removed(order, t)[1..] == Removed(rest, t);
    } else {
      BehindRemoved(rest, q, t);
      if order[0] == t {
        NothingBehind(rest, q, t);
      } else {
        assert Removed(order, t)[1..] == Removed(rest, t);
      }
    }
  }

  lemma {:induction false} NothingBehind(order: seq<Request>, q: Request, t: Request)
    requires t !in order
    ensures t !in Behind(order, q)
  {
    if order != [] && order[0] != q {
      NothingBehind(order[1..], q, t);
    }
  }

  lemma {:induction false} LastHasNothingBehind(order: seq<Request>, q: Request)
    requires q !in order
    ensures Behind(order + [q], q) == {}
  {
    if order != [] {
      assert (order + [q])[0] == order[0] && (order + [q])[1..] == order[1..] + [q];
      LastHasNothingBehind(order[1..], q);
    }
  }

  lemma TouchedBehind(order: seq<Request>, q: Request, t: Request)
    requires Distinct(order)
    ensures q == t ==> Behind(Touched(order, t), q) == {}
    ensures q != t && q in order ==> Behind(Touched(order, t), q) == Behind(order, q) + {t}
  {
    RemovedKeepsRest(order, t);
    if q == t {
      LastHasNothingBehind(Removed(order, t), q);
    } else if q in order {
      BehindRemoved(order, q, t);
      BehindAppended(Removed(order, t), q, t);
    }
  }

  lemma {:induction false} RecencyExactly(touches: seq<Request>, q: Request)
    ensures Distinct(Recency(touches)) && (q in Recency(touches) <==> q in touches)
    ensures q in touches ==> Behind(Recency(touches), q) == Since(touches, q)
    decreases |touches|
  {
    if touches != [] {
      var init, t := touches[..|touches| - 1], touches[|touches| - 1];
      RecencyExactly(init, q);
      assert touches == init + [t];
      TouchKeepsRest(Recency(init), t);
      TouchedBehind(Recency(init), q, t);
      hide Touched, Behind;
    }
  }

  /** Least recently used, exactly: of n places a request keeps one if and only if it was touched at all and fewer than
      n different requests have been touched since. */
  lemma LeastRecentGoesFirst(touches: seq<Request>, q: Request, n: nat)
    ensures q in Newest(Recency(touches), n) <==> q in touches && |Since(touches, q)| < n
  {
    RecencyExactly(touches, q);
    NewestExactly(Recency(touches), q, n);
  }

  lemma TouchedHead(order: seq<Request>, q: Request)
    requires order != [] && Distinct(order)
    ensures Touched(order, q) == if order[0] == q then order[1..] + [q] else [order[0]] + Touched(order[1..], q)
  {
    assert order[0] !in order[1..];
    RemovedNothing(order[1..], order[0]);
  }

  lemma {:induction false} RemovedNothing(order: seq<Request>, q: Request)
    requires q !in order
    ensures Removed(order, q) == order
  {
    if order != [] {
      RemovedNothing(order[1..], q);
    }
  }

  /** Evicting at every store, as the table does, or only once in the end leaves the same entries in the same order. */
  lemma {:induction false} EvictionCommutes(order: seq<Request>, q: Request, n: nat)
    requires Distinct(order) && n > 0
    ensures Newest(Touched(Newest(order, n), q), n) == Newest(Touched(order, q), n)
    decreases |order|
  {
    if |order| > n {
      var x, rest := order[0], order[1..];
      assert Newest(order, n) == Newest(rest, n);
      EvictionCommutes(rest, q, n);
      TouchedHead(order, q);
      TouchKeepsRest(rest, q);
      if x == q {
        assert x !in rest;
        RemovedNothing(rest, q);
      } else {
        DropOldest(x, Touched(rest, q), n);
      }
      hide Touched, Newest;
    }
  }

  lemma DropOldest(x: Request, rest: seq<Request>, n: nat)
    requires |rest| >= n
    ensures Newest([x] + rest, n) == Newest(rest, n)
  {
  }
}
