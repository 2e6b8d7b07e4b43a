/** What a caller that calls `next()` while `hasNext()` answers true
    receives from a Paginator (the tests' `extract` helper). */
module Extraction {
  import opened Sequences
  import opened Provider
  import opened PaginatorSpec

  /** extract(paginator): `next()` while `hasNext()`; the items handed out
      and the state once `hasNext()` has answered false. */
  function Drain(s: State, results: seq<Item>): (r: (seq<Item>, State))
    requires Sizes(s) && Buffered(s)
    ensures Sizes(r.1)
    decreases Unexplored(s.unique, results), |s.items|
  {
    if s.items != [] then
      PopDelivers(s);
      var r := Drain(s.(items := s.items[1..]), results);
      ([s.items[0]] + r.0, r.1)
    else
      var t := Round(s, results);
      FetchDelivers(s, t, results);
      if t.items == [] then
        ([], t)
      else
        SeeingShrinks(s.unique, t.unique, results);
        Drain(t, results)
  }

  /** Handing out the head of a non-empty buffer, then the rest. */
  lemma DrainPops(s: State, results: seq<Item>)
    requires Sizes(s) && Buffered(s) && s.items != []
    ensures Buffered(s.(items := s.items[1..]))
    ensures var r := Drain(s.(items := s.items[1..]), results);
      Drain(s, results) == ([s.items[0]] + r.0, r.1)
  {
    PopDelivers(s);
  }

  /** Draining hands out the whole buffer before it fetches again. */
  lemma {:induction false} DrainBuffer(s: State, results: seq<Item>)
    requires Sizes(s) && Buffered(s)
    ensures Buffered(s.(items := []))
    ensures Drain(s, results)
      == (s.items + Drain(s.(items := []), results).0, Drain(s.(items := []), results).1)
    decreases |s.items|
  {
    if s.items != [] {
      var s' := s.(items := s.items[1..]);
      DrainPops(s, results);
      DrainBuffer(s', results);
      assert s'.(items := []) == s.(items := []);
      Associative([s.items[0]], s.items[1..], Drain(s.(items := []), results).0);
      assert s.items == [s.items[0]] + s.items[1..];
    } else {
      assert s.(items := []) == s;
      assert [] + Drain(s, results).0 == Drain(s, results).0;
    }
  }

  /** On an empty buffer, one fetch, then the rest unless nothing came. */
  lemma DrainFetches(s: State, results: seq<Item>)
    requires Sizes(s) && Buffered(s) && s.items == []
    ensures var t := Round(s, results);
      && Buffered(t) && Delivered(t) == s.unique
      && Drain(s, results) == if t.items == [] then ([], t) else Drain(t, results)
  {
    FetchDelivers(s, Round(s, results), results);
  }

  /** Draining hands out everything buffered and everything the source
      still yields, in the order it was seen. */
  lemma {:induction false} DrainDelivers(s: State, results: seq<Item>)
    requires Sizes(s) && Buffered(s)
    ensures var r := Drain(s, results);
      && Delivered(s) + r.0 == r.1.unique
      && Explores(s.unique, r.1.unique, results)
    decreases Unexplored(s.unique, results), |s.items|
  {
    if s.items != [] {
      var s' := s.(items := s.items[1..]);
      DrainPops(s, results);
      PopDelivers(s);
      DrainDelivers(s', results);
      var r := Drain(s', results);
      calc {
        Delivered(s) + Drain(s, results).0;
        Delivered(s) + ([s.items[0]] + r.0);
        { Associative(Delivered(s), [s.items[0]], r.0); }
        Delivered(s') + r.0;
      }
    } else {
      var t := Round(s, results);
      DrainFetches(s, results);
      FetchDelivers(s, t, results);
      assert Delivered(s) == s.unique;
      if t.items != [] {
        SeeingShrinks(s.unique, t.unique, results);
        DrainDelivers(t, results);
        ExploresTrans(s.unique, t.unique, Drain(t, results).1.unique, results);
      }
    }
  }

  /** Draining leaves the buffer empty. */
  lemma {:induction false} DrainEmpties(s: State, results: seq<Item>)
    requires Sizes(s) && Buffered(s)
    ensures Buffered(Drain(s, results).1) && Drain(s, results).1.items == []
    decreases Unexplored(s.unique, results), |s.items|
  {
    if s.items != [] {
      DrainPops(s, results);
      DrainEmpties(s.(items := s.items[1..]), results);
    } else {
      var t := Round(s, results);
      DrainFetches(s, results);
      FetchDelivers(s, t, results);
      if t.items != [] {
        SeeingShrinks(s.unique, t.unique, results);
        DrainEmpties(t, results);
      }
    }
  }

  /** Once drained, a further fetch changes nothing: `hasNext()` keeps
      answering false. */
  lemma {:induction false} DrainExhausts(s: State, results: seq<Item>)
    requires Sizes(s) && Buffered(s)
    ensures Round(Drain(s, results).1, results) == Drain(s, results).1
    decreases Unexplored(s.unique, results), |s.items|
  {
    if s.items != [] {
      DrainPops(s, results);
      DrainExhausts(s.(items := s.items[1..]), results);
    } else {
      var t := Round(s, results);
      DrainFetches(s, results);
      FetchDelivers(s, t, results);
      if t.items == [] {
        RoundAtRest(t, results);
      } else {
        SeeingShrinks(s.unique, t.unique, results);
        DrainExhausts(t, results);
      }
    }
  }

  /** A second fetch right after a fetch changes nothing. */
  lemma RoundSettles(s: State, results: seq<Item>)
    requires Sizes(s)
    ensures Round(Round(s, results), results) == Round(s, results)
  {
    RoundAtRest(Round(s, results), results);
  }

  /** hasNext() does not change what the rest of the session hands out,
      and when it answers false a further fetch changes nothing. */
  lemma DrainReady(s: State, results: seq<Item>)
    requires Sizes(s) && Buffered(s)
    ensures Buffered(Ready(s, results))
    ensures Drain(s, results) == Drain(Ready(s, results), results)
    ensures Ready(s, results).items == [] ==> Round(Ready(s, results), results) == Ready(s, results)
  {
    if s.items == [] {
      var t := Round(s, results);
      DrainFetches(s, results);
      RoundSettles(s, results);
      if t.items == [] {
        DrainFetches(t, results);
      }
    }
  }

  /** One `next()` followed by `hasNext()`: the head of the buffer, then the
      rest of the session; an item is seen or the buffer shrinks. */
  lemma DrainNext(a: State, results: seq<Item>)
    requires Sizes(a) && Buffered(a) && a.items != []
    ensures Buffered(a.(items := a.items[1..]))
    ensures var c := Ready(a.(items := a.items[1..]), results);
      && Buffered(c)
      && Drain(a, results) == ([a.items[0]] + Drain(c, results).0, Drain(c, results).1)
      && (c.items == [] ==> Round(c, results) == c)
      && (|| Unexplored(c.unique, results) < Unexplored(a.unique, results)
          || (c.unique == a.unique && |c.items| < |a.items|))
  {
    var b := a.(items := a.items[1..]);
    DrainPops(a, results);
    DrainReady(b, results);
    if b.items == [] {
      var c := Round(b, results);
      FetchDelivers(b, c, results);
      if c.items != [] {
        SeeingShrinks(b.unique, c.unique, results);
      }
    }
  }

  /** An empty buffer that a fetch leaves as it is ends the session. */
  lemma DrainSettled(t: State, results: seq<Item>)
    requires Sizes(t) && Buffered(t) && t.items == [] && Round(t, results) == t
    ensures Drain(t, results) == ([], t)
  {
    DrainFetches(t, results);
  }

  /** hasNext() answers whether the session has anything left, and
      changes nothing of what is left. */
  lemma HasNextInSession(s: State, results: seq<Item>)
    requires Sizes(s) && Buffered(s)
    ensures Buffered(Ready(s, results))
    ensures Ready(s, results).items != [] <==> Drain(s, results).0 != []
    ensures Drain(Ready(s, results), results) == Drain(s, results)
  {
    var t := Ready(s, results);
    DrainReady(s, results);
    if t.items != [] {
      DrainPops(t, results);
    } else {
      DrainSettled(t, results);
    }
  }

  /** next() hands out the next item of the session, or fails when the
      session has nothing left. */
  lemma NextInSession(s: State, results: seq<Item>)
    requires Sizes(s) && Buffered(s)
    ensures var t := Ready(s, results);
      && Buffered(t)
      && (t.items == [] <==> Drain(s, results).0 == [])
      && (t.items == [] ==> Drain(s, results) == ([], t) && Drain(t, results) == ([], t))
      && (t.items != [] ==>
            && Buffered(t.(items := t.items[1..]))
            && t.items[0] == Drain(s, results).0[0]
            && Drain(t.(items := t.items[1..]), results) == (Drain(s, results).0[1..], Drain(s, results).1))
  {
    var t := Ready(s, results);
    HasNextInSession(s, results);
    if t.items != [] {
      DrainPops(t, results);
      PopDelivers(t);
    } else {
      DrainSettled(t, results);
    }
  }
}
