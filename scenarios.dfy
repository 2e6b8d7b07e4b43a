/** Callers of a Paginator: the `next()`-while-`hasNext()` loop the tests
    use to collect a session, and the test scenarios of the source. */
module Scenarios {
  import opened Optional
  import opened Sequences
  import opened Provider
  import opened PaginatorSpec
  import opened Extraction
  import opened Guarantees
  import opened Pagination
  import opened TestData

  /** One round of the extract loop: `next()`, then `hasNext()`. */
  method Advance(p: Paginator) returns (x: Item, more: bool)
    requires p.Valid() && p.items != []
    modifies p
    ensures p.Valid() && p.provider.results == old(p.provider.results)
    ensures more <==> p.items != []
    ensures !more ==> Round(p.Abs(), p.provider.results) == p.Abs()
    ensures Drain(old(p.Abs()), p.provider.results)
      == ([x] + Drain(p.Abs(), p.provider.results).0, Drain(p.Abs(), p.provider.results).1)
    ensures || Unexplored(p.uniqueFetchedItems, p.provider.results) < Unexplored(old(p.uniqueFetchedItems), p.provider.results)
            || (p.uniqueFetchedItems == old(p.uniqueFetchedItems) && |p.items| < old(|p.items|))
  {
    DrainNext(p.Abs(), p.provider.results);
    var r := p.Next();
    x := r.value;
    more := p.HasNext();
  }

  /** extract(paginator): collects `next()` while `hasNext()` answers true;
      what it collects, and the state it leaves, are those of Drain. */
  method Extract(p: Paginator) returns (all: seq<Item>)
    requires p.Valid()
    modifies p
    ensures p.Valid()
    ensures (all, p.Abs()) == Drain(old(p.Abs()), p.provider.results)
    ensures all == old(Remaining(p))
  {
    ghost var results := p.provider.results;
    ghost var s0 := p.Abs();
    DrainReady(s0, results);
    all := [];
    var more := p.HasNext();
    assert all + Drain(p.Abs(), results).0 == Drain(p.Abs(), results).0;
    while more
      invariant p.Valid() && p.provider.results == results
      invariant more <==> p.items != []
      invariant !more ==> Round(p.Abs(), results) == p.Abs()
      invariant Drain(s0, results) == (all + Drain(p.Abs(), results).0, Drain(p.Abs(), results).1)
      decreases Unexplored(p.uniqueFetchedItems, results), |p.items|
    {
      ghost var a := p.Abs();
      var x;
      x, more := Advance(p);
      Associative(all, [x], Drain(p.Abs(), results).0);
      all := all + [x];
    }
    DrainSettled(p.Abs(), results);
    assert all + Drain(p.Abs(), results).0 == all;
  }

  /** What the rest of the session hands out. */
  ghost function Remaining(p: Paginator): seq<Item>
    reads p, p.provider
    requires p.Valid()
  {
    Drain(p.Abs(), p.provider.results).0
  }

  /** A fresh Paginator over a store it covers hands out the whole store. */
  lemma Covers(p: Paginator)
    requires p.Valid() && p.limit >= 1 && p.Abs() == Start(p.limit, p.maxLimit)
    requires Coverable(p.provider.results, p.maxLimit)
    ensures Remaining(p) == p.provider.results
  {
    Complete(p.limit, p.maxLimit, p.provider.results);
  }

  /** hasNext() seen from the session: true exactly when the session has
      something left, which it does not change. */
  method HasMore(p: Paginator) returns (b: bool)
    requires p.Valid()
    modifies p
    ensures p.Valid() && p.provider.results == old(p.provider.results)
    ensures b <==> old(Remaining(p)) != []
    ensures Remaining(p) == old(Remaining(p))
  {
    HasNextInSession(p.Abs(), p.provider.results);
    b := p.HasNext();
  }

  /** next() seen from the session: the first item the session has left,
      or None (the source's NoSuchElementException) when nothing is left. */
  method Take(p: Paginator) returns (r: Option<Item>)
    requires p.Valid()
    modifies p
    ensures p.Valid() && p.provider.results == old(p.provider.results)
    ensures var d := old(Remaining(p));
      && (r == if d == [] then None else Some(d[0]))
      && Remaining(p) == if d == [] then [] else d[1..]
  {
    NextInSession(p.Abs(), p.provider.results);
    r := p.Next();
  }

  /** Two `next()` calls: the first two items the session has left. */
  method TakeTwo(p: Paginator) returns (x: Option<Item>, y: Option<Item>)
    requires p.Valid() && |Remaining(p)| >= 2
    modifies p
    ensures p.Valid() && p.provider.results == old(p.provider.results)
    ensures x == Some(old(Remaining(p))[0]) && y == Some(old(Remaining(p))[1])
    ensures Remaining(p) == old(Remaining(p))[2..]
  {
    ghost var d := Remaining(p);
    x := Take(p);
    y := Take(p);
    assert d[1..][1..] == d[2..];
  }

  /** collectFirst(it, number): `next()` `number` times. Where the source
      would throw on an exhausted session, the loop stops early and says so. */
  method CollectFirst(p: Paginator, number: nat) returns (ret: seq<Item>, complete: bool)
    requires p.Valid()
    modifies p
    ensures p.Valid() && p.provider.results == old(p.provider.results)
    ensures var d := old(Remaining(p));
      && (complete <==> number <= |d|)
      && ret == d[..if complete then number else |d|]
      && Remaining(p) == d[|ret|..]
  {
    ghost var results := p.provider.results;
    ghost var d := Remaining(p);
    ret := [];
    var n := number;
    complete := true;
    while n > 0
      invariant p.Valid() && p.provider.results == results
      invariant |ret| + n == number && |ret| <= |d|
      invariant ret == d[..|ret|]
      invariant Remaining(p) == d[|ret|..]
    {
      ghost var k := |ret|;
      var x := Take(p);
      if x.None? {
        complete := false;
        return;
      }
      assert d[k..][1..] == d[k + 1..];
      assert d[..k + 1] == d[..k] + [x.value];
      ret := ret + [x.value];
      n := n - 1;
    }
  }

  /** setUp() and the five `add` calls of iterator(). */
  method IteratorSetUp() returns (p: Paginator)
    ensures fresh(p) && fresh(p.provider) && p.Valid()
    ensures p.Abs() == Start(3, None)
    ensures p.provider.results == [Item(5, 'E'), Item(4, 'D'), Item(3, 'C'), Item(2, 'B'), Item(1, 'A')]
  {
    var provider := new ListProvider();
    p := new Paginator(provider, 3);
    provider.Add(Item(1, 'A'));
    StoreA1();
    provider.Add(Item(2, 'B'));
    StoreB2A1();
    provider.Add(Item(3, 'C'));
    StoreC3B2A1();
    provider.Add(Item(4, 'D'));
    StoreD4C3B2A1();
    provider.Add(Item(5, 'E'));
    StoreE5D4C3B2A1();
  }

  /** The body of iterator() over any store a fresh session covers:
      hasNext(), then all the items in the store's order, then no more. */
  method CollectAll(p: Paginator) returns (first: bool, got: seq<Item>, last: bool)
    requires p.Valid() && Remaining(p) == p.provider.results != []
    modifies p
    ensures first && !last && got == p.provider.results
  {
    first := HasMore(p);
    var complete;
    got, complete := CollectFirst(p, |p.provider.results|);
    last := HasMore(p);
  }

  /** iterator(): five weights added in increasing order come out from the
      largest down, then hasNext() is false. */
  method Iterator() returns (first: bool, got: seq<Item>, last: bool)
    ensures first && !last
    ensures got == [Item(5, 'E'), Item(4, 'D'), Item(3, 'C'), Item(2, 'B'), Item(1, 'A')]
  {
    var p := IteratorSetUp();
    IteratorCoverable();
    Covers(p);
    first, got, last := CollectAll(p);
  }

  /** setUp() and the `add` calls of iteratorWithRepeatedWeights(). */
  method RepeatedWeightsSetUp() returns (p: Paginator)
    ensures fresh(p) && fresh(p.provider) && p.Valid()
    ensures p.Abs() == Start(3, None)
    ensures p.provider.results == [Item(4, 'E'), Item(3, 'D'), Item(2, 'C'), Item(2, 'B'), Item(1, 'A')]
  {
    var provider := new ListProvider();
    p := new Paginator(provider, 3);
    provider.Add(Item(1, 'A'));
    StoreA1();
    provider.Add(Item(2, 'B'));
    StoreB2A1();
    provider.Add(Item(2, 'C'));
    StoreC2B2A1();
    provider.Add(Item(3, 'D'));
    StoreD3B2C2A1();
    provider.Add(Item(4, 'E'));
    StoreE4D3C2B2A1();
  }

  /** The body of iteratorWithRepeatedWeights() over any store of five
      items a fresh session covers: next(), next(), collectFirst(2), next()
      hand out the store in its order. */
  method TakeTwoPairOne(p: Paginator) returns (e: Option<Item>, d: Option<Item>, pair: seq<Item>, a: Option<Item>)
    requires p.Valid() && Remaining(p) == p.provider.results && |p.provider.results| == 5
    modifies p
    ensures var r := old(p.provider.results);
      && e == Some(r[0]) && d == Some(r[1]) && pair == [r[2], r[3]] && a == Some(r[4])
  {
    ghost var results := p.provider.results;
    e, d := TakeTwo(p);
    var complete;
    pair, complete := CollectFirst(p, 2);
    assert results[2..][..2] == [results[2], results[3]];
    assert results[2..][2..] == results[4..];
    a := Take(p);
  }

  /** iteratorWithRepeatedWeights(): E, then D, then C and B (the test
      accepts them in either order), then A. */
  method RepeatedWeights() returns (e: Option<Item>, d: Option<Item>, pair: seq<Item>, a: Option<Item>)
    ensures e == Some(Item(4, 'E')) && d == Some(Item(3, 'D')) && a == Some(Item(1, 'A'))
    ensures pair == [Item(2, 'C'), Item(2, 'B')]
  {
    var p := RepeatedWeightsSetUp();
    RepeatedWeightsCoverable();
    Covers(p);
    e, d, pair, a := TakeTwoPairOne(p);
  }

  /** setUp() and the `add` calls of iteratorWithRepeatedWeightsLargerThanPaginationSize(). */
  method RepeatsPastLimitSetUp() returns (p: Paginator)
    ensures fresh(p) && fresh(p.provider) && p.Valid()
    ensures p.Abs() == Start(3, None)
    ensures p.provider.results == [Item(3, 'F'), Item(2, 'D'), Item(2, 'B'), Item(2, 'C'), Item(2, 'E'), Item(1, 'A')]
  {
    var provider := new ListProvider();
    p := new Paginator(provider, 3);
    provider.Add(Item(1, 'A'));
    StoreA1();
    provider.Add(Item(2, 'B'));
    StoreB2A1();
    provider.Add(Item(2, 'C'));
    StoreC2B2A1();
    provider.Add(Item(2, 'D'));
    StoreD2B2C2A1();
    provider.Add(Item(2, 'E'));
    StoreE2C2B2D2A1();
    provider.Add(Item(3, 'F'));
    StoreF3D2B2C2E2A1();
  }

  /** iteratorWithRepeatedWeightsLargerThanPaginationSize(): a run of four
      equal weights, longer than the batch size of three, still comes out
      whole: the batch size doubles while a batch brings nothing new. */
  method RepeatsPastLimit() returns (all: seq<Item>)
    ensures all == [Item(3, 'F'), Item(2, 'D'), Item(2, 'B'), Item(2, 'C'), Item(2, 'E'), Item(1, 'A')]
  {
    var p := RepeatsPastLimitSetUp();
    RepeatsPastLimitCoverable();
    Covers(p);
    all := Extract(p);
  }

  /** setUp(), setMaxLimit(4) and the `add` calls of maxLimitCanMakeThePaginatorSurpassRepeatingItems(). */
  method CeilingSufficesSetUp() returns (p: Paginator)
    ensures fresh(p) && fresh(p.provider) && p.Valid()
    ensures p.Abs() == Start(3, Some(4))
    ensures p.provider.results == [Item(3, 'E'), Item(2, 'C'), Item(2, 'B'), Item(2, 'D'), Item(1, 'A')]
  {
    var provider := new ListProvider();
    p := new Paginator(provider, 3);
    p.SetMaxLimit(4);
    provider.Add(Item(1, 'A'));
    StoreA1();
    provider.Add(Item(2, 'B'));
    StoreB2A1();
    provider.Add(Item(2, 'C'));
    StoreC2B2A1();
    provider.Add(Item(2, 'D'));
    StoreD2B2C2A1();
    provider.Add(Item(3, 'E'));
    StoreE3C2B2D2A1();
  }

  /** maxLimitCanMakeThePaginatorSurpassRepeatingItems(): under a ceiling
      of four, a run of three equal weights still comes out whole. */
  method CeilingSuffices() returns (all: seq<Item>)
    ensures all == [Item(3, 'E'), Item(2, 'C'), Item(2, 'B'), Item(2, 'D'), Item(1, 'A')]
  {
    var p := CeilingSufficesSetUp();
    CeilingSufficesCoverable();
    Covers(p);
    all := Extract(p);
  }

  /** setUp(), setMaxLimit(4) and the `add` calls of maxLimitSmallerThanNumberOfRepeatingItems(). */
  method CeilingTooLowSetUp() returns (p: Paginator)
    ensures fresh(p) && fresh(p.provider) && p.Valid()
    ensures p.Abs() == Start(3, Some(4))
    ensures p.provider.results == [Item(3, 'G'), Item(2, 'E'), Item(2, 'C'), Item(2, 'B'), Item(2, 'D'), Item(2, 'F'), Item(1, 'A')]
  {
    var provider := new ListProvider();
    p := new Paginator(provider, 3);
    p.SetMaxLimit(4);
    provider.Add(Item(1, 'A'));
    StoreA1();
    provider.Add(Item(2, 'B'));
    StoreB2A1();
    provider.Add(Item(2, 'C'));
    StoreC2B2A1();
    provider.Add(Item(2, 'D'));
    StoreD2B2C2A1();
    provider.Add(Item(2, 'E'));
    StoreE2C2B2D2A1();
    provider.Add(Item(2, 'F'));
    StoreF2D2B2C2E2A1();
    provider.Add(Item(3, 'G'));
    StoreG3E2C2B2D2F2A1();
  }

  /** The session of maxLimitSmallerThanNumberOfRepeatingItems(), as
      computed step by step in TestData.TooLowSession. */
  lemma CoversTooLow(p: Paginator)
    requires p.Valid() && p.Abs() == Start(3, Some(4))
    requires p.provider.results == [Item(3, 'G'), Item(2, 'E'), Item(2, 'C'), Item(2, 'B'), Item(2, 'D'), Item(2, 'F'), Item(1, 'A')]
    ensures Remaining(p) == [Item(3, 'G'), Item(2, 'E'), Item(2, 'C'), Item(2, 'B'), Item(2, 'D')]
  {
    assert p.Abs() == S0 && p.provider.results == TooLow;
    TooLowSession();
  }

  /** What maxLimitSmallerThanNumberOfRepeatingItems() asserts of the items
      it collects: G, one of the items of weight 2, not A, four to six in all. */
  predicate TooLowAsserted(all: seq<Item>)
  {
    && Item(3, 'G') in all && Item(1, 'A') !in all
    && (exists x :: x in all && x.param == 2)
    && 4 <= |all| <= 6
  }

  lemma TooLowMeetsAsserted()
    ensures TooLowAsserted([Item(3, 'G'), Item(2, 'E'), Item(2, 'C'), Item(2, 'B'), Item(2, 'D')])
  {
    var all := [Item(3, 'G'), Item(2, 'E'), Item(2, 'C'), Item(2, 'B'), Item(2, 'D')];
    assert all[1] in all && all[1].param == 2;
  }

  /** maxLimitSmallerThanNumberOfRepeatingItems(): a run of five equal
      weights under a ceiling of four. The session hands out G, then E, C,
      B, D, and stops: the batch of four at the cursor 2 brings nothing new
      and the batch size cannot grow past the ceiling, so F and A are never
      reached. What the test asserts of the result holds. */
  method CeilingTooLow() returns (all: seq<Item>)
    ensures all == [Item(3, 'G'), Item(2, 'E'), Item(2, 'C'), Item(2, 'B'), Item(2, 'D')]
    ensures TooLowAsserted(all)
  {
    var p := CeilingTooLowSetUp();
    CoversTooLow(p);
    all := Extract(p);
    TooLowMeetsAsserted();
  }

  /** setUp() and the `add` calls of limitLargerThanNumberOfItems(). */
  method FewerThanLimitSetUp() returns (p: Paginator)
    ensures fresh(p) && fresh(p.provider) && p.Valid()
    ensures p.Abs() == Start(3, None)
    ensures p.provider.results == [Item(2, 'B'), Item(1, 'A')]
  {
    var provider := new ListProvider();
    p := new Paginator(provider, 3);
    provider.Add(Item(1, 'A'));
    StoreA1();
    provider.Add(Item(2, 'B'));
    StoreB2A1();
  }

  /** limitLargerThanNumberOfItems(): a first batch shorter than the
      batch size ends the session after both items. */
  method FewerThanLimit() returns (all: seq<Item>)
    ensures all == [Item(2, 'B'), Item(1, 'A')]
  {
    var p := FewerThanLimitSetUp();
    FewerThanLimitCoverable();
    Covers(p);
    all := Extract(p);
  }

  /** hasNextOnEmptyCollection(): an empty provider has nothing to hand out. */
  method HasNextOnEmpty() returns (b: bool)
    ensures !b
  {
    var provider := new ListProvider();
    var p := new Paginator(provider, 3);
    assert Coverable(p.provider.results, None);
    Covers(p);
    b := HasMore(p);
  }
}
