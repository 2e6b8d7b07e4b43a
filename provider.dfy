/** The in-memory provider the paginator's tests run against
    (AbstractProvider): a list of items kept in non-increasing order of
    their parameter, answering "up to `limit` items at or before `p`". */
module Provider {
  import opened Optional
  import opened Sequences

  /** One element of the source: `param` is what `getParameter` returns
      (the weight of the tests), `name` the payload (their string).
      Equality is structural, as in the tests' hand-written `equals`. */
  datatype Item = Item(param: int, name: char)

  /** `getParameter(x).compareTo(p) <= 0`; a null parameter filters nothing. */
  predicate AtOrBefore(x: Item, p: Option<int>)
  {
    p.None? || x.param <= p.value
  }

  /** The filter of `provide` as a predicate on items. */
  function Below(p: Option<int>): Item -> bool
  {
    (x: Item) => AtOrBefore(x, p)
  }

  function Filtered(results: seq<Item>, p: Option<int>): seq<Item>
  {
    Keep(results, Below(p))
  }

  function Min(a: int, b: int): int
  {
    if a < b then a else b
  }

  /** What `provide(p, limit)` returns. The size test runs after every
      element, added or not: a positive limit truncates the filtered list to
      its first `limit` elements; a zero limit stops at once when the first
      element is filtered out and never stops otherwise; a negative limit
      never stops. */
  function Provided(results: seq<Item>, p: Option<int>, limit: int): (r: seq<Item>)
    ensures r <= Filtered(results, p)
    ensures forall i :: 0 <= i < |r| ==> r[i] in results && AtOrBefore(r[i], p)
    ensures limit >= 1 ==> |r| == Min(limit, |Filtered(results, p)|)
    ensures limit < 0 ==> r == Filtered(results, p)
  {
    KeepMembers(results, Below(p));
    var f := Filtered(results, p);
    if limit >= 1 then
      if |f| <= limit then f else f[..limit]
    else if limit == 0 && results != [] && !AtOrBefore(results[0], p) then
      []
    else
      f
  }

  /** With a null parameter nothing is filtered out. */
  lemma {:induction false} UnfilteredWithoutParameter(results: seq<Item>)
    ensures Filtered(results, None) == results
  {
    if results != [] {
      UnfilteredWithoutParameter(results[1..]);
    }
  }

  predicate NonIncreasing(s: seq<Item>)
  {
    Pairwise(s, (a: Item, b: Item) => a.param >= b.param)
  }

  predicate NonDecreasing(s: seq<Item>)
  {
    Pairwise(s, (a: Item, b: Item) => a.param <= b.param)
  }

  /** Over a sorted list the answer is sorted, and every answer of a list
      without repetitions has none. */
  lemma ProvidedKeepsOrder(results: seq<Item>, p: Option<int>, limit: int)
    ensures NonIncreasing(results) ==> NonIncreasing(Provided(results, p, limit))
    ensures Distinct(results) ==> Distinct(Provided(results, p, limit))
  {
    var r := Provided(results, p, limit);
    if NonIncreasing(results) {
      KeepPairwise(results, Below(p), (a: Item, b: Item) => a.param >= b.param);
      PairwisePrefix(Filtered(results, p), r, (a: Item, b: Item) => a.param >= b.param);
    }
    if Distinct(results) {
      KeepPairwise(results, Below(p), (a: Item, b: Item) => a != b);
      PairwisePrefix(Filtered(results, p), r, (a: Item, b: Item) => a != b);
    }
  }

  /** Stable insertion of `x`, which came before every element of `s`:
      in front of the first element whose parameter is at least `x`'s. */
  function Insert(x: Item, s: seq<Item>): seq<Item>
  {
    if s == [] || x.param <= s[0].param then [x] + s else [s[0]] + Insert(x, s[1..])
  }

  /** `Collections.sort` by parameter, a stable sort, as insertion sort. */
  function SortedByParam(s: seq<Item>): seq<Item>
  {
    if s == [] then [] else Insert(s[0], SortedByParam(s[1..]))
  }

  /** `Collections.reverse`. */
  function Reversed<T>(s: seq<T>): seq<T>
  {
    if s == [] then [] else Reversed(s[1..]) + [s[0]]
  }

  /** Keeps the items whose parameter is `v`. */
  function WithParam(v: int): Item -> bool
  {
    (x: Item) => x.param == v
  }

  /** The first element of an ascending list is the smallest, and the rest
      is ascending too. */
  lemma AscendingTail(s: seq<Item>)
    requires NonDecreasing(s) && s != []
    ensures NonDecreasing(s[1..])
    ensures forall y :: y in s ==> s[0].param <= y.param
  {
    forall i, j | 0 <= i < j < |s[1..]| ensures s[1..][i].param <= s[1..][j].param {
      assert s[1..][i] == s[i + 1] && s[1..][j] == s[j + 1];
    }
    forall y | y in s ensures s[0].param <= y.param {
      var k :| 0 <= k < |s| && s[k] == y;
      assert k == 0 || s[0].param <= s[k].param;
    }
  }

  lemma {:induction false} InsertSorted(x: Item, s: seq<Item>)
    requires NonDecreasing(s)
    ensures NonDecreasing(Insert(x, s))
    ensures multiset(Insert(x, s)) == multiset{x} + multiset(s)
  {
    var Le := (a: Item, b: Item) => a.param <= b.param;
    if s == [] {
    } else {
      AscendingTail(s);
      if x.param <= s[0].param {
        PairwiseConcat([x], s, Le);
        return;
      }
      InsertSorted(x, s[1..]);
      var rest := Insert(x, s[1..]);
      forall y | y in rest ensures s[0].param <= y.param {
        assert y in multiset(rest);
        if y != x {
          assert y in s;
        }
      }
      PairwiseConcat([s[0]], rest, Le);
      assert s == [s[0]] + s[1..];
    }
  }

  /** Insertion places `x` in front of every element with its parameter. */
  lemma {:induction false} InsertStable(x: Item, s: seq<Item>, v: int)
    requires NonDecreasing(s)
    ensures Keep(Insert(x, s), WithParam(v)) == Keep([x], WithParam(v)) + Keep(s, WithParam(v))
  {
    if s == [] || x.param <= s[0].param {
      KeepConcat([x], s, WithParam(v));
    } else {
      AscendingTail(s);
      InsertStable(x, s[1..], v);
      if s[0].param == v {
        assert x.param != v;
      }
    }
  }

  /** The sort is ascending and a permutation. */
  lemma {:induction false} SortCorrect(s: seq<Item>)
    ensures NonDecreasing(SortedByParam(s))
    ensures multiset(SortedByParam(s)) == multiset(s)
  {
    if s != [] {
      SortCorrect(s[1..]);
      InsertSorted(s[0], SortedByParam(s[1..]));
      assert s == [s[0]] + s[1..];
    }
  }

  /** The sort is stable: for every parameter value the items carrying it
      keep their relative order. With SortCorrect this determines the
      result, so the two specify `Collections.sort`. */
  lemma {:induction false} SortStable(s: seq<Item>, v: int)
    ensures Keep(SortedByParam(s), WithParam(v)) == Keep(s, WithParam(v))
  {
    if s != [] {
      SortStable(s[1..], v);
      SortCorrect(s[1..]);
      InsertStable(s[0], SortedByParam(s[1..]), v);
    }
  }

  lemma {:induction false} ReversedAt<T>(s: seq<T>)
    ensures |Reversed(s)| == |s|
    ensures forall k :: 0 <= k < |s| ==> Reversed(s)[k] == s[|s| - 1 - k]
    ensures multiset(Reversed(s)) == multiset(s)
  {
    if s != [] {
      ReversedAt(s[1..]);
      assert s == [s[0]] + s[1..];
    }
  }

  /** Sorting ascending and then reversing yields a non-increasing
      permutation of the input. */
  lemma SortThenReverse(s: seq<Item>)
    ensures NonIncreasing(Reversed(SortedByParam(s)))
    ensures multiset(Reversed(SortedByParam(s))) == multiset(s)
  {
    var t := SortedByParam(s);
    SortCorrect(s);
    ReversedAt(t);
    var r := Reversed(t);
    forall i, j | 0 <= i < j < |r| ensures r[i].param >= r[j].param {
      assert t[|t| - 1 - j].param <= t[|t| - 1 - i].param;
    }
  }

  /** The list after `add(obj)`. */
  function Added(results: seq<Item>, obj: Item): seq<Item>
  {
    Reversed(SortedByParam(results + [obj]))
  }

  /** After `add(obj)` the list is sorted from the largest parameter down
      and holds exactly the old items and `obj`. */
  lemma AddedSorted(results: seq<Item>, obj: Item)
    ensures NonIncreasing(Added(results, obj))
    ensures multiset(Added(results, obj)) == multiset(results) + multiset{obj}
  {
    SortThenReverse(results + [obj]);
  }

  lemma FilteredStep(results: seq<Item>, i: int, p: Option<int>)
    requires 0 <= i < |results|
    ensures Filtered(results[..i + 1], p)
      == Filtered(results[..i], p) + (if AtOrBefore(results[i], p) then [results[i]] else [])
  {
    assert results[..i + 1] == results[..i] + [results[i]];
    KeepConcat(results[..i], [results[i]], Below(p));
  }

  /** Once the first `i` elements hold `limit` matches, `provide` is done. */
  lemma FilteredPrefix(results: seq<Item>, i: int, p: Option<int>)
    requires 0 <= i <= |results|
    ensures Filtered(results[..i], p) <= Filtered(results, p)
  {
    assert results == results[..i] + results[i..];
    KeepConcat(results[..i], results[i..], Below(p));
  }

  /** A provider over an in-memory list: `results` is the list the source
      class keeps, sorted by parameter from the largest down. */
  class ListProvider {
    var results: seq<Item>

    constructor ()
      ensures results == []
    {
      results := [];
    }

    /** provide(parameter, limit): the for-each loop with its early break. */
    method Provide(p: Option<int>, limit: int) returns (ret: seq<Item>)
      ensures ret == Provided(results, p, limit)
    {
      ret := [];
      var i := 0;
      while i < |results|
        invariant 0 <= i <= |results|
        invariant ret == Filtered(results[..i], p)
        invariant limit >= 1 ==> |ret| < limit
        invariant limit == 0 && 0 < i ==> |ret| > 0 && AtOrBefore(results[0], p)
      {
        var element := results[i];
        FilteredStep(results, i, p);
        if AtOrBefore(element, p) {
          ret := ret + [element];
        }
        i := i + 1;
        if |ret| == limit {
          FilteredPrefix(results, i, p);
          break;
        }
      }
      assert results[..|results|] == results;
    }

    /** add(obj): append, sort ascending by parameter, reverse. */
    method Add(obj: Item)
      modifies this
      ensures results == Added(old(results), obj)
    {
      results := results + [obj];
      results := SortedByParam(results);
      results := Reversed(results);
    }
  }
}
