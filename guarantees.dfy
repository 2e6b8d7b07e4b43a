/** What a whole session with a Paginator over a list provider promises:
    no item twice, the source's order kept, and, over a source whose
    parameters strictly decrease, every item handed out. */
module Guarantees {
  import opened Optional
  import opened Sequences
  import opened Provider
  import opened PaginatorSpec
  import opened Extraction

  /** Over a non-increasing source: the seen-list is non-increasing, the
      cursor is the parameter of the last item seen (null before any), and
      no ascending order was guessed. */
  predicate Descending(s: State)
  {
    && NonIncreasing(s.unique)
    && (s.unique == [] <==> s.parameter.None?)
    && (s.unique != [] ==> s.parameter == Some(s.unique[|s.unique| - 1].param))
    && s.order != Some(Ascending)
  }

  /** Over a non-increasing batch the cursor moves to its last item and
      no ascending order is guessed. */
  lemma CursorOnLast(l: seq<Item>, parameter: Option<int>, order: Option<Order>)
    requires NonIncreasing(l) && l != [] && order != Some(Ascending)
    ensures NextCursor(l, parameter, order).0 == Some(l[|l| - 1].param)
    ensures NextCursor(l, parameter, order).1 != Some(Ascending)
  {
    if |l| >= 2 {
      assert l[0].param >= l[|l| - 1].param;
    }
  }

  /** A non-increasing batch at or before the cursor keeps the seen-list
      non-increasing and the cursor on its last item. */
  lemma AbsorbKeepsDescending(s: State, fetched: seq<Item>)
    requires Descending(s) && NonIncreasing(fetched)
    requires forall i :: 0 <= i < |fetched| ==> AtOrBefore(fetched[i], s.parameter)
    ensures Descending(Absorb(s, fetched).0)
  {
    var Ge := (a: Item, b: Item) => a.param >= b.param;
    var novel := Unseen(fetched, s.unique);
    var t := Absorb(s, fetched).0;
    if novel == [] {
      assert t.unique == s.unique && t.parameter == s.parameter && t.order == s.order;
    } else {
      KeepPairwise(fetched, NotIn(s.unique), Ge);
      KeepMembers(fetched, NotIn(s.unique));
      forall x, y | x in s.unique && y in novel ensures x.param >= y.param {
        var k :| 0 <= k < |s.unique| && s.unique[k] == x;
        assert k == |s.unique| - 1 || Ge(s.unique[k], s.unique[|s.unique| - 1]);
      }
      PairwiseConcat(s.unique, novel, Ge);
      CursorOnLast(novel, s.parameter, s.order);
      assert t.unique[|t.unique| - 1] == novel[|novel| - 1];
    }
  }

  lemma StepKeepsDescending(s: State, results: seq<Item>)
    requires NonIncreasing(results) && Descending(s)
    ensures Descending(Step(s, results).0)
  {
    ProvidedKeepsOrder(results, s.parameter, s.actualLimit);
    AbsorbKeepsDescending(s, Provided(results, s.parameter, s.actualLimit));
  }

  /** A batch without repetitions keeps the seen-list without repetitions. */
  lemma AbsorbKeepsDistinct(s: State, fetched: seq<Item>)
    requires Distinct(s.unique) && Distinct(fetched)
    ensures Distinct(Absorb(s, fetched).0.unique)
  {
    var novel := Unseen(fetched, s.unique);
    KeepPairwise(fetched, NotIn(s.unique), (a: Item, b: Item) => a != b);
    KeepMembers(fetched, NotIn(s.unique));
    forall x, y | x in s.unique && y in novel ensures x != y {
      var k :| 0 <= k < |novel| && novel[k] == y;
    }
    PairwiseConcat(s.unique, novel, (a: Item, b: Item) => a != b);
  }

  /** What every tryFetch keeps over a source without repetitions, and over
      a non-increasing source. */
  predicate Orderly(s: State, results: seq<Item>)
  {
    && (Distinct(results) ==> Distinct(s.unique))
    && (NonIncreasing(results) ==> Descending(s))
  }

  lemma StepKeepsOrderly(s: State, results: seq<Item>)
    requires Orderly(s, results)
    ensures Orderly(Step(s, results).0, results)
  {
    var fetched := Provided(results, s.parameter, s.actualLimit);
    ProvidedKeepsOrder(results, s.parameter, s.actualLimit);
    if Distinct(results) {
      AbsorbKeepsDistinct(s, fetched);
    }
    if NonIncreasing(results) {
      AbsorbKeepsDescending(s, fetched);
    }
  }

  lemma {:induction false} RoundKeepsOrderly(s: State, results: seq<Item>)
    requires Sizes(s) && Orderly(s, results)
    ensures Orderly(Round(s, results), results)
    decreases Unexplored(s.unique, results), Headroom(s, results)
  {
    if |s.items| < s.limit {
      var (s1, stop) := Step(s, results);
      StepKeepsOrderly(s, results);
      if !stop {
        AbsorbKeepsShape(s, Provided(results, s.parameter, s.actualLimit));
        StepShrinks(s, results);
        RoundKeepsOrderly(s1, results);
      }
    }
  }

  lemma {:induction false} DrainKeepsOrderly(s: State, results: seq<Item>)
    requires Sizes(s) && Buffered(s) && Orderly(s, results)
    ensures Orderly(Drain(s, results).1, results)
    decreases Unexplored(s.unique, results)
  {
    var e := s.(items := []);
    DrainBuffer(s, results);
    assert Orderly(e, results) by {
      assert e.unique == s.unique && e.parameter == s.parameter && e.order == s.order;
    }
    var t := Round(e, results);
    DrainFetches(e, results);
    RoundKeepsOrderly(e, results);
    if t.items != [] {
      SeeingShrinks(e.unique, t.unique, results);
      DrainKeepsOrderly(t, results);
    }
  }

  /** A session from a state that has seen nothing yet hands out what its
      final state has seen. */
  lemma SessionFromNothing(s: State, results: seq<Item>)
    requires Sizes(s) && s.unique == [] && s.items == [] && Orderly(s, results)
    ensures var out := Drain(s, results).0;
      && (forall i :: 0 <= i < |out| ==> out[i] in results)
      && (Distinct(results) ==> Distinct(out))
      && (NonIncreasing(results) ==> NonIncreasing(out))
  {
    var r := Drain(s, results);
    DrainDelivers(s, results);
    DrainKeepsOrderly(s, results);
    assert Delivered(s) == [];
    assert r.0 == r.1.unique by {
      assert [] + r.0 == r.0;
    }
    SeenOrderly(r.1, results);
  }

  /** What a seen-list grown from nothing by source items promises when
      its state is Orderly. */
  lemma SeenOrderly(t: State, results: seq<Item>)
    requires Explores([], t.unique, results) && Orderly(t, results)
    ensures forall i :: 0 <= i < |t.unique| ==> t.unique[i] in results
    ensures Distinct(results) ==> Distinct(t.unique)
    ensures NonIncreasing(results) ==> NonIncreasing(t.unique)
  {
  }

  /** A session from a fresh Paginator hands out only items of the source,
      none of them twice when the source holds none twice, and in
      non-increasing order when the source is. */
  lemma Session(limit: int, maxLimit: Option<int>, results: seq<Item>)
    requires Sizes(Start(limit, maxLimit))
    ensures var out := Drain(Start(limit, maxLimit), results).0;
      && (forall i :: 0 <= i < |out| ==> out[i] in results)
      && (Distinct(results) ==> Distinct(out))
      && (NonIncreasing(results) ==> NonIncreasing(out))
  {
    SessionFromNothing(Start(limit, maxLimit), results);
  }

  /** Every run of items with equal parameters is shorter than `m`. */
  predicate ShorterRuns(results: seq<Item>, m: int)
  {
    forall i, j :: 0 <= i <= j < |results| && results[i].param == results[j].param ==> j - i + 1 < m
  }

  /** A source a session is sure to hand out completely (a sufficient
      condition, not a necessary one): sorted from the largest parameter
      down, no item twice, and, under a ceiling, a ceiling of at least two
      with every run of equal parameters shorter than it. */
  predicate Coverable(results: seq<Item>, maxLimit: Option<int>)
  {
    && NonIncreasing(results)
    && Distinct(results)
    && (maxLimit.Some? ==> maxLimit.value >= 2 && ShorterRuns(results, maxLimit.value))
  }

  /** Where the run of items with the parameter of `results[k]` begins. */
  function RunStart(results: seq<Item>, k: int): (f: int)
    requires 0 <= k < |results|
    ensures 0 <= f <= k && results[f].param == results[k].param
    ensures f == 0 || results[f - 1].param != results[k].param
  {
    if k > 0 && results[k - 1].param == results[k].param then RunStart(results, k - 1) else k
  }

  /** Quantifier-instantiation helper: NonIncreasing at one pair of
      positions, including i == j. */
  lemma NonIncreasingAt(s: seq<Item>, i: int, j: int)
    requires NonIncreasing(s) && 0 <= i <= j < |s|
    ensures s[i].param >= s[j].param
  {
  }

  /** Over a non-increasing source the items at or before the parameter
      `v` that a run starting at `f` carries are those from `f` on. */
  lemma FilteredFrom(results: seq<Item>, f: int, v: int)
    requires NonIncreasing(results) && 0 <= f < |results|
    requires results[f].param == v && (f == 0 || results[f - 1].param != v)
    ensures Filtered(results, Some(v)) == results[f..]
  {
    SplitAt(results, f);
    KeepConcat(results[..f], results[f..], Below(Some(v)));
    AboveRun(results, f, v);
    WithinRun(results, f, v);
  }

  /** Before the start of a run, every parameter is larger. */
  lemma AboveRun(results: seq<Item>, f: int, v: int)
    requires NonIncreasing(results) && 0 <= f < |results|
    requires results[f].param == v && (f == 0 || results[f - 1].param != v)
    ensures Keep(results[..f], Below(Some(v))) == []
  {
    var before := results[..f];
    forall i | 0 <= i < |before| ensures before[i].param > v {
      NonIncreasingAt(results, i, f - 1);
      NonIncreasingAt(results, f - 1, f);
    }
    KeepNothing(before, Below(Some(v)));
  }

  /** From the start of a run on, no parameter is larger. */
  lemma WithinRun(results: seq<Item>, f: int, v: int)
    requires NonIncreasing(results) && 0 <= f < |results| && results[f].param == v
    ensures Keep(results[f..], Below(Some(v))) == results[f..]
  {
    var after := results[f..];
    forall i | 0 <= i < |after| ensures after[i].param <= v {
      NonIncreasingAt(results, f, f + i);
    }
    KeepAll(after, Below(Some(v)));
  }

  /** Quantifier-instantiation helper: Distinct at one pair of positions. */
  lemma DistinctAt(s: seq<Item>, i: int, j: int)
    requires Distinct(s) && 0 <= i < j < |s|
    ensures s[i] != s[j]
  {
  }

  /** In a list without repetitions no item past position `k` occurs in
      the first `k`. */
  lemma FreshAfter(results: seq<Item>, k: int, x: int)
    requires Distinct(results) && 0 <= k <= x < |results|
    ensures results[x] !in results[..k]
  {
    forall i | 0 <= i < k ensures results[..k][i] != results[x] {
      DistinctAt(results, i, x);
    }
  }

  /** Dropping a prefix's items from a window over a list without
      repetitions leaves the part of the window past the prefix. */
  lemma UnseenWindow(results: seq<Item>, j: int, k: int, e: int)
    requires Distinct(results) && 0 <= j <= k <= |results| && j <= e <= |results|
    ensures Unseen(results[j..e], results[..k]) == if e <= k then [] else results[k..e]
  {
    var seen := results[..k];
    var m := if e <= k then e else k;
    assert results[j..e] == results[j..m] + results[m..e];
    KeepConcat(results[j..m], results[m..e], NotIn(seen));
    forall i | 0 <= i < m - j ensures !NotIn(seen)(results[j..m][i]) {
      assert results[j..m][i] == seen[j + i];
    }
    KeepNothing(results[j..m], NotIn(seen));
    forall i | 0 <= i < e - m ensures NotIn(seen)(results[m..e][i]) {
      FreshAfter(results, k, m + i);
    }
    KeepAll(results[m..e], NotIn(seen));
  }

  /** Over a coverable source, with a positive base limit, the seen-list is
      always a prefix of the source and the cursor the parameter of its
      last item. */
  predicate Prefixed(s: State, results: seq<Item>)
  {
    && Descending(s)
    && s.unique <= results
    && s.limit >= 1 && s.actualLimit >= 1
    && Coverable(results, s.maxLimit)
  }

  /** Over a coverable source the items at or before the cursor are the
      source from the start of the run of the last item seen (from the
      start of the source when nothing was seen). */
  lemma CursorSuffix(s: State, results: seq<Item>) returns (j: int)
    requires Prefixed(s, results)
    ensures 0 <= j <= |s.unique| <= |results|
    ensures Filtered(results, s.parameter) == results[j..]
    ensures 0 < |s.unique| ==> j < |s.unique| && results[j].param == results[|s.unique| - 1].param
  {
    var k := |s.unique|;
    if k == 0 {
      j := 0;
      UnfilteredWithoutParameter(results);
    } else {
      assert results[k - 1] == s.unique[k - 1];
      j := RunStart(results, k - 1);
      FilteredFrom(results, j, results[k - 1].param);
    }
  }

  /** Over a coverable source the batch asked for is a window of the source
      that starts at the run of the cursor's item (or at the start). */
  lemma BatchWindow(s: State, results: seq<Item>) returns (j: int, e: int)
    requires Prefixed(s, results)
    ensures 0 <= j <= |s.unique| <= |results| && j <= e <= |results|
    ensures e - j == Min(s.actualLimit, |results| - j)
    ensures Provided(results, s.parameter, s.actualLimit) == results[j..e]
    ensures 0 < |s.unique| ==> j < |s.unique| && results[j].param == results[|s.unique| - 1].param
  {
    j := CursorSuffix(s, results);
    var fetched := Provided(results, s.parameter, s.actualLimit);
    e := j + |fetched|;
  }

  /** A window over the source extends a seen prefix to the window's end. */
  lemma AbsorbWindow(s: State, results: seq<Item>, j: int, e: int)
    requires Distinct(results) && 0 <= j <= |s.unique| <= |results| && j <= e <= |results|
    requires s.unique == results[..|s.unique|]
    ensures Absorb(s, results[j..e]).0.unique == results[..if e <= |s.unique| then |s.unique| else e]
  {
    var k := |s.unique|;
    UnseenWindow(results, j, k, e);
    if k < e {
      assert results[..k] + results[k..e] == results[..e];
    }
  }

  /** Doubling under a ceiling of at least two keeps the batch size positive. */
  lemma AbsorbKeepsPositive(s: State, fetched: seq<Item>)
    requires s.limit >= 1 && s.actualLimit >= 1
    requires s.maxLimit.Some? ==> s.maxLimit.value >= 2
    ensures Absorb(s, fetched).0.actualLimit >= 1
  {
  }

  /** One tryFetch over a coverable source appends the next items of the
      source, and stops only once the whole source has been seen. */
  lemma StepKeepsPrefixed(s: State, results: seq<Item>)
    requires Prefixed(s, results)
    ensures Prefixed(Step(s, results).0, results)
    ensures Step(s, results).1 ==> s.unique == results
  {
    StepKeepsDescending(s, results);
    var j, e := BatchWindow(s, results);
    AbsorbWindow(s, results, j, e);
    AbsorbKeepsPositive(s, results[j..e]);
    StopRule(s, results[j..e]);
  }

  lemma {:induction false} RoundKeepsPrefixed(s: State, results: seq<Item>)
    requires Prefixed(s, results)
    ensures Prefixed(Round(s, results), results)
    decreases Unexplored(s.unique, results), Headroom(s, results)
  {
    if |s.items| < s.limit {
      var (s1, stop) := Step(s, results);
      StepKeepsPrefixed(s, results);
      if !stop {
        StepShrinks(s, results);
        RoundKeepsPrefixed(s1, results);
      }
    }
  }

  lemma {:induction false} DrainKeepsPrefixed(s: State, results: seq<Item>)
    requires Buffered(s) && Prefixed(s, results)
    ensures Prefixed(Drain(s, results).1, results)
    decreases Unexplored(s.unique, results)
  {
    var e := s.(items := []);
    DrainBuffer(s, results);
    assert Prefixed(e, results) by {
      assert e.unique == s.unique && e.parameter == s.parameter && e.order == s.order;
    }
    var t := Round(e, results);
    DrainFetches(e, results);
    RoundKeepsPrefixed(e, results);
    if t.items != [] {
      SeeingShrinks(e.unique, t.unique, results);
      DrainKeepsPrefixed(t, results);
    }
  }

  /** Over a coverable source, a Paginator whose fetch finds nothing more
      has seen the whole source. */
  lemma AtRestSeesAll(t: State, results: seq<Item>)
    requires Prefixed(t, results)
    requires t.items == [] && Round(t, results) == t
    ensures t.unique == results
  {
    assert Step(t, results) == (t, true);
    StepKeepsPrefixed(t, results);
  }

  /** Over a coverable source, a fresh Paginator with a positive base limit
      hands out the whole source, in its order. */
  lemma Complete(limit: int, maxLimit: Option<int>, results: seq<Item>)
    requires Coverable(results, maxLimit) && limit >= 1
    ensures Drain(Start(limit, maxLimit), results).0 == results
  {
    var s := Start(limit, maxLimit);
    DrainDelivers(s, results);
    DrainEmpties(s, results);
    DrainExhausts(s, results);
    DrainKeepsPrefixed(s, results);
    assert Delivered(s) == [];
    AtRestSeesAll(Drain(s, results).1, results);
  }
}
