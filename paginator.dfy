/** The Paginator object: an iterator over a provider that can only be
    asked for "up to n items at or before parameter p". Every method is
    proved against the step functions of PaginatorSpec. */
module Pagination {
  import opened Optional
  import opened Sequences
  import opened Provider
  import opened PaginatorSpec

  class Paginator {
    const provider: ListProvider
    const limit: int
    var actualLimit: int
    var parameter: Option<int>
    var parameterOrder: Option<Order>
    var maxLimit: Option<int>
    var uniqueFetchedItems: seq<Item>
    var items: seq<Item>

    /** The fields as a value. */
    ghost function Abs(): State
      reads this
    {
      State(limit, actualLimit, parameter, parameterOrder, maxLimit, items, uniqueFetchedItems)
    }

    ghost predicate Valid()
      reads this
    {
      Sizes(Abs()) && Buffered(Abs())
    }

    /** Paginator(provider, limit): no ceiling. */
    constructor (provider: ListProvider, limit: int)
      ensures this.provider == provider
      ensures Abs() == Start(limit, None) && Valid()
    {
      this.provider := provider;
      this.limit := limit;
      actualLimit := limit;
      parameter := None;
      parameterOrder := None;
      maxLimit := None;
      uniqueFetchedItems := [];
      items := [];
    }

    /** Paginator(provider, limit, maxLimit). */
    constructor WithCeiling(provider: ListProvider, limit: int, maxLimit: Option<int>)
      ensures this.provider == provider
      ensures Abs() == Start(limit, maxLimit) && Valid()
    {
      this.provider := provider;
      this.limit := limit;
      actualLimit := limit;
      parameter := None;
      parameterOrder := None;
      this.maxLimit := maxLimit;
      uniqueFetchedItems := [];
      items := [];
    }

    /** hasNext(): true at once on a non-empty buffer; otherwise one fetch
        round, then whether the buffer is non-empty. */
    method HasNext() returns (b: bool)
      requires Valid()
      modifies this
      ensures Valid()
      ensures Abs() == Ready(old(Abs()), provider.results)
      ensures b <==> items != []
    {
      if items != [] {
        return true;
      }
      Fetch();
      return items != [];
    }

    /** next(): the head of the buffer, fetching first when it is empty;
        None where the source throws NoSuchElementException. */
    method Next() returns (r: Option<Item>)
      requires Valid()
      modifies this
      ensures Valid()
      ensures var t := Ready(old(Abs()), provider.results);
        if t.items == [] then r.None? && Abs() == t
        else r == Some(t.items[0]) && Abs() == t.(items := t.items[1..])
    {
      if items == [] {
        Fetch();
      }
      if items == [] {
        return None;
      }
      PopDelivers(Abs());
      r := Some(items[0]);
      items := items[1..];
    }

    /** remove(): drops the head of the buffer without fetching; false
        where the source throws NoSuchElementException. */
    method Remove() returns (ok: bool)
      requires Valid()
      modifies this
      ensures Valid()
      ensures ok <==> old(items) != []
      ensures Abs() == if ok then old(Abs()).(items := old(items)[1..]) else old(Abs())
    {
      if items == [] {
        return false;
      }
      PopDelivers(Abs());
      items := items[1..];
      return true;
    }

    /** fetch(): tryFetch until the buffer holds `limit` items or tryFetch
        answers stop. */
    method Fetch()
      requires Valid()
      modifies this
      ensures Valid()
      ensures Abs() == Round(old(Abs()), provider.results)
    {
      while |items| < limit
        invariant Valid()
        invariant Round(Abs(), provider.results) == Round(old(Abs()), provider.results)
        decreases Unexplored(uniqueFetchedItems, provider.results), Headroom(Abs(), provider.results)
      {
        ghost var before := Abs();
        var b := TryFetch();
        if b {
          break;
        }
        StepShrinks(before, provider.results);
      }
    }

    /** tryFetch(items, uniqueFetchedItems): one provider call; the new
        items go to the buffer and the seen-list; the batch size grows on
        a batch of repeats and is reset, and the cursor moved, on a batch
        with something new. */
    method TryFetch() returns (stop: bool)
      requires Valid()
      modifies this
      ensures Valid()
      ensures (Abs(), stop) == Step(old(Abs()), provider.results)
    {
      AbsorbKeepsShape(Abs(), Provided(provider.results, parameter, actualLimit));
      var fetchedItems := provider.Provide(parameter, actualLimit);
      var numberOfFetchedItems := |fetchedItems|;
      fetchedItems := Unseen(fetchedItems, uniqueFetchedItems);
      uniqueFetchedItems := uniqueFetchedItems + fetchedItems;
      items := items + fetchedItems;
      if fetchedItems == [] {
        if numberOfFetchedItems < actualLimit {
          return true;
        }
        if maxLimit.Some? {
          if actualLimit == maxLimit.value {
            return true;
          }
          actualLimit := Min(maxLimit.value, actualLimit * 2);
        } else {
          actualLimit := actualLimit * 2;
        }
      } else {
        ResetLimit();
        parameter := GetNextParameter(fetchedItems);
      }
      return false;
    }

    /** resetLimit(): back to the base batch size. */
    method ResetLimit()
      modifies this`actualLimit
      ensures actualLimit == limit
    {
      if actualLimit != limit {
        actualLimit := limit;
      }
    }

    /** getNextParameter(l): the cursor for the batch `l` of new items,
        guessing the order on the first batch of two or more. */
    method GetNextParameter(l: seq<Item>) returns (p: Option<int>)
      modifies this`parameterOrder
      ensures (p, parameterOrder) == NextCursor(l, parameter, old(parameterOrder))
    {
      if l == [] {
        return None;
      }
      if |l| == 1 {
        return Some(l[0].param);
      }
      if parameter.None? {
        var g := GuessParameter(l);
        return Some(g);
      }
      if parameterOrder == Some(Ascending) {
        return Some(l[0].param);
      } else {
        return Some(l[|l| - 1].param);
      }
    }

    /** guessParameter(l): compares the first and last parameters of `l`
        and records the order. */
    method GuessParameter(l: seq<Item>) returns (p: int)
      requires l != []
      modifies this`parameterOrder
      ensures (p, parameterOrder) == (Guess(l).0, Some(Guess(l).1))
    {
      var firstParam := l[0].param;
      var lastParam := l[|l| - 1].param;
      if firstParam < lastParam {
        parameterOrder := Some(Ascending);
        return firstParam;
      } else {
        parameterOrder := Some(Descending);
        return lastParam;
      }
    }

    /** setMaxLimit(limit): a new ceiling; see the README for why a ceiling
        that would leave the batch size neither positive nor at the ceiling
        is excluded. */
    method SetMaxLimit(n: int)
      requires Valid()
      requires limit >= 1 ==> actualLimit >= 1 || n == actualLimit
      modifies this`maxLimit
      ensures Valid()
      ensures maxLimit == Some(n)
    {
      maxLimit := Some(n);
    }
  }
}
