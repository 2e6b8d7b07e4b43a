/** Option, for the Java `null` that the paginator and the provider accept. */
module Optional {
  datatype Option<+T> = None | Some(value: T)
}

/** Generic facts about filtering sequences and about relations that hold
    between every earlier and every later element of a sequence. */
module Sequences {

  /** The elements of `s` that satisfy `f`, in their order in `s`. */
  function Keep<T>(s: seq<T>, f: T -> bool): (r: seq<T>)
    ensures |r| <= |s|
  {
    if s == [] then [] else (if f(s[0]) then [s[0]] else []) + Keep(s[1..], f)
  }

  /** What is kept comes from `s` and satisfies `f`, and every element of
      `s` that satisfies `f` is kept. */
  lemma {:induction false} KeepMembers<T>(s: seq<T>, f: T -> bool)
    ensures forall i :: 0 <= i < |Keep(s, f)| ==> Keep(s, f)[i] in s && f(Keep(s, f)[i])
    ensures forall i :: 0 <= i < |s| && f(s[i]) ==> s[i] in Keep(s, f)
  {
    if s != [] {
      KeepMembers(s[1..], f);
      var head: seq<T> := if f(s[0]) then [s[0]] else [];
      var r := Keep(s, f);
      assert r == head + Keep(s[1..], f);
      forall i | 0 <= i < |r| ensures r[i] in s && f(r[i]) {
        if i >= |head| {
          assert r[i] == Keep(s[1..], f)[i - |head|];
        }
      }
      forall i | 0 <= i < |s| && f(s[i]) ensures s[i] in r {
        if i > 0 {
          assert s[i] == s[1..][i - 1];
        }
      }
    }
  }

  lemma {:induction false} KeepConcat<T>(a: seq<T>, b: seq<T>, f: T -> bool)
    ensures Keep(a + b, f) == Keep(a, f) + Keep(b, f)
  {
    if a == [] {
      assert a + b == b;
    } else {
      assert (a + b)[0] == a[0];
      assert (a + b)[1..] == a[1..] + b;
      KeepConcat(a[1..], b, f);
      var head: seq<T> := if f(a[0]) then [a[0]] else [];
      calc {
        Keep(a + b, f);
        head + Keep(a[1..] + b, f);
        head + (Keep(a[1..], f) + Keep(b, f));
        { Associative(head, Keep(a[1..], f), Keep(b, f)); }
        Keep(a, f) + Keep(b, f);
      }
    }
  }

  /** Helper naming the built-in associativity of concatenation, for use
      as a step in `calc` blocks. */
  lemma Associative<T>(a: seq<T>, b: seq<T>, c: seq<T>)
    ensures a + (b + c) == (a + b) + c
  {
  }

  /** Helper naming the built-in split of a sequence at an index, so
      callers can rewrite `s` into its two halves. */
  lemma SplitAt<T>(s: seq<T>, i: int)
    requires 0 <= i <= |s|
    ensures s == s[..i] + s[i..]
  {
  }

  /** `R` holds of every element and every element after it. */
  predicate Pairwise<T>(s: seq<T>, R: (T, T) -> bool)
  {
    forall i, j :: 0 <= i < j < |s| ==> R(s[i], s[j])
  }

  predicate Distinct<T(==)>(s: seq<T>)
  {
    Pairwise(s, (a: T, b: T) => a != b)
  }

  lemma PairwiseConcat<T>(a: seq<T>, b: seq<T>, R: (T, T) -> bool)
    requires Pairwise(a, R) && Pairwise(b, R)
    requires forall x, y :: x in a && y in b ==> R(x, y)
    ensures Pairwise(a + b, R)
  {
    forall i, j | 0 <= i < j < |a + b| ensures R((a + b)[i], (a + b)[j]) {
      if j < |a| {
      } else if i < |a| {
        assert (a + b)[i] == a[i] && (a + b)[j] == b[j - |a|];
      } else {
        assert (a + b)[i] == b[i - |a|] && (a + b)[j] == b[j - |a|];
      }
    }
  }

  lemma PairwisePrefix<T>(s: seq<T>, t: seq<T>, R: (T, T) -> bool)
    requires Pairwise(s, R) && t <= s
    ensures Pairwise(t, R)
  {
    forall i, j | 0 <= i < j < |t| ensures R(t[i], t[j]) {
      assert t[i] == s[i] && t[j] == s[j];
    }
  }

  /** Filtering keeps every ordering relation the input had. */
  lemma {:induction false} KeepPairwise<T>(s: seq<T>, f: T -> bool, R: (T, T) -> bool)
    requires Pairwise(s, R)
    ensures Pairwise(Keep(s, f), R)
  {
    if s != [] {
      PairwisePrefix(s[1..], s[1..], R) by {
        forall i, j | 0 <= i < j < |s[1..]| ensures R(s[1..][i], s[1..][j]) {
          assert s[1..][i] == s[i + 1] && s[1..][j] == s[j + 1];
        }
      }
      KeepPairwise(s[1..], f, R);
      var head: seq<T> := if f(s[0]) then [s[0]] else [];
      KeepMembers(s[1..], f);
      forall x, y | x in head && y in Keep(s[1..], f) ensures R(x, y) {
        var k :| 0 <= k < |s[1..]| && s[1..][k] == y;
        assert s[k + 1] == y;
      }
      PairwiseConcat(head, Keep(s[1..], f), R);
    }
  }

  lemma {:induction false} KeepNothing<T>(s: seq<T>, f: T -> bool)
    requires forall i :: 0 <= i < |s| ==> !f(s[i])
    ensures Keep(s, f) == []
  {
    if s != [] {
      assert forall i :: 0 <= i < |s[1..]| ==> s[1..][i] == s[i + 1];
      KeepNothing(s[1..], f);
    }
  }

  lemma {:induction false} KeepAll<T>(s: seq<T>, f: T -> bool)
    requires forall i :: 0 <= i < |s| ==> f(s[i])
    ensures Keep(s, f) == s
  {
    if s != [] {
      assert forall i :: 0 <= i < |s[1..]| ==> s[1..][i] == s[i + 1];
      KeepAll(s[1..], f);
    }
  }

  /** The set of the elements of a sequence. */
  function Elements<T>(s: seq<T>): set<T>
  {
    set x | x in s
  }

  lemma StrictSubsetSmaller<T>(a: set<T>, b: set<T>, x: T)
    requires a <= b && x in b && x !in a
    ensures |a| < |b|
  {
    assert a <= b - {x};
    SubsetNotLarger(a, b - {x});
  }

  lemma SubsetNotLarger<T>(a: set<T>, b: set<T>)
    requires a <= b
    ensures |a| <= |b|
    decreases |a|
  {
    if a != {} {
      var x :| x in a;
      SubsetNotLarger(a - {x}, b - {x});
    }
  }
}
