/** Sequence helpers shared by the list pages: `Array.prototype.filter`, the
    order-preserving subsequence relation it establishes, and the first-match
    search behind `Array.prototype.find`. */
module Seqs {
  import opened Wrappers

  /** `s.filter(keep)`: the elements of `s` that satisfy `keep`, in order. */
  function Filter<T>(s: seq<T>, keep: T -> bool): (r: seq<T>)
    ensures |r| <= |s|
    ensures forall x :: x in r ==> x in s && keep(x)
  {
    if s == [] then []
    else
      var rest := Filter(s[1..], keep);
      if keep(s[0]) then [s[0]] + rest else rest
  }

  /** `r` is obtained from `s` by deleting elements, the rest keeping their order. */
  predicate IsSubsequence<T(==)>(r: seq<T>, s: seq<T>)
    decreases |s|
  {
    if s == [] then r == []
    else (r != [] && r[0] == s[0] && IsSubsequence(r[1..], s[1..])) || IsSubsequence(r, s[1..])
  }

  /** A filtered list is an order-preserving subsequence of its input. */
  lemma {:induction false} FilterIsSubsequence<T>(s: seq<T>, keep: T -> bool)
    ensures IsSubsequence(Filter(s, keep), s)
  {
    if s != [] {
      FilterIsSubsequence(s[1..], keep);
      var rest := Filter(s[1..], keep);
      if keep(s[0]) {
        assert Filter(s, keep) == [s[0]] + rest;
        assert ([s[0]] + rest)[1..] == rest;
      }
    }
  }

  /** An element survives the filter exactly when it occurs in the input and is kept. */
  lemma {:induction false} FilterMembership<T>(s: seq<T>, keep: T -> bool, x: T)
    ensures x in Filter(s, keep) <==> x in s && keep(x)
  {
    if s != [] {
      FilterMembership(s[1..], keep, x);
      assert x in s <==> x == s[0] || x in s[1..];
    }
  }

  /** The membership law for every element at once. */
  lemma FilterMembershipAll<T>(s: seq<T>, keep: T -> bool)
    ensures forall x :: x in Filter(s, keep) <==> x in s && keep(x)
  {
    forall x
      ensures x in Filter(s, keep) <==> x in s && keep(x)
    {
      FilterMembership(s, keep, x);
    }
  }

  /** When every element is kept, the filter returns its input unchanged. */
  lemma {:induction false} FilterKeepsAll<T>(s: seq<T>, keep: T -> bool)
    requires forall i :: 0 <= i < |s| ==> keep(s[i])
    ensures Filter(s, keep) == s
  {
    if s != [] {
      FilterKeepsAll(s[1..], keep);
      assert [s[0]] + s[1..] == s;
    }
  }

  /** Two predicates that agree on the elements of `s` filter it alike. */
  lemma {:induction false} FilterExt<T>(s: seq<T>, f: T -> bool, g: T -> bool)
    requires forall i :: 0 <= i < |s| ==> f(s[i]) == g(s[i])
    ensures Filter(s, f) == Filter(s, g)
  {
    if s != [] {
      FilterExt(s[1..], f, g);
    }
  }

  /** Filtering twice is filtering once by the conjunction. */
  lemma {:induction false} FilterFilter<T>(s: seq<T>, f: T -> bool, g: T -> bool, fg: T -> bool)
    requires forall x :: fg(x) == (f(x) && g(x))
    ensures Filter(Filter(s, f), g) == Filter(s, fg)
  {
    if s != [] {
      FilterFilter(s[1..], f, g, fg);
      if f(s[0]) {
        var rest := Filter(s[1..], f);
        assert Filter(s, f) == [s[0]] + rest;
        assert ([s[0]] + rest)[1..] == rest;
      }
    }
  }

  /** Filtering a concatenation filters each side. */
  lemma {:induction false} FilterAppend<T>(a: seq<T>, b: seq<T>, keep: T -> bool)
    ensures Filter(a + b, keep) == Filter(a, keep) + Filter(b, keep)
  {
    if a == [] {
      assert a + b == b;
    } else {
      var c := a + b;
      assert c[0] == a[0];
      assert c[1..] == a[1..] + b;
      FilterAppend(a[1..], b, keep);
      assert Filter(a, keep) == if keep(a[0]) then [a[0]] + Filter(a[1..], keep) else Filter(a[1..], keep);
      assert Filter(c, keep) == if keep(a[0]) then [a[0]] + Filter(a[1..] + b, keep) else Filter(a[1..] + b, keep);
    }
  }

  /** The index `s.findIndex(matches)` returns: the first element that
      matches, or none when no element does. */
  function FindIndex<T>(s: seq<T>, matches: T -> bool): (r: Option<nat>)
    ensures r.Some? ==> r.value < |s| && matches(s[r.value])
    ensures r.Some? ==> forall j :: 0 <= j < r.value ==> !matches(s[j])
    ensures r.None? ==> forall i :: 0 <= i < |s| ==> !matches(s[i])
  {
    if s == [] then None
    else if matches(s[0]) then Some(0)
    else
      match FindIndex(s[1..], matches)
      case Some(k) => Some(k + 1)
      case None => None
  }
}
