/** Sequence helpers: distinctness, order-preserving filters and their laws. */
module Seqs {

  /** No element occurs twice. */
  predicate NoDuplicates<T(==)>(s: seq<T>) {
    forall a, b :: 0 <= a < b < |s| ==> s[a] != s[b]
  }

  /** `s.filter(keep)`. */
  function Filter<T(==,!new)>(s: seq<T>, keep: T -> bool): (r: seq<T>)
    ensures |r| <= |s|
    ensures forall x :: x in r <==> x in s && keep(x)
  {
    if |s| == 0 then []
    else
      var init := Filter(s[..|s| - 1], keep);
      assert forall x :: x in s <==> x in s[..|s| - 1] || x == s[|s| - 1] by {
        assert s == s[..|s| - 1] + [s[|s| - 1]];
      }
      if keep(s[|s| - 1]) then init + [s[|s| - 1]] else init
  }

  /** Every pair of `r`, in order, is a pair of `s` in the same order. */
  predicate OrderedIn<T(==)>(r: seq<T>, s: seq<T>) {
    forall a, b :: 0 <= a < b < |r| ==> exists a', b' :: 0 <= a' < b' < |s| && s[a'] == r[a] && s[b'] == r[b]
  }

  /** The positions in `s` of an ordered pair of `r`. */
  lemma OrderedInPair<T>(r: seq<T>, s: seq<T>, a: int, b: int) returns (x: int, y: int)
    requires OrderedIn(r, s) && 0 <= a < b < |r|
    ensures 0 <= x < y < |s| && s[x] == r[a] && s[y] == r[b]
  {
    var ra, rb := r[a], r[b];
    x, y :| 0 <= x < y < |s| && s[x] == ra && s[y] == rb;
  }

  lemma {:induction false} FilterOrdered<T(!new)>(s: seq<T>, keep: T -> bool)
    ensures OrderedIn(Filter(s, keep), s)
  {
    if |s| > 0 {
      var init := s[..|s| - 1];
      FilterOrdered(init, keep);
      var r := Filter(s, keep);
      var p := Filter(init, keep);
      forall a, b | 0 <= a < b < |r|
        ensures exists a', b' :: 0 <= a' < b' < |s| && s[a'] == r[a] && s[b'] == r[b]
      {
        if b < |p| {
          assert r[a] == p[a] && r[b] == p[b];
          var a', b' :| 0 <= a' < b' < |init| && init[a'] == p[a] && init[b'] == p[b];
          assert s[a'] == init[a'] && s[b'] == init[b'];
        } else {
          assert r[a] == p[a] && p[a] in init;
          var a' :| 0 <= a' < |init| && init[a'] == p[a];
          assert s[a'] == init[a'];
          assert r[b] == s[|s| - 1];
        }
      }
    }
  }

  lemma {:induction false} FilterNoDuplicates<T(!new)>(s: seq<T>, keep: T -> bool)
    requires NoDuplicates(s)
    ensures NoDuplicates(Filter(s, keep))
  {
    if |s| > 0 {
      var init := s[..|s| - 1];
      assert NoDuplicates(init);
      FilterNoDuplicates(init, keep);
    }
  }

  /** A filter that keeps every element is the identity. */
  lemma {:induction false} FilterKeepsAll<T(!new)>(s: seq<T>, keep: T -> bool)
    requires forall i :: 0 <= i < |s| ==> keep(s[i])
    ensures Filter(s, keep) == s
  {
    if |s| > 0 {
      FilterKeepsAll(s[..|s| - 1], keep);
      assert s == s[..|s| - 1] + [s[|s| - 1]];
    }
  }

  /** A filter that keeps no element gives the empty list. */
  lemma {:induction false} FilterKeepsNone<T(!new)>(s: seq<T>, keep: T -> bool)
    requires forall i :: 0 <= i < |s| ==> !keep(s[i])
    ensures Filter(s, keep) == []
  {
    if |s| > 0 {
      FilterKeepsNone(s[..|s| - 1], keep);
    }
  }

  /** Every element a filter keeps passes its test. */
  lemma FilterPasses<T(!new)>(s: seq<T>, keep: T -> bool)
    ensures forall i :: 0 <= i < |Filter(s, keep)| ==> keep(Filter(s, keep)[i])
  {
    var r := Filter(s, keep);
    assert forall i :: 0 <= i < |r| ==> r[i] in r;
  }

  /** Filtering twice by the same test is filtering once. */
  lemma FilterIdempotent<T(!new)>(s: seq<T>, keep: T -> bool)
    ensures Filter(Filter(s, keep), keep) == Filter(s, keep)
  {
    FilterPasses(s, keep);
    FilterKeepsAll(Filter(s, keep), keep);
  }

  /** A filter and its complement split the multiset of elements. */
  lemma {:induction false} FilterMultiset<T(!new)>(s: seq<T>, keep: T -> bool, drop: T -> bool)
    requires forall x :: drop(x) == !keep(x)
    ensures multiset(Filter(s, keep)) + multiset(Filter(s, drop)) == multiset(s)
  {
    if |s| > 0 {
      var init := s[..|s| - 1];
      FilterMultiset(init, keep, drop);
      assert s == init + [s[|s| - 1]];
    }
  }

  /** An element is kept by exactly one of a filter and its complement. */
  lemma {:induction false} FilterComplement<T(!new)>(s: seq<T>, keep: T -> bool, drop: T -> bool)
    requires forall x :: drop(x) == !keep(x)
    ensures |Filter(s, keep)| + |Filter(s, drop)| == |s|
  {
    if |s| > 0 {
      FilterComplement(s[..|s| - 1], keep, drop);
    }
  }

  /** Filtering distributes over concatenation. */
  lemma {:induction false} FilterAppend<T(!new)>(a: seq<T>, b: seq<T>, keep: T -> bool)
    ensures Filter(a + b, keep) == Filter(a, keep) + Filter(b, keep)
  {
    if |b| > 0 {
      FilterAppend(a, b[..|b| - 1], keep);
      assert (a + b)[..|a + b| - 1] == a + b[..|b| - 1];
    } else {
      assert a + b == a;
    }
  }
}
