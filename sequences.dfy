/** Order-preserving selection over sequences.

    The matching and grouping code keeps, in input order, the elements of a
    vector that pass a test (and sometimes keeps only a projection of them).
    FilterMap is that operation, defined once; the lemmas say that it keeps
    exactly the passing elements, that it never reorders them, and that it
    distributes over concatenation.
 */
module Sequences {

  /** The elements of `s` that satisfy `keep`, each mapped through `f`, in the
      order in which they occur in `s`. */
  function FilterMap<T, U>(s: seq<T>, keep: T -> bool, f: T -> U): (r: seq<U>)
    ensures |r| <= |s|
    decreases |s|
  {
    if s == [] then []
    else
      FilterMap(s[..|s| - 1], keep, f)
      + (if keep(s[|s| - 1]) then [f(s[|s| - 1])] else [])
  }

  /** The projection of every element of `s`. */
  function Map<T, U>(s: seq<T>, f: T -> U): (r: seq<U>)
    ensures |r| == |s|
    ensures forall i :: 0 <= i < |s| ==> r[i] == f(s[i])
  {
    seq(|s|, i requires 0 <= i < |s| => f(s[i]))
  }

  /** `idx` picks the elements of `a` out of `b` at strictly increasing
      positions: `a` is `b` with some elements deleted, order kept. */
  ghost predicate Embeds<T>(idx: seq<int>, a: seq<T>, b: seq<T>) {
    && |idx| == |a|
    && (forall j :: 0 <= j < |idx| ==> 0 <= idx[j] < |b| && b[idx[j]] == a[j])
    && (forall j, k :: 0 <= j < k < |idx| ==> idx[j] < idx[k])
  }

  ghost predicate IsSubsequence<T>(a: seq<T>, b: seq<T>) {
    exists idx :: Embeds(idx, a, b)
  }

  lemma {:induction false} EmptyIsSubsequence<T>(b: seq<T>)
    ensures IsSubsequence([], b)
  {
    assert Embeds([], [], b);
  }

  /** An embedding into `b` is also one into any extension of `b`. */
  lemma {:induction false} EmbedsInExtension<T>(idx: seq<int>, a: seq<T>, b: seq<T>, c: seq<T>)
    requires Embeds(idx, a, b)
    requires |b| <= |c| && c[..|b|] == b
    ensures Embeds(idx, a, c)
  {
    forall j | 0 <= j < |idx|
      ensures 0 <= idx[j] < |c| && c[idx[j]] == a[j]
    {
      assert c[..|b|][idx[j]] == c[idx[j]];
    }
  }

  /** An embedding whose positions all lie below `n` extends by position `n`. */
  lemma {:induction false} EmbedsSnoc<T>(idx: seq<int>, a: seq<T>, b: seq<T>, n: int)
    requires Embeds(idx, a, b)
    requires 0 <= n < |b|
    requires forall j :: 0 <= j < |idx| ==> idx[j] < n
    ensures Embeds(idx + [n], a + [b[n]], b)
  {
  }

  /** FilterMap returns an order-preserving subsequence of the projected
      input; `idx` are the positions of the kept elements. */
  lemma {:induction false} FilterMapEmbeds<T, U>(s: seq<T>, keep: T -> bool, f: T -> U)
    returns (idx: seq<int>)
    ensures Embeds(idx, FilterMap(s, keep, f), Map(s, f))
    ensures forall j :: 0 <= j < |idx| ==> 0 <= idx[j] < |s| && keep(s[idx[j]])
    decreases |s|
  {
    if s == [] {
      idx := [];
    } else {
      var n := |s| - 1;
      var init := s[..n];
      var prev := FilterMapEmbeds(init, keep, f);
      var kept := FilterMap(init, keep, f);
      assert Map(s, f)[..n] == Map(init, f);
      EmbedsInExtension(prev, kept, Map(init, f), Map(s, f));
      assert forall j :: 0 <= j < |prev| ==> s[prev[j]] == init[prev[j]];
      if keep(s[n]) {
        EmbedsSnoc(prev, kept, Map(s, f), n);
        idx := prev + [n];
      } else {
        idx := prev;
      }
    }
  }

  lemma {:induction false} FilterMapIsSubsequence<T, U>(s: seq<T>, keep: T -> bool, f: T -> U)
    ensures IsSubsequence(FilterMap(s, keep, f), Map(s, f))
  {
    var idx := FilterMapEmbeds(s, keep, f);
  }

  /** A value is kept exactly when some element of the input passes the test
      and projects to it. */
  lemma {:induction false} FilterMapMembership<T, U>(s: seq<T>, keep: T -> bool, f: T -> U, y: U)
    ensures y in FilterMap(s, keep, f) <==> exists x :: x in s && keep(x) && f(x) == y
    decreases |s|
  {
    if s != [] {
      var n := |s| - 1;
      FilterMapMembership(s[..n], keep, f, y);
      assert s == s[..n] + [s[n]];
      if y in FilterMap(s[..n], keep, f) {
        var x :| x in s[..n] && keep(x) && f(x) == y;
        assert x in s;
      }
      if exists x :: x in s && keep(x) && f(x) == y {
        var x :| x in s && keep(x) && f(x) == y;
        if x != s[n] {
          assert x in s[..n];
        }
      }
    }
  }

  /** Nothing is kept exactly when no element passes the test. */
  lemma {:induction false} FilterMapEmpty<T, U>(s: seq<T>, keep: T -> bool, f: T -> U)
    ensures FilterMap(s, keep, f) == [] <==> forall x :: x in s ==> !keep(x)
    decreases |s|
  {
    if s != [] {
      var n := |s| - 1;
      FilterMapEmpty(s[..n], keep, f);
      assert s == s[..n] + [s[n]];
    }
  }

  /** Selection distributes over concatenation: whatever is kept from an
      earlier part of the input comes before whatever is kept from a later
      part. */
  lemma {:induction false} FilterMapAppend<T, U>(a: seq<T>, b: seq<T>, keep: T -> bool, f: T -> U)
    ensures FilterMap(a + b, keep, f) == FilterMap(a, keep, f) + FilterMap(b, keep, f)
    decreases |b|
  {
    if b == [] {
      assert a + b == a;
    } else {
      var n := |b| - 1;
      FilterMapAppend(a, b[..n], keep, f);
      assert (a + b)[..|a + b| - 1] == a + b[..n];
    }
  }
}
