/** Sorting as the library promises it: some permutation in order, with equal elements in any order. */
module Sorting {

  ghost predicate Ordering<T(!new)>(less: (T, T) -> bool) {
    && (forall a, b :: less(a, b) ==> !less(b, a))
    && (forall a, b, c :: !less(b, a) && !less(c, b) ==> !less(c, a))
  }

  ghost predicate Ordered<T>(s: seq<T>, less: (T, T) -> bool) {
    forall i, j | 0 <= i < j < |s| :: !less(s[j], s[i])
  }

  predicate Least<T>(s: seq<T>, i: nat, less: (T, T) -> bool)
    requires i < |s|
  {
    forall j | 0 <= j < |s| :: !less(s[j], s[i])
  }

  lemma {:induction false} LeastExists<T(!new)>(s: seq<T>, less: (T, T) -> bool)
    requires Ordering(less) && s != []
    ensures exists i: nat :: i < |s| && Least(s, i, less)
  {
    var last := |s| - 1;
    var rest := s[..last];
    if rest == [] {
      assert Least(s, 0, less);
    } else {
      LeastExists(rest, less);
      var i: nat :| i < |rest| && Least(rest, i, less);
      assert forall j | 0 <= j < last :: s[j] == rest[j];
      assert Least(s, i, less) || Least(s, last, less);
    }
  }

  /** Taking out one element. */
  lemma WithoutOne<T>(s: seq<T>, i: nat)
    requires i < |s|
    ensures multiset(s[..i] + s[i + 1..]) == multiset(s) - multiset{s[i]}
  {
    assert s == s[..i] + [s[i]] + s[i + 1..];
  }

  /** Nothing in `rest` belongs before anything in `r`. */
  ghost predicate Above<T>(r: seq<T>, rest: seq<T>, less: (T, T) -> bool) {
    forall x, y | x in r && y in rest :: !less(y, x)
  }

  lemma TakeLeast<T>(r: seq<T>, rest: seq<T>, i: nat, less: (T, T) -> bool)
    requires Ordered(r, less) && Above(r, rest, less) && i < |rest| && Least(rest, i, less)
    ensures Ordered(r + [rest[i]], less) && Above(r + [rest[i]], rest[..i] + rest[i + 1..], less)
  {
    assert forall k | 0 <= k < |r| :: r[k] in r;
  }

  method Sort<T(!new, ==)>(s: seq<T>, less: (T, T) -> bool) returns (r: seq<T>)
    requires Ordering(less)
    ensures multiset(r) == multiset(s) && Ordered(r, less)
  {
    var rest := s;
    r := [];
    while rest != []
      invariant multiset(r) + multiset(rest) == multiset(s)
      invariant Ordered(r, less) && Above(r, rest, less)
      decreases |rest|
    {
      LeastExists(rest, less);
      var i: nat :| i < |rest| && Least(rest, i, less);
      TakeLeast(r, rest, i, less);
      WithoutOne(rest, i);
      r, rest := r + [rest[i]], rest[..i] + rest[i + 1..];
    }
  }

  /** Lexicographic order of texts. */
  predicate Before(a: string, b: string) {
    if b == "" then false
    else if a == "" then true
    else if a[0] == b[0] then Before(a[1..], b[1..])
    else a[0] < b[0]
  }

  /** At position `i` the texts `a` and `b` differ for the first time; there `a` ends or has the smaller character. */
  ghost predicate FirstSmaller(a: string, b: string, i: nat) {
    i <= |a| && i < |b| && a[..i] == b[..i] && (i == |a| || a[i] < b[i])
  }

  lemma HeadOfPrefix(a: string, b: string, i: nat)
    requires i <= |a| && i <= |b| && a[..i] == b[..i]
    ensures i == 0 || a[0] == b[0]
  {
    if i > 0 {
      assert a[0] == a[..i][0] && b[0] == b[..i][0];
    }
  }

  lemma FirstSmallerTail(a: string, b: string, i: nat)
    requires a != "" && b != "" && a[0] == b[0]
    ensures FirstSmaller(a, b, i + 1) <==> FirstSmaller(a[1..], b[1..], i)
  {
    assert a == [a[0]] + a[1..] && b == [b[0]] + b[1..];
    if i <= |a[1..]| && i <= |b[1..]| {
      assert a[..i + 1] == [a[0]] + a[1..][..i] && b[..i + 1] == [b[0]] + b[1..][..i];
      assert a[1..][..i] == a[..i + 1][1..] && b[1..][..i] == b[..i + 1][1..];
    }
  }

  /** The first position at which two texts differ decides their order. */
  lemma {:induction false} BeforeIff(a: string, b: string)
    ensures Before(a, b) <==> exists i: nat :: FirstSmaller(a, b, i)
  {
    if a != "" && b != "" && a[0] == b[0] {
      BeforeIff(a[1..], b[1..]);
      if i: nat :| FirstSmaller(a[1..], b[1..], i) {
        FirstSmallerTail(a, b, i);
        assert FirstSmaller(a, b, i + 1);
      }
      if i: nat :| FirstSmaller(a, b, i) {
        assert i > 0;
        FirstSmallerTail(a, b, i - 1);
      }
    } else {
      if Before(a, b) {
        assert FirstSmaller(a, b, 0);
      }
      if i: nat :| FirstSmaller(a, b, i) {
        HeadOfPrefix(a, b, i);
      }
    }
  }

  lemma {:induction false} BeforeTotal(a: string, b: string)
    ensures !(Before(a, b) && Before(b, a))
    ensures a == b <==> !Before(a, b) && !Before(b, a)
  {
    if a != "" && b != "" && a[0] == b[0] {
      BeforeTotal(a[1..], b[1..]);
      assert a == [a[0]] + a[1..] && b == [b[0]] + b[1..];
    }
  }

  lemma {:induction false} BeforeTransitive(a: string, b: string, c: string)
    ensures !Before(b, a) && !Before(c, b) ==> !Before(c, a)
  {
    if a != "" && b != "" && c != "" && a[0] == b[0] == c[0] {
      BeforeTransitive(a[1..], b[1..], c[1..]);
    }
  }
}
