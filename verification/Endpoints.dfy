/** Sub-lists of a flat endpoint list, selected by the cluster that each endpoint is tagged with. */
module Endpoints {
  import opened Model

  /** The endpoints of `es` that belong to none of the clusters in `cs`, in order. */
  function Outside(es: seq<Endpoint>, cs: set<string>): seq<Endpoint> {
    if es == [] then []
    else if es[0].cluster in cs then Outside(es[1..], cs)
    else [es[0]] + Outside(es[1..], cs)
  }

  /** The endpoints of `es` that belong to cluster `c`, in order. */
  function Only(es: seq<Endpoint>, c: string): seq<Endpoint> {
    if es == [] then []
    else if es[0].cluster == c then [es[0]] + Only(es[1..], c)
    else Only(es[1..], c)
  }

  ghost predicate TaggedWith(es: seq<Endpoint>, c: string) {
    forall e | e in es :: e.cluster == c
  }

  lemma {:induction false} OutsideAppend(a: seq<Endpoint>, b: seq<Endpoint>, cs: set<string>)
    ensures Outside(a + b, cs) == Outside(a, cs) + Outside(b, cs)
  {
    if a == [] {
      assert a + b == b;
    } else {
      OutsideAppend(a[1..], b, cs);
      assert (a + b)[1..] == a[1..] + b;
    }
  }

  lemma OutsideNext(es: seq<Endpoint>, p: nat, cs: set<string>)
    requires p < |es|
    ensures Outside(es[..p + 1], cs) == Outside(es[..p], cs) + if es[p].cluster in cs then [] else [es[p]]
  {
    assert es[..p + 1] == es[..p] + [es[p]];
    OutsideAppend(es[..p], [es[p]], cs);
  }

  lemma {:induction false} OnlyAppend(a: seq<Endpoint>, b: seq<Endpoint>, c: string)
    ensures Only(a + b, c) == Only(a, c) + Only(b, c)
  {
    if a == [] {
      assert a + b == b;
    } else {
      OnlyAppend(a[1..], b, c);
      assert (a + b)[1..] == a[1..] + b;
    }
  }

  lemma {:induction false} OutsideTwice(es: seq<Endpoint>, cs: set<string>, ds: set<string>)
    ensures Outside(Outside(es, cs), ds) == Outside(es, cs + ds)
  {
    if es != [] {
      OutsideTwice(es[1..], cs, ds);
      if es[0].cluster !in cs {
        assert Outside(es, cs)[1..] == Outside(es[1..], cs);
      }
    }
  }

  lemma {:induction false} OutsideNothing(es: seq<Endpoint>)
    ensures Outside(es, {}) == es
  {
    if es != [] {
      OutsideNothing(es[1..]);
    }
  }

  lemma {:induction false} OutsideMembers(es: seq<Endpoint>, cs: set<string>)
    ensures forall e :: e in Outside(es, cs) <==> e in es && e.cluster !in cs
  {
    if es != [] {
      OutsideMembers(es[1..], cs);
      assert es == [es[0]] + es[1..];
    }
  }

  /** Dropping clusters that contribute nothing drops nothing. */
  lemma {:induction false} OutsideAbsent(es: seq<Endpoint>, cs: set<string>)
    requires forall e | e in es :: e.cluster !in cs
    ensures Outside(es, cs) == es
  {
    if es != [] {
      OutsideAbsent(es[1..], cs);
    }
  }

  lemma {:induction false} OutsideTagged(es: seq<Endpoint>, c: string, cs: set<string>)
    requires TaggedWith(es, c)
    ensures Outside(es, cs) == if c in cs then [] else es
  {
    if es != [] {
      assert es[0] in es;
      OutsideTagged(es[1..], c, cs);
    }
  }

  lemma {:induction false} OnlyTagged(es: seq<Endpoint>, c: string, d: string)
    requires TaggedWith(es, c)
    ensures Only(es, d) == if c == d then es else []
  {
    if es != [] {
      assert es[0] in es;
      OnlyTagged(es[1..], c, d);
    }
  }

  lemma {:induction false} OnlyOutside(es: seq<Endpoint>, cs: set<string>, c: string)
    ensures Only(Outside(es, cs), c) == if c in cs then [] else Only(es, c)
  {
    if es != [] {
      OnlyOutside(es[1..], cs, c);
      if es[0].cluster !in cs {
        assert Outside(es, cs)[1..] == Outside(es[1..], cs);
      }
    }
  }

  lemma {:induction false} OnlyCounts(es: seq<Endpoint>, e: Endpoint)
    ensures multiset(Only(es, e.cluster))[e] == multiset(es)[e]
  {
    if es != [] {
      OnlyCounts(es[1..], e);
      assert es == [es[0]] + es[1..];
    }
  }

  /** A list is determined up to order by its per-cluster sub-lists. */
  lemma SameSublistsSameMultiset(es: seq<Endpoint>, fs: seq<Endpoint>)
    requires forall c :: Only(es, c) == Only(fs, c)
    ensures multiset(es) == multiset(fs)
  {
    forall e ensures multiset(es)[e] == multiset(fs)[e] {
      OnlyCounts(es, e);
      OnlyCounts(fs, e);
      assert Only(es, e.cluster) == Only(fs, e.cluster);
    }
  }
}
