/** The endpoints of a headless service: endpoint slices grouped by pod. */
module HeadlessExport {
  import opened Model
  import opened Endpoints
  import opened Sorting

  datatype AddressType = FQDN | IPv4 | IPv6

  datatype SliceEndpoint = SliceEndpoint(addresses: seq<string>, hostname: Option<string>, targetRef: Option<ObjectRef>)

  datatype Slice = Slice(addressType: AddressType, endpoints: seq<SliceEndpoint>)

  /** The alphabetical order of the address types. */
  predicate TypeLess(a: Slice, b: Slice) {
    (a.addressType.FQDN? && !b.addressType.FQDN?) || (a.addressType.IPv4? && b.addressType.IPv6?)
  }

  /** The source dereferences the target of every endpoint outside FQDN slices. */
  ghost predicate AllTargeted(slices: seq<Slice>) {
    forall s, ep | s in slices && !s.addressType.FQDN? && ep in s.endpoints :: ep.targetRef.Some?
  }

  /** All slice endpoints outside FQDN slices, in order. */
  function Flat(slices: seq<Slice>): seq<SliceEndpoint> {
    if slices == [] then []
    else if slices[|slices| - 1].addressType.FQDN? then Flat(slices[..|slices| - 1])
    else Flat(slices[..|slices| - 1]) + slices[|slices| - 1].endpoints
  }

  function PodName(ep: SliceEndpoint): string {
    if ep.targetRef.Some? then ep.targetRef.value.name else ""
  }

  function NameOf(e: Endpoint): string {
    if e.targetRef.Some? then e.targetRef.value.name else ""
  }

  /** The addresses of pod `n`, in order. */
  function AddressesOf(eps: seq<SliceEndpoint>, n: string): seq<string> {
    if eps == [] then []
    else if PodName(eps[|eps| - 1]) == n then AddressesOf(eps[..|eps| - 1], n) + eps[|eps| - 1].addresses
    else AddressesOf(eps[..|eps| - 1], n)
  }

  /** The first slice endpoint of pod `n`. */
  function FirstOf(eps: seq<SliceEndpoint>, n: string): Option<SliceEndpoint> {
    if eps == [] then None
    else
      var before := FirstOf(eps[..|eps| - 1], n);
      if before.Some? then before else if PodName(eps[|eps| - 1]) == n then Some(eps[|eps| - 1]) else None
  }

  /** What the map of endpoints by pod name holds after `eps`: one endpoint per pod, with all of its addresses and the
      hostname and target of its first slice endpoint. */
  ghost predicate GroupedBy(m: map<string, Endpoint>, eps: seq<SliceEndpoint>, info: ClusterInfo) {
    && (forall n :: n in m <==> FirstOf(eps, n).Some?)
    && (forall n | n in m ::
          && NameOf(m[n]) == n && m[n].targetRef.Some?
          && m[n] == Endpoint(AddressesOf(eps, n), FirstOf(eps, n).value.hostname, FirstOf(eps, n).value.targetRef,
                              info.name, info.zone, info.region))
  }

  lemma GroupNext(m: map<string, Endpoint>, eps: seq<SliceEndpoint>, ep: SliceEndpoint, info: ClusterInfo)
    requires GroupedBy(m, eps, info) && ep.targetRef.Some?
    ensures var n := PodName(ep);
            GroupedBy(m[n := if n in m then m[n].(addresses := m[n].addresses + ep.addresses)
                             else Endpoint(ep.addresses, ep.hostname, ep.targetRef, info.name, info.zone, info.region)],
                      eps + [ep], info)
  {
    var more := eps + [ep];
    assert more[..|more| - 1] == eps && more[|more| - 1] == ep;
    if PodName(ep) !in m {
      NoFirstNoAddresses(eps, PodName(ep));
    }
  }

  lemma {:induction false} NoFirstNoAddresses(eps: seq<SliceEndpoint>, n: string)
    requires FirstOf(eps, n).None?
    ensures AddressesOf(eps, n) == []
  {
    if eps != [] {
      NoFirstNoAddresses(eps[..|eps| - 1], n);
    }
  }

  ghost predicate StrictlySorted(es: seq<Endpoint>) {
    forall i, j | 0 <= i < j < |es| :: Before(NameOf(es[i]), NameOf(es[j]))
  }

  /** `es` lists the values of `m` in order of their names. */
  ghost predicate Collects(es: seq<Endpoint>, m: map<string, Endpoint>) {
    && StrictlySorted(es)
    && (forall e | e in es :: NameOf(e) in m && m[NameOf(e)] == e)
    && (forall n | n in m :: m[n] in es)
  }

  /** There is only one such list, so the order in which the map is walked leaves no trace. */
  lemma {:induction false} CollectsUnique(es: seq<Endpoint>, fs: seq<Endpoint>, m: map<string, Endpoint>)
    requires Collects(es, m) && Collects(fs, m)
    ensures es == fs
  {
    SortedUnique(es, fs);
  }

  lemma {:induction false} SortedUnique(es: seq<Endpoint>, fs: seq<Endpoint>)
    requires StrictlySorted(es) && StrictlySorted(fs)
    requires forall e :: e in es <==> e in fs
    ensures es == fs
  {
    assert fs != [] ==> fs[0] in es;
    if es != [] {
      assert es[0] in fs;
      var i :| 0 <= i < |fs| && fs[i] == es[0];
      var j :| 0 <= j < |es| && es[j] == fs[0];
      BeforeTotal(NameOf(es[0]), NameOf(fs[0]));
      assert i == 0;
      forall e ensures e in es[1..] <==> e in fs[1..] {
        TailMembers(es, e);
        TailMembers(fs, e);
      }
      SortedUnique(es[1..], fs[1..]);
      assert es == [es[0]] + es[1..] && fs == [fs[0]] + fs[1..];
    }
  }

  lemma TailMembers(es: seq<Endpoint>, e: Endpoint)
    requires es != [] && StrictlySorted(es)
    ensures e in es[1..] <==> e in es && e != es[0]
  {
    BeforeTotal(NameOf(es[0]), NameOf(es[0]));
    if e in es[1..] {
      var k :| 0 <= k < |es[1..]| && es[1..][k] == e;
      assert Before(NameOf(es[0]), NameOf(es[k + 1]));
    }
  }

  // --- What the grouping means for the addresses ---

  /** The addresses of pod `n` in the slices of one address type. */
  function Typed(slices: seq<Slice>, t: AddressType, n: string): seq<string> {
    if slices == [] then []
    else if slices[|slices| - 1].addressType == t then
      Typed(slices[..|slices| - 1], t, n) + AddressesOf(slices[|slices| - 1].endpoints, n)
    else Typed(slices[..|slices| - 1], t, n)
  }

  lemma {:induction false} AddressesAppend(a: seq<SliceEndpoint>, b: seq<SliceEndpoint>, n: string)
    ensures AddressesOf(a + b, n) == AddressesOf(a, n) + AddressesOf(b, n)
  {
    if b == [] {
      assert a + b == a;
    } else {
      var rest, last := b[..|b| - 1], b[|b| - 1];
      AddressesAppend(a, rest, n);
      assert (a + b)[..|a + b| - 1] == a + rest && (a + b)[|a + b| - 1] == last;
      assert AddressesOf(a, n) + (AddressesOf(rest, n) + last.addresses)
          == AddressesOf(a, n) + AddressesOf(rest, n) + last.addresses;
    }
  }

  lemma {:induction false} NoneTyped(slices: seq<Slice>, t: AddressType, n: string)
    requires forall s | s in slices :: s.addressType != t
    ensures Typed(slices, t, n) == []
  {
    if slices != [] {
      NoneTyped(slices[..|slices| - 1], t, n);
    }
  }

  /** In slices sorted by address type, all addresses of IPv4 slices come before all of IPv6 slices. */
  lemma {:induction false} IPv4First(sorted: seq<Slice>, n: string)
    requires Ordered(sorted, TypeLess)
    ensures AddressesOf(Flat(sorted), n) == Typed(sorted, IPv4, n) + Typed(sorted, IPv6, n)
  {
    if sorted != [] {
      var rest, last := sorted[..|sorted| - 1], sorted[|sorted| - 1];
      var mine := AddressesOf(last.endpoints, n);
      IPv4First(rest, n);
      match last.addressType
      case FQDN =>
      case IPv6 =>
        AddressesAppend(Flat(rest), last.endpoints, n);
        assert Typed(sorted, IPv4, n) + Typed(sorted, IPv6, n) == Typed(rest, IPv4, n) + Typed(rest, IPv6, n) + mine;
      case IPv4 =>
        AddressesAppend(Flat(rest), last.endpoints, n);
        NoIPv6Before(sorted, n);
        assert Typed(rest, IPv4, n) + [] == Typed(rest, IPv4, n);
        assert Typed(sorted, IPv4, n) + [] == Typed(rest, IPv4, n) + mine;
    }
  }

  lemma NoIPv6Before(sorted: seq<Slice>, n: string)
    requires Ordered(sorted, TypeLess) && sorted != [] && sorted[|sorted| - 1].addressType == IPv4
    ensures Typed(sorted[..|sorted| - 1], IPv6, n) == []
  {
    var rest := sorted[..|sorted| - 1];
    forall i | 0 <= i < |rest| ensures rest[i].addressType != IPv6 {
      assert !TypeLess(sorted[|sorted| - 1], sorted[i]);
    }
    NoneTyped(rest, IPv6, n);
  }

  lemma {:induction false} TypedAppend(a: seq<Slice>, b: seq<Slice>, t: AddressType, n: string)
    ensures Typed(a + b, t, n) == Typed(a, t, n) + Typed(b, t, n)
  {
    if b == [] {
      assert a + b == a;
    } else {
      var rest, last := b[..|b| - 1], b[|b| - 1];
      TypedAppend(a, rest, t, n);
      assert (a + b)[..|a + b| - 1] == a + rest && (a + b)[|a + b| - 1] == last;
      assert Typed(a, t, n) + (Typed(rest, t, n) + AddressesOf(last.endpoints, n))
          == Typed(a, t, n) + Typed(rest, t, n) + AddressesOf(last.endpoints, n);
    }
  }

  /** Reordering the slices conserves each pod's addresses. */
  lemma {:induction false} TypedPermuted(a: seq<Slice>, b: seq<Slice>, t: AddressType, n: string)
    requires multiset(a) == multiset(b)
    ensures multiset(Typed(a, t, n)) == multiset(Typed(b, t, n))
  {
    if a == [] {
      assert |b| == |multiset(b)| == 0;
    } else {
      var rest, last := a[..|a| - 1], a[|a| - 1];
      assert a == rest + [last] && last in multiset(b);
      var i :| 0 <= i < |b| && b[i] == last;
      WithoutOne(b, i);
      var others := b[..i] + b[i + 1..];
      assert multiset(rest) == multiset(others);
      TypedPermuted(rest, others, t, n);
      TypedSplit(b, i, t, n);
      TypedAppend(rest, [last], t, n);
    }
  }

  lemma TypedSplit(b: seq<Slice>, i: nat, t: AddressType, n: string)
    requires i < |b|
    ensures multiset(Typed(b, t, n)) == multiset(Typed(b[..i] + b[i + 1..], t, n)) + multiset(Typed([b[i]], t, n))
    ensures b[i].addressType == t ==> Typed([b[i]], t, n) == AddressesOf(b[i].endpoints, n)
    ensures b[i].addressType != t ==> Typed([b[i]], t, n) == []
  {
    assert b == b[..i] + ([b[i]] + b[i + 1..]);
    TypedAppend(b[..i], [b[i]] + b[i + 1..], t, n);
    TypedAppend([b[i]], b[i + 1..], t, n);
    TypedAppend(b[..i], b[i + 1..], t, n);
    assert [b[i]][..0] == [];
  }

  /** Pod `n` occurs in a slice that is not FQDN. */
  ghost predicate Occurs(slices: seq<Slice>, n: string) {
    exists s, ep :: s in slices && s.addressType != FQDN && ep in s.endpoints && ep.targetRef.Some?
                    && ep.targetRef.value.name == n
  }

  /** The slice endpoint `ep` is one of pod `n`, in a slice that is not FQDN. */
  ghost predicate OccursAs(slices: seq<Slice>, n: string, ep: SliceEndpoint) {
    exists s :: s in slices && s.addressType != FQDN && ep in s.endpoints && ep.targetRef.Some?
                && ep.targetRef.value.name == n
  }

  /** One slice endpoint gives its own pod all of its addresses, and no other pod any. */
  lemma OneGivesItsAddresses(ep: SliceEndpoint, n: string)
    requires ep.targetRef.Some?
    ensures AddressesOf([ep], n) == if ep.targetRef.value.name == n then ep.addresses else []
  {
    assert [ep][..0] == [];
  }

  lemma {:induction false} FirstOccurs(eps: seq<SliceEndpoint>, n: string)
    ensures FirstOf(eps, n).Some? <==> exists ep :: ep in eps && PodName(ep) == n
    ensures FirstOf(eps, n).Some? ==> FirstOf(eps, n).value in eps && PodName(FirstOf(eps, n).value) == n
  {
    if eps != [] {
      FirstOccurs(eps[..|eps| - 1], n);
      assert eps == eps[..|eps| - 1] + [eps[|eps| - 1]];
    }
  }

  lemma {:induction false} FlatMembers(slices: seq<Slice>)
    ensures forall ep :: ep in Flat(slices) <==> exists s :: s in slices && !s.addressType.FQDN? && ep in s.endpoints
  {
    if slices != [] {
      var rest, last := slices[..|slices| - 1], slices[|slices| - 1];
      assert slices == rest + [last];
      FlatMembers(rest);
    }
  }

  /** One endpoint per pod of the non-FQDN slices, whatever the slice order; each has exactly the pod's addresses, those
      of IPv4 slices before those of IPv6 slices, with the hostname and target of one of the pod's slice endpoints and
      the exporting cluster's name, zone and region. */
  lemma GroupingMeaning(slices: seq<Slice>, sorted: seq<Slice>, info: ClusterInfo, m: map<string, Endpoint>,
                        es: seq<Endpoint>, n: string)
    requires AllTargeted(slices) && multiset(sorted) == multiset(slices) && Ordered(sorted, TypeLess)
    requires GroupedBy(m, Flat(sorted), info) && Collects(es, m)
    ensures (exists e :: e in es && e.targetRef.Some? && e.targetRef.value.name == n) <==> Occurs(slices, n)
    ensures forall e | e in es && e.targetRef.Some? && e.targetRef.value.name == n ::
      && e.addresses == Typed(sorted, IPv4, n) + Typed(sorted, IPv6, n)
      && multiset(Typed(sorted, IPv4, n)) == multiset(Typed(slices, IPv4, n))
      && multiset(Typed(sorted, IPv6, n)) == multiset(Typed(slices, IPv6, n))
      && exists ep :: OccursAs(slices, n, ep) && e.hostname == ep.hostname && e.targetRef == ep.targetRef
    ensures forall e | e in es ::
      e.targetRef.Some? && e.cluster == info.name && e.zone == info.zone && e.region == info.region
  {
    IPv4First(sorted, n);
    TypedPermuted(sorted, slices, IPv4, n);
    TypedPermuted(sorted, slices, IPv6, n);
    FirstOccurs(Flat(sorted), n);
    FlatMembers(sorted);
    forall s ensures s in sorted <==> s in slices {
      assert s in sorted <==> s in multiset(sorted);
      assert s in slices <==> s in multiset(slices);
    }
    FlatTargeted(slices, sorted);
    if Occurs(slices, n) {
      PodIsGrouped(slices, sorted, info, m, n);
      assert m[n] in es;
    }
    if n in m {
      assert OccursAs(slices, n, FirstOf(Flat(sorted), n).value);
    }
  }

  lemma FlatTargeted(slices: seq<Slice>, sorted: seq<Slice>)
    requires AllTargeted(slices) && forall s :: s in sorted <==> s in slices
    ensures forall ep | ep in Flat(sorted) :: ep.targetRef.Some?
  {
    FlatMembers(sorted);
  }

  lemma PodIsGrouped(slices: seq<Slice>, sorted: seq<Slice>, info: ClusterInfo, m: map<string, Endpoint>, n: string)
    requires (forall s :: s in sorted <==> s in slices) && GroupedBy(m, Flat(sorted), info) && Occurs(slices, n)
    ensures n in m
  {
    var s, ep :| s in slices && s.addressType != FQDN && ep in s.endpoints && ep.targetRef.Some?
                 && ep.targetRef.value.name == n;
    FlatMembers(sorted);
    assert ep in Flat(sorted) && PodName(ep) == n;
    FirstOccurs(Flat(sorted), n);
  }

  // --- The algorithm ---

  lemma TypeLessOrders()
    ensures Ordering(TypeLess)
  {
  }

  predicate NameLess(a: Endpoint, b: Endpoint) {
    Before(NameOf(a), NameOf(b))
  }

  lemma NameLessOrders()
    ensures Ordering(NameLess)
  {
    forall a, b ensures NameLess(a, b) ==> !NameLess(b, a) {
      BeforeTotal(NameOf(a), NameOf(b));
    }
    forall a, b, c ensures !NameLess(b, a) && !NameLess(c, b) ==> !NameLess(c, a) {
      BeforeTransitive(NameOf(a), NameOf(b), NameOf(c));
    }
  }

  method AddEndpoint(m: map<string, Endpoint>, ep: SliceEndpoint, info: ClusterInfo, ghost eps: seq<SliceEndpoint>)
    returns (r: map<string, Endpoint>)
    requires GroupedBy(m, eps, info) && ep.targetRef.Some?
    ensures GroupedBy(r, eps + [ep], info)
  {
    GroupNext(m, eps, ep, info);
    var name := ep.targetRef.value.name;
    if name in m {
      var e := m[name];
      r := m[name := e.(addresses := e.addresses + ep.addresses)];
    } else {
      r := m[name := Endpoint(ep.addresses, ep.hostname, ep.targetRef, info.name, info.zone, info.region)];
    }
  }

  /** Walks the map in any order. */
  method Values(m: map<string, Endpoint>, ghost eps: seq<SliceEndpoint>, ghost info: ClusterInfo)
    returns (es: seq<Endpoint>)
    requires GroupedBy(m, eps, info)
    ensures forall e | e in es :: NameOf(e) in m && m[NameOf(e)] == e
    ensures forall n | n in m :: m[n] in es
    ensures forall i, j | 0 <= i < j < |es| :: NameOf(es[i]) != NameOf(es[j])
  {
    es := [];
    var rest := m.Keys;
    while rest != {}
      invariant rest <= m.Keys
      invariant forall e | e in es :: NameOf(e) in m && NameOf(e) !in rest && m[NameOf(e)] == e
      invariant forall n | n in m && n !in rest :: m[n] in es
      invariant forall i, j | 0 <= i < j < |es| :: NameOf(es[i]) != NameOf(es[j])
      decreases rest
    {
      var n :| n in rest;
      assert forall i | 0 <= i < |es| :: es[i] in es;
      es := es + [m[n]];
      rest := rest - {n};
    }
  }

  lemma DistinctSorted(es: seq<Endpoint>, sorted: seq<Endpoint>)
    requires multiset(es) == multiset(sorted) && Ordered(sorted, NameLess)
    requires forall i, j | 0 <= i < j < |es| :: NameOf(es[i]) != NameOf(es[j])
    ensures StrictlySorted(sorted) && forall e :: e in es <==> e in sorted
  {
    forall e ensures e in es <==> e in sorted {
      assert e in es <==> e in multiset(es);
      assert e in sorted <==> e in multiset(sorted);
    }
    forall i, j | 0 <= i < j < |sorted| ensures Before(NameOf(sorted[i]), NameOf(sorted[j])) {
      BeforeTotal(NameOf(sorted[i]), NameOf(sorted[j]));
      assert !NameLess(sorted[j], sorted[i]);
      if NameOf(sorted[i]) == NameOf(sorted[j]) {
        TwiceInSorted(es, sorted, i, j);
      }
    }
  }

  lemma AnotherOne(es: seq<Endpoint>, p: nat, b: Endpoint) returns (k: nat)
    requires p < |es| && b in multiset(es) - multiset{es[p]}
    ensures k < |es| && k != p && es[k] == b
  {
    WithoutOne(es, p);
    var others := es[..p] + es[p + 1..];
    assert b in multiset(others);
    k :| k < |others| && others[k] == b;
    if k >= p {
      k := k + 1;
    }
  }

  lemma TwiceInSorted(es: seq<Endpoint>, sorted: seq<Endpoint>, i: nat, j: nat)
    requires multiset(es) == multiset(sorted) && i < j < |sorted| && NameOf(sorted[i]) == NameOf(sorted[j])
    ensures exists p, q :: 0 <= p < q < |es| && NameOf(es[p]) == NameOf(es[q])
  {
    var a, b := sorted[i], sorted[j];
    WithoutOne(sorted, i);
    assert (sorted[..i] + sorted[i + 1..])[j - 1] == b;
    assert b in multiset(sorted) - multiset{a} && a in multiset(es);
    var p: nat :| p < |es| && es[p] == a;
    var q := AnotherOne(es, p, b);
    assert p < q || q < p;
  }

  /** The endpoints of a headless service. `sorted` is the order in which the slices happened to be sorted,
      and `grouped` the map of endpoints by pod name that the loops build. */
  method GetEndpointsOfHeadlessService(slices: seq<Slice>, info: ClusterInfo)
    returns (endpoints: seq<Endpoint>, sorted: seq<Slice>, grouped: map<string, Endpoint>)
    requires AllTargeted(slices)
    ensures multiset(sorted) == multiset(slices) && Ordered(sorted, TypeLess)
    ensures GroupedBy(grouped, Flat(sorted), info) && Collects(endpoints, grouped)
  {
    TypeLessOrders();
    var items := Sort(slices, TypeLess);
    sorted := items;
    var endpointByName: map<string, Endpoint> := map[];
    for i := 0 to |items|
      invariant GroupedBy(endpointByName, Flat(items[..i]), info)
    {
      var es := items[i];
      assert items[..i + 1][..i] == items[..i];
      if es.addressType == FQDN {
        continue;
      }
      assert es in multiset(slices);
      assert es.endpoints[..0] == [] && Flat(items[..i]) + [] == Flat(items[..i]);
      for j := 0 to |es.endpoints|
        invariant GroupedBy(endpointByName, Flat(items[..i]) + es.endpoints[..j], info)
      {
        assert es.endpoints[j] in es.endpoints;
        endpointByName := AddEndpoint(endpointByName, es.endpoints[j], info, Flat(items[..i]) + es.endpoints[..j]);
        assert Flat(items[..i]) + es.endpoints[..j + 1] == Flat(items[..i]) + es.endpoints[..j] + [es.endpoints[j]];
      }
      assert es.endpoints[..|es.endpoints|] == es.endpoints;
    }
    assert items[..|items|] == items;
    grouped := endpointByName;
    var values := Values(endpointByName, Flat(items), info);
    NameLessOrders();
    endpoints := Sort(values, NameLess);
    DistinctSorted(values, endpoints);
  }
}
