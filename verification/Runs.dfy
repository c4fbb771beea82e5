/** Whole runs of exports and revokes, and what the registry holds after them, read off the history alone. */
module Runs {
  import opened Model
  import opened Endpoints
  import opened Registry

  ghost predicate AllTagged(ops: seq<Op>) {
    forall op | op in ops :: WellTagged(op)
  }

  /** Operation `i` is an export that its cluster has neither replaced nor revoked since. */
  ghost predicate Live(ops: seq<Op>, i: nat)
    requires i < |ops|
  {
    ops[i].Export? && forall j | i < j < |ops| :: ops[j].key != ops[i].key || ops[j].cluster != ops[i].cluster
  }

  /** The endpoints of the live exports of `key` among the first `n` operations, in the order of those exports. */
  ghost function LiveEndpoints(ops: seq<Op>, key: Key, n: nat): seq<Endpoint>
    requires n <= |ops|
  {
    if n == 0 then []
    else if ops[n - 1].key == key && Live(ops, n - 1) then
      LiveEndpoints(ops, key, n - 1) + ops[n - 1].spec.endpoints
    else LiveEndpoints(ops, key, n - 1)
  }

  /** The last operation on `key`. */
  function LastOn(ops: seq<Op>, key: Key): Option<Op> {
    if ops == [] then None
    else if ops[|ops| - 1].key == key then Some(ops[|ops| - 1])
    else LastOn(ops[..|ops| - 1], key)
  }

  /** The last export of `key`. */
  function LastExport(ops: seq<Op>, key: Key): Option<Op> {
    if ops == [] then None
    else if ops[|ops| - 1].key == key && ops[|ops| - 1].Export? then Some(ops[|ops| - 1])
    else LastExport(ops[..|ops| - 1], key)
  }

  /** What a run leaves at `key`, without running it: the service exists when a live export has an endpoint or
      when the last operation on it is an export; ports and type are those of the last export. */
  ghost function Declared(ops: seq<Op>, key: Key): Option<Spec> {
    var es := LiveEndpoints(ops, key, |ops|);
    var last := LastOn(ops, key);
    var source := LastExport(ops, key);
    if source.Some? && source.value.Export? && (es != [] || (last.Some? && last.value.Export?))
    then Some(Spec(source.value.spec.kind, source.value.spec.ports, es))
    else None
  }

  lemma LiveGrows(ops: seq<Op>, op: Op, i: nat)
    requires i < |ops|
    ensures Live(ops + [op], i) <==> Live(ops, i) && (op.key != ops[i].key || op.cluster != ops[i].cluster)
  {
    var all := ops + [op];
    assert all[i] == ops[i] && all[|ops|] == op;
    if Live(ops, i) && (op.key != ops[i].key || op.cluster != ops[i].cluster) {
      forall j | i < j < |all| ensures all[j].key != ops[i].key || all[j].cluster != ops[i].cluster {
        assert all[j] == if j < |ops| then ops[j] else op;
      }
    }
    if Live(all, i) {
      forall j | i < j < |ops| ensures ops[j].key != ops[i].key || ops[j].cluster != ops[i].cluster {
        assert all[j] == ops[j];
      }
    }
  }

  /** One more operation ends exactly its own cluster's live exports of its own key. */
  lemma {:induction false} LiveAfter(ops: seq<Op>, op: Op, key: Key, n: nat)
    requires n <= |ops| && AllTagged(ops)
    ensures LiveEndpoints(ops + [op], key, n)
         == if op.key == key then Outside(LiveEndpoints(ops, key, n), {op.cluster}) else LiveEndpoints(ops, key, n)
  {
    if n > 0 {
      LiveAfter(ops, op, key, n - 1);
      var i := n - 1;
      assert (ops + [op])[i] == ops[i] && ops[i] in ops;
      LiveGrows(ops, op, i);
      if ops[i].key == key && Live(ops, i) && op.key == key {
        OutsideAppend(LiveEndpoints(ops, key, i), ops[i].spec.endpoints, {op.cluster});
        OutsideTagged(ops[i].spec.endpoints, ops[i].cluster, {op.cluster});
      }
    }
  }

  /** The endpoints left at `key` are the concatenation of every cluster's last un-revoked export. */
  lemma {:induction false} RunEndpoints(ops: seq<Op>, key: Key)
    requires AllTagged(ops)
    ensures EndpointsOf(Run(map[], ops), key) == LiveEndpoints(ops, key, |ops|)
  {
    if ops != [] {
      var rest, op := ops[..|ops| - 1], ops[|ops| - 1];
      assert ops == rest + [op];
      RunEndpoints(rest, key);
      LiveAfter(rest, op, key, |rest|);
      assert Live(ops, |rest|) <==> op.Export?;
      assert Outside([], {op.cluster}) == [];
    }
  }

  /** A run from the empty registry leaves exactly what its history declares, whatever the exports hold. */
  lemma {:induction false} RunIsDeclared(ops: seq<Op>, key: Key)
    requires AllTagged(ops)
    ensures key in Run(map[], ops) <==> Declared(ops, key).Some?
    ensures key in Run(map[], ops) ==> Run(map[], ops)[key] == Declared(ops, key).value
  {
    RunEndpoints(ops, key);
    if ops != [] {
      var rest, op := ops[..|ops| - 1], ops[|ops| - 1];
      assert ops == rest + [op];
      RunIsDeclared(rest, key);
      RunEndpoints(rest, key);
      ExportsAreExports(ops, key);
      ExportsAreExports(rest, key);
      if key in Run(map[], rest) {
        assert LastExport(rest, key).Some?;
      }
    }
  }

  lemma {:induction false} ExportsAreExports(ops: seq<Op>, key: Key)
    ensures LastExport(ops, key).Some? ==> LastExport(ops, key).value.Export?
    ensures LastOn(ops, key).Some? && LastOn(ops, key).value.Export? ==> LastExport(ops, key) == LastOn(ops, key)
  {
    if ops != [] {
      ExportsAreExports(ops[..|ops| - 1], key);
    }
  }

  /** No export is empty. The API server rejects empty uploads; the server's own exporter does not. */
  ghost predicate NonEmpty(ops: seq<Op>) {
    forall op | op in ops && op.Export? :: op.spec.endpoints != []
  }

  /** When no export is empty, a service exists exactly while it has a live export. */
  lemma {:induction false} ExistsIffLive(ops: seq<Op>, key: Key)
    requires AllTagged(ops) && NonEmpty(ops)
    ensures key in Run(map[], ops) <==> LiveEndpoints(ops, key, |ops|) != []
  {
    RunEndpoints(ops, key);
    if ops != [] {
      var rest, op := ops[..|ops| - 1], ops[|ops| - 1];
      assert ops == rest + [op] && op in ops;
      ExistsIffLive(rest, key);
      RunEndpoints(rest, key);
    }
  }

  // --- Order independence ---

  /** The operations of one cluster, in its own order. */
  function ByCluster(ops: seq<Op>, c: string): seq<Op> {
    if ops == [] then []
    else if ops[|ops| - 1].cluster == c then ByCluster(ops[..|ops| - 1], c) + [ops[|ops| - 1]]
    else ByCluster(ops[..|ops| - 1], c)
  }

  /** Every cluster has performed the same operations in the same order. */
  ghost predicate SameByCluster(ops: seq<Op>, other: seq<Op>) {
    forall c :: ByCluster(ops, c) == ByCluster(other, c)
  }

  /** The endpoints that cluster `c` last exported under `key`, or none if it has revoked them since. */
  function Published(ops: seq<Op>, key: Key, c: string): seq<Endpoint> {
    if ops == [] then []
    else
      var op := ops[|ops| - 1];
      if op.key == key && op.cluster == c then (if op.Export? then op.spec.endpoints else [])
      else Published(ops[..|ops| - 1], key, c)
  }

  lemma {:induction false} PublishedByCluster(ops: seq<Op>, key: Key, c: string)
    ensures Published(ops, key, c) == Published(ByCluster(ops, c), key, c)
  {
    if ops != [] {
      var rest, op := ops[..|ops| - 1], ops[|ops| - 1];
      PublishedByCluster(rest, key, c);
      if op.cluster == c {
        assert ByCluster(ops, c)[..|ByCluster(ops, c)| - 1] == ByCluster(rest, c);
      }
    }
  }

  /** Each cluster's sub-list of a stored service is what that cluster last published, whatever the others did. */
  lemma {:induction false} SublistIsPublished(ops: seq<Op>, key: Key, c: string)
    requires AllTagged(ops)
    ensures Only(EndpointsOf(Run(map[], ops), key), c) == Published(ops, key, c)
  {
    if ops != [] {
      var rest, op := ops[..|ops| - 1], ops[|ops| - 1];
      assert op in ops && ops == rest + [op];
      SublistIsPublished(rest, key, c);
      var before := Run(map[], rest);
      if op.key == key && op.cluster == c {
        OnlyOutside(EndpointsOf(before, key), {c}, c);
        if op.Export? {
          OnlyAppend(Outside(EndpointsOf(before, key), {c}), op.spec.endpoints, c);
          OnlyTagged(op.spec.endpoints, c, c);
        }
      } else {
        OthersUntouched(before, op, key, c);
      }
    }
  }

  /** Two runs that agree on every cluster's own order of operations leave the same endpoints of every cluster, the
      same endpoint multiset, and, when no export is empty, the same services. */
  lemma OrderIndependence(ops: seq<Op>, other: seq<Op>, key: Key)
    requires AllTagged(ops) && AllTagged(other)
    requires SameByCluster(ops, other)
    ensures forall c :: Only(EndpointsOf(Run(map[], ops), key), c) == Only(EndpointsOf(Run(map[], other), key), c)
    ensures multiset(EndpointsOf(Run(map[], ops), key)) == multiset(EndpointsOf(Run(map[], other), key))
    ensures NonEmpty(ops) && NonEmpty(other) ==> (key in Run(map[], ops) <==> key in Run(map[], other))
  {
    var es, fs := EndpointsOf(Run(map[], ops), key), EndpointsOf(Run(map[], other), key);
    forall c ensures Only(es, c) == Only(fs, c) {
      SublistIsPublished(ops, key, c);
      SublistIsPublished(other, key, c);
      PublishedByCluster(ops, key, c);
      PublishedByCluster(other, key, c);
      assert ByCluster(ops, c) == ByCluster(other, c);
    }
    SameSublistsSameMultiset(es, fs);
    if NonEmpty(ops) && NonEmpty(other) {
      ExistsIffLive(ops, key);
      ExistsIffLive(other, key);
      RunEndpoints(ops, key);
      RunEndpoints(other, key);
      assert |es| == |multiset(es)| == |multiset(fs)| == |fs|;
    }
  }

  // --- When existence depends on the order ---

  /** The operations of all clusters but `c`, in their order. */
  function NotBy(ops: seq<Op>, c: string): seq<Op> {
    if ops == [] then []
    else if ops[|ops| - 1].cluster == c then NotBy(ops[..|ops| - 1], c)
    else NotBy(ops[..|ops| - 1], c) + [ops[|ops| - 1]]
  }

  lemma {:induction false} ByClusterAppend(a: seq<Op>, b: seq<Op>, c: string)
    ensures ByCluster(a + b, c) == ByCluster(a, c) + ByCluster(b, c)
  {
    if b == [] {
      assert a + b == a;
    } else {
      ByClusterAppend(a, b[..|b| - 1], c);
      assert (a + b)[..|a + b| - 1] == a + b[..|b| - 1];
    }
  }

  lemma {:induction false} LastOnAppend(a: seq<Op>, b: seq<Op>, key: Key)
    ensures LastOn(a + b, key) == if LastOn(b, key).Some? then LastOn(b, key) else LastOn(a, key)
  {
    if b == [] {
      assert a + b == a;
    } else {
      LastOnAppend(a, b[..|b| - 1], key);
      assert (a + b)[..|a + b| - 1] == a + b[..|b| - 1];
    }
  }

  lemma {:induction false} ByClusterOfNotBy(ops: seq<Op>, c: string, d: string)
    ensures ByCluster(NotBy(ops, c), d) == if d == c then [] else ByCluster(ops, d)
  {
    if ops != [] {
      var rest, op := ops[..|ops| - 1], ops[|ops| - 1];
      ByClusterOfNotBy(rest, c, d);
      assert (NotBy(rest, c) + [op])[..|NotBy(rest, c)|] == NotBy(rest, c);
    }
  }

  lemma {:induction false} ByClusterTwice(ops: seq<Op>, c: string, d: string)
    ensures ByCluster(ByCluster(ops, c), d) == if d == c then ByCluster(ops, c) else []
  {
    if ops != [] {
      var rest, op := ops[..|ops| - 1], ops[|ops| - 1];
      ByClusterTwice(rest, c, d);
      assert (ByCluster(rest, c) + [op])[..|ByCluster(rest, c)|] == ByCluster(rest, c);
    }
  }

  lemma {:induction false} PartsAreTagged(ops: seq<Op>, c: string)
    requires AllTagged(ops)
    ensures AllTagged(NotBy(ops, c)) && AllTagged(ByCluster(ops, c))
  {
    if ops != [] {
      PartsAreTagged(ops[..|ops| - 1], c);
      assert ops[|ops| - 1] in ops;
    }
  }

  /** The run in which cluster `c` acts last. */
  lemma ActsLast(ops: seq<Op>, c: string, key: Key) returns (other: seq<Op>)
    requires AllTagged(ops) && LastOn(ByCluster(ops, c), key).Some?
    ensures AllTagged(other) && SameByCluster(ops, other)
    ensures LastOn(other, key) == LastOn(ByCluster(ops, c), key)
  {
    other := NotBy(ops, c) + ByCluster(ops, c);
    PartsAreTagged(ops, c);
    LastOnAppend(NotBy(ops, c), ByCluster(ops, c), key);
    forall d ensures ByCluster(ops, d) == ByCluster(other, d) {
      ByClusterAppend(NotBy(ops, c), ByCluster(ops, c), d);
      ByClusterOfNotBy(ops, c, d);
      ByClusterTwice(ops, c, d);
    }
  }

  lemma {:induction false} LastOnIsItsClustersLast(ops: seq<Op>, key: Key, c: string)
    ensures LastOn(ops, key).Some? ==> LastOn(ByCluster(ops, LastOn(ops, key).value.cluster), key) == LastOn(ops, key)
    ensures LastOn(ByCluster(ops, c), key).Some? ==> LastOn(ops, key).Some?
  {
    if ops != [] {
      var rest, op := ops[..|ops| - 1], ops[|ops| - 1];
      LastOnIsItsClustersLast(rest, key, c);
      forall d ensures LastOn(ByCluster(rest, d) + [op], key)
                    == if op.key == key then Some(op) else LastOn(ByCluster(rest, d), key) {
        LastOnAppend(ByCluster(rest, d), [op], key);
        assert [op][..0] == [];
      }
    }
  }

  /** Without endpoints, a service exists exactly when the last operation on it is an export. */
  lemma EmptyExistsIffExported(ops: seq<Op>, key: Key)
    requires AllTagged(ops) && LiveEndpoints(ops, key, |ops|) == []
    ensures key in Run(map[], ops) <==> LastOn(ops, key).Some? && LastOn(ops, key).value.Export?
  {
    RunIsDeclared(ops, key);
    ExportsAreExports(ops, key);
  }

  lemma SameLiveness(ops: seq<Op>, other: seq<Op>, key: Key)
    requires AllTagged(ops) && AllTagged(other) && SameByCluster(ops, other)
    ensures LiveEndpoints(ops, key, |ops|) == [] <==> LiveEndpoints(other, key, |other|) == []
  {
    OrderIndependence(ops, other, key);
    RunEndpoints(ops, key);
    RunEndpoints(other, key);
    var es, fs := LiveEndpoints(ops, key, |ops|), LiveEndpoints(other, key, |other|);
    assert |es| == |multiset(es)| == |multiset(fs)| == |fs|;
  }

  /** All clusters that have ever touched the service agree on it: each has exported it last, or each has revoked it
      last. */
  ghost predicate ClustersAgree(ops: seq<Op>, key: Key) {
    forall c, d | LastOn(ByCluster(ops, c), key).Some? && LastOn(ByCluster(ops, d), key).Some? ::
      LastOn(ByCluster(ops, c), key).value.Export? == LastOn(ByCluster(ops, d), key).value.Export?
  }

  /** Every run with the same operations of each cluster leaves the service in existence, or every one leaves it
      missing. */
  ghost predicate OrderFree(ops: seq<Op>, key: Key) {
    forall other | AllTagged(other) && SameByCluster(ops, other) ::
      key in Run(map[], other) <==> key in Run(map[], ops)
  }

  lemma AgreementSettles(ops: seq<Op>, other: seq<Op>, key: Key)
    requires AllTagged(ops) && AllTagged(other) && SameByCluster(ops, other)
    requires LiveEndpoints(ops, key, |ops|) == [] && ClustersAgree(ops, key)
    ensures key in Run(map[], other) <==> key in Run(map[], ops)
  {
    SameLiveness(ops, other, key);
    EmptyExistsIffExported(ops, key);
    EmptyExistsIffExported(other, key);
    var mine, theirs := LastOn(ops, key), LastOn(other, key);
    if mine.Some? {
      LastOnIsItsClustersLast(ops, key, "");
      LastOnIsItsClustersLast(other, key, mine.value.cluster);
      assert ByCluster(ops, mine.value.cluster) == ByCluster(other, mine.value.cluster);
    }
    if theirs.Some? {
      LastOnIsItsClustersLast(other, key, "");
      LastOnIsItsClustersLast(ops, key, theirs.value.cluster);
      assert ByCluster(ops, theirs.value.cluster) == ByCluster(other, theirs.value.cluster);
    }
  }

  lemma DisagreementDecides(ops: seq<Op>, key: Key, c: string, d: string)
    requires AllTagged(ops) && LiveEndpoints(ops, key, |ops|) == []
    requires LastOn(ByCluster(ops, c), key).Some? && LastOn(ByCluster(ops, d), key).Some?
    requires LastOn(ByCluster(ops, c), key).value.Export? && !LastOn(ByCluster(ops, d), key).value.Export?
    ensures !OrderFree(ops, key)
  {
    var kept := ActsLast(ops, c, key);
    var dropped := ActsLast(ops, d, key);
    SameLiveness(ops, kept, key);
    SameLiveness(ops, dropped, key);
    EmptyExistsIffExported(kept, key);
    EmptyExistsIffExported(dropped, key);
    assert key in Run(map[], kept) && key !in Run(map[], dropped);
  }

  /** Whether a service exists is independent of the order of different clusters' operations exactly when some live
      export of it has endpoints, or all clusters that have touched it agree on it. */
  lemma OrderFreeIff(ops: seq<Op>, key: Key)
    requires AllTagged(ops)
    ensures OrderFree(ops, key) <==> LiveEndpoints(ops, key, |ops|) != [] || ClustersAgree(ops, key)
  {
    if LiveEndpoints(ops, key, |ops|) != [] {
      forall other | AllTagged(other) && SameByCluster(ops, other)
        ensures key in Run(map[], other) && key in Run(map[], ops)
      {
        SameLiveness(ops, other, key);
        RunEndpoints(ops, key);
        RunEndpoints(other, key);
      }
    } else if ClustersAgree(ops, key) {
      forall other | AllTagged(other) && SameByCluster(ops, other)
        ensures key in Run(map[], other) <==> key in Run(map[], ops)
      {
        AgreementSettles(ops, other, key);
      }
    } else {
      var c, d :| LastOn(ByCluster(ops, c), key).Some? && LastOn(ByCluster(ops, d), key).Some?
                  && LastOn(ByCluster(ops, c), key).value.Export? && !LastOn(ByCluster(ops, d), key).value.Export?;
      DisagreementDecides(ops, key, c, d);
    }
  }

  /** With empty exports, existence does depend on the order: an empty service survives only until the next revoke. */
  lemma EmptyExportsAreOrderDependent(key: Key, a: string, b: string, spec: Spec)
    requires a != b && spec.endpoints == []
    ensures var ops, other := [Export(key, a, spec), Revoke(key, b)], [Revoke(key, b), Export(key, a, spec)];
            SameByCluster(ops, other) && key !in Run(map[], ops) && key in Run(map[], other)
  {
    var ex, rv := Export(key, a, spec), Revoke(key, b);
    var ops, other := [ex, rv], [rv, ex];
    assert ops[..1] == [ex] && other[..1] == [rv] && ops[..1][..0] == [] == other[..1][..0];
    assert Run(map[], [ex]) == Apply(map[], ex) && Run(map[], [rv]) == Apply(map[], rv) by {
      assert [ex][..0] == [] && [rv][..0] == [];
      assert Run(map[], []) == map[];
    }
    assert Outside([], {a}) == [] && Outside([], {b}) == [];
    forall c ensures ByCluster(ops, c) == ByCluster(other, c) {
      assert ByCluster([], c) == [];
      assert ByCluster([ex], c) == if a == c then [ex] else [];
      assert ByCluster([rv], c) == if b == c then [rv] else [];
    }
  }
}
