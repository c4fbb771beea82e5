/** The host registry as a value: a map from service key to specification, and the two operations
    that every cluster performs on it. */
module Registry {
  import opened Model
  import opened Endpoints

  type Services = map<Key, Spec>

  /** One request of a cluster: export a service, or take its endpoints back. */
  datatype Op =
    | Export(key: Key, cluster: string, spec: Spec)
    | Revoke(key: Key, cluster: string)

  /** Every endpoint of an export carries the exporting cluster's name. */
  ghost predicate WellTagged(op: Op) {
    op.Export? ==> TaggedWith(op.spec.endpoints, op.cluster)
  }

  function EndpointsOf(reg: Services, key: Key): seq<Endpoint> {
    if key in reg then reg[key].endpoints else []
  }

  /** What an export turns the stored endpoint list into. */
  function Merged(stored: seq<Endpoint>, cluster: string, spec: Spec): Spec {
    Spec(spec.kind, spec.ports, Outside(stored, {cluster}) + spec.endpoints)
  }

  function Apply(reg: Services, op: Op): Services {
    match op
    case Export(key, cluster, spec) => reg[key := Merged(EndpointsOf(reg, key), cluster, spec)]
    case Revoke(key, cluster) =>
      if key !in reg then reg
      else
        var rest := Outside(reg[key].endpoints, {cluster});
        if rest == [] then reg - {key} else reg[key := reg[key].(endpoints := rest)]
  }

  function Run(reg: Services, ops: seq<Op>): Services {
    if ops == [] then reg else Apply(Run(reg, ops[..|ops| - 1]), ops[|ops| - 1])
  }

  lemma RunOne(reg: Services, ops: seq<Op>, op: Op)
    ensures Run(reg, ops + [op]) == Apply(Run(reg, ops), op)
  {
    assert (ops + [op])[..|ops|] == ops;
  }

  /** Revoking twice is revoking once. */
  lemma RevokeIdempotent(reg: Services, key: Key, cluster: string)
    ensures Apply(Apply(reg, Revoke(key, cluster)), Revoke(key, cluster)) == Apply(reg, Revoke(key, cluster))
    ensures Only(EndpointsOf(Apply(reg, Revoke(key, cluster)), key), cluster) == []
  {
    if key in reg {
      OutsideTwice(reg[key].endpoints, {cluster}, {cluster});
      OnlyOutside(reg[key].endpoints, {cluster}, cluster);
      assert {cluster} + {cluster} == {cluster};
    }
  }

  /** A repeated export has no further effect, for every registry, exactly when the export is well tagged.
      An endpoint carrying another cluster's name is added again each time. */
  lemma ReexportIdempotentIffWellTagged(key: Key, cluster: string, spec: Spec)
    ensures (forall reg :: Apply(Apply(reg, Export(key, cluster, spec)), Export(key, cluster, spec))
                        == Apply(reg, Export(key, cluster, spec)))
      <==> WellTagged(Export(key, cluster, spec))
  {
    var op := Export(key, cluster, spec);
    if WellTagged(op) {
      forall reg ensures Apply(Apply(reg, op), op) == Apply(reg, op) {
        var es := EndpointsOf(reg, key);
        OutsideAppend(Outside(es, {cluster}), spec.endpoints, {cluster});
        OutsideTagged(spec.endpoints, cluster, {cluster});
        OutsideTwice(es, {cluster}, {cluster});
        assert {cluster} + {cluster} == {cluster};
        assert Outside(es, {cluster}) + [] == Outside(es, {cluster});
      }
    } else {
      var reg := Apply(map[], op);
      assert reg[key].endpoints == spec.endpoints;
      OutsideMembers(spec.endpoints, {cluster});
      var e :| e in spec.endpoints && e.cluster != cluster;
      assert e in Outside(spec.endpoints, {cluster});
      assert |Apply(reg, op)[key].endpoints| > |spec.endpoints|;
    }
  }

  /** An operation of one cluster leaves every other cluster's endpoints, and every other service, alone. */
  lemma OthersUntouched(reg: Services, op: Op, key: Key, c: string)
    requires WellTagged(op) && (key != op.key || c != op.cluster)
    ensures Only(EndpointsOf(Apply(reg, op), key), c) == Only(EndpointsOf(reg, key), c)
  {
    if key == op.key {
      var es := EndpointsOf(reg, key);
      OnlyOutside(es, {op.cluster}, c);
      if op.Export? {
        OnlyAppend(Outside(es, {op.cluster}), op.spec.endpoints, c);
        OnlyTagged(op.spec.endpoints, op.cluster, c);
      }
    }
  }
}
