/** The global service manager: locked read-modify-writes of the stored services. */
module Manager {
  import opened Model
  import opened Endpoints
  import opened Registry
  import opened ObjectStore

  const CREATED_LABELS := map[KEY_CREATED_BY := APP_SERVICE_HUB]

  /** The effect of an operation on the object store. An export that changes nothing is not written. */
  function Stored(st: Store, op: Op): Store {
    match op
    case Export(key, cluster, spec) =>
      if key !in st.objects then Put(st, key, CREATED_LABELS, Merged([], cluster, spec))
      else
        var merged := Merged(st.objects[key].spec.endpoints, cluster, spec);
        if merged == st.objects[key].spec then st else Put(st, key, st.objects[key].labels, merged)
    case Revoke(key, cluster) =>
      if key !in st.objects then st
      else
        var rest := Outside(st.objects[key].spec.endpoints, {cluster});
        if rest == [] then Remove(st, key)
        else Put(st, key, st.objects[key].labels, st.objects[key].spec.(endpoints := rest))
  }

  /** The store's specifications follow the registry of values. */
  lemma StoredRefinesApply(st: Store, op: Op)
    ensures Specs(Stored(st, op)) == Apply(Specs(st), op)
  {
    assert Outside([], {op.cluster}) == [];
  }

  /** A service keeps its labels, and a new one says who created it. Other services are not written, nor is one that an
      export leaves as it was. */
  lemma StoredKeepsLabels(st: Store, op: Op, k: Key)
    ensures var after := Stored(st, op);
            && (k in after.objects && k in st.objects ==> after.objects[k].labels == st.objects[k].labels)
            && (k in after.objects && k !in st.objects ==>
                  op.Export? && k == op.key && after.objects[k].labels == map["fabedge.io/created-by" := "service-hub"])
            && (k != op.key ==> (k in after.objects <==> k in st.objects))
            && (k in after.objects && k in st.objects && (k == op.key ==> op.Export?)
                  && after.objects[k].spec == st.objects[k].spec ==>
                after.objects[k] == st.objects[k])
  {
  }

  /** Moves `a[i + 1..n]` one place to the front, over `a[i]`. */
  method ShiftLeft(a: array<Endpoint>, i: nat, n: nat)
    requires i < n <= a.Length
    modifies a
    ensures a[..i] == old(a[..i]) && a[i..n - 1] == old(a[i + 1..n])
  {
    forall k | i <= k < n - 1 {
      a[k] := a[k + 1];
    }
  }

  /** Filters the endpoints of `cluster` out of `a` in place. Returns how many are left, at the front of `a`. */
  method RemoveEndpoints(a: array<Endpoint>, cluster: string) returns (n: nat)
    modifies a
    ensures n <= a.Length
    ensures a[..n] == Outside(old(a[..]), {cluster})
  {
    ghost var was, p := a[..], 0;  // the first p endpoints have been looked at
    n := a.Length;
    var i := 0;
    while i < n
      invariant 0 <= i <= n <= a.Length && p == a.Length - n + i
      invariant a[i..n] == was[p..]
      invariant a[..i] == Outside(was[..p], {cluster})
      decreases n - i
    {
      ghost var kept := a[..i];
      OutsideNext(was, p, {cluster});
      Head(a[i..n], was, p);
      assert a[i + 1..n] == a[i..n][1..];
      if a[i].cluster == cluster {
        ShiftLeft(a, i, n);
        n := n - 1;
      } else {
        assert a[..i + 1] == kept + [was[p]];
        i := i + 1;
      }
      p := p + 1;
    }
    assert was[..p] == was;
  }

  lemma Head<T>(rest: seq<T>, was: seq<T>, p: nat)
    requires p < |was| && rest == was[p..]
    ensures rest[0] == was[p] && rest[1..] == was[p + 1..]
  {
  }

  class GlobalServiceManager {
    const client: Client
    const allowCreateNamespace: bool

    constructor (client: Client, allowCreateNamespace: bool)
      ensures this.client == client && this.allowCreateNamespace == allowCreateNamespace
    {
      this.client, this.allowCreateNamespace := client, allowCreateNamespace;
    }

    /** Merges an exported service into the stored one, or creates it. */
    method CreateOrMergeGlobalService(key: Key, clusterName: string, spec: Spec) returns (ok: bool)
      modifies client`store, client`namespaces
      ensures client.Works(key) ==> ok
      ensures ok ==> client.store == Stored(old(client.store), Export(key, clusterName, spec))
      ensures ok && allowCreateNamespace ==> key.namespace in client.namespaces
      ensures old(client.namespaces) <= client.namespaces
      ensures client.namespaces <= old(client.namespaces) + if allowCreateNamespace then {key.namespace} else {}
      ensures !ok ==> client.store == old(client.store)
    {
      if allowCreateNamespace {
        var ensured := client.EnsureNamespace(key.namespace);
        if !ensured {
          return false;
        }
      }
      var current := client.Get(key);
      match current {
        case Unreadable =>
          ok := false;
        case NotFound =>
          var merged := Merge([], clusterName, spec);
          ok := client.Create(key, CREATED_LABELS, merged);
        case Found(o) =>
          var merged := Merge(o.spec.endpoints, clusterName, spec);
          if merged == o.spec {
            ok := true;
          } else {
            ok := client.Update(key, o, o.labels, merged);
          }
      }
    }

    method Merge(stored: seq<Endpoint>, clusterName: string, spec: Spec) returns (merged: Spec)
      ensures merged == Merged(stored, clusterName, spec)
    {
      var all := Filter(stored, clusterName);
      merged := Spec(spec.kind, spec.ports, all + spec.endpoints);
    }

    method Filter(stored: seq<Endpoint>, clusterName: string) returns (rest: seq<Endpoint>)
      ensures rest == Outside(stored, {clusterName})
    {
      var a := new Endpoint[|stored|](i requires 0 <= i < |stored| => stored[i]);
      assert a[..] == stored;
      var n := RemoveEndpoints(a, clusterName);
      rest := a[..n];
    }

    /** Takes a cluster's endpoints out of a service, and deletes a service left without endpoints.
        When the read fails, the source goes on with an object that has no name and no endpoints. */
    method RevokeGlobalService(clusterName: string, key: Key) returns (ok: bool)
      modifies client`store
      ensures client.Works(key) && key.name != "" ==> ok
      ensures ok ==> client.store == Stored(old(client.store), Revoke(key, clusterName))
      ensures !ok ==> client.store == old(client.store)
    {
      var current := client.Get(key);
      match current {
        case NotFound =>
          ok := true;
        case Unreadable =>
          ok := client.Delete(Key("", ""));
        case Found(o) =>
          var rest := Filter(o.spec.endpoints, clusterName);
          if |rest| == 0 {
            ok := client.Delete(key);
          } else {
            ok := client.Update(key, o, o.labels, o.spec.(endpoints := rest));
          }
      }
    }
  }
}
