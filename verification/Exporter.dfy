/** The exporter and the revoker of lost services, as they run beside the server's own registry. */
module Exporter {
  import opened Model
  import opened Endpoints
  import opened Registry
  import opened ObjectStore
  import opened Manager
  import opened KeySets
  import opened HeadlessExport
  import Sorting

  const LABEL_GLOBAL_SERVICE := "fabedge.io/global-service"
  const TYPE_CLUSTER_IP := "ClusterIP"
  const CLUSTER_IP_NONE := "None"

  datatype ServicePort = ServicePort(port: Port, targetPort: string, nodePort: int)

  datatype Service = Service(
    labels: map<string, string>, serviceType: string, clusterIP: string, clusterIPs: seq<string>,
    ports: seq<ServicePort>)

  datatype ServiceFetch = ServiceFound(service: Service) | ServiceNotFound | ServiceUnreadable

  predicate IsGlobalService(labels: map<string, string>) {
    LABEL_GLOBAL_SERVICE in labels && labels[LABEL_GLOBAL_SERVICE] == "true"
  }

  predicate ShouldSkip(svc: Service) {
    !IsGlobalService(svc.labels) || svc.serviceType != TYPE_CLUSTER_IP
  }

  /** A service that is exported. */
  predicate Wanted(fetched: ServiceFetch) {
    fetched.ServiceFound? && !ShouldSkip(fetched.service)
  }

  /** A service that is gone or has lost its label. */
  predicate Lost(fetched: ServiceFetch) {
    fetched.ServiceNotFound? || (fetched.ServiceFound? && !IsGlobalService(fetched.service.labels))
  }

  /** What the exporter of cluster `own` leaves of the global services when it handles a service that it does not want;
      `tracked` tells whether this process has it exported. */
  function ExporterLeaves(before: Services, key: Key, tracked: bool, own: string): Services {
    if tracked then Apply(before, Revoke(key, own)) else before
  }

  /** What the revoker of lost services leaves. */
  function RevokerLeaves(before: Services, key: Key, fetched: ServiceFetch, own: string): Services {
    if Lost(fetched) && Only(EndpointsOf(before, key), own) != [] then Apply(before, Revoke(key, own)) else before
  }

  /** Together, in either order, they clear the cluster's endpoints of a service that is not wanted exactly when this
      process has it exported, or it is gone or has lost its label, or there are none. After a restart nothing counts
      as exported. */
  lemma ClearedIff(before: Services, key: Key, fetched: ServiceFetch, tracked: bool, own: string)
    requires !Wanted(fetched) && !fetched.ServiceUnreadable?
    ensures var after := RevokerLeaves(ExporterLeaves(before, key, tracked, own), key, fetched, own);
            && (Only(EndpointsOf(after, key), own) == []
                <==> tracked || Lost(fetched) || Only(EndpointsOf(before, key), own) == [])
            && after == ExporterLeaves(RevokerLeaves(before, key, fetched, own), key, tracked, own)
  {
    RevokeIdempotent(before, key, own);
  }

  /** So the endpoints of a service that kept its label, but changed its type while the process was down, stay. */
  lemma ChangedTypeStays(key: Key, own: string)
    ensures var svc := Service(map[LABEL_GLOBAL_SERVICE := "true"], "LoadBalancer", "", [], []);
            var before := map[key := Spec(ClusterIP, [], [Endpoint([], None, None, own, "", "")])];
            var after := RevokerLeaves(ExporterLeaves(before, key, false, own), key, ServiceFound(svc), own);
            !Wanted(ServiceFound(svc)) && Only(EndpointsOf(after, key), own) != []
  {
    var e := Endpoint([], None, None, own, "", "");
    assert Only([e], own) == [e] + Only([e][1..], own);
  }

  /** The calls of this process that succeeded, oldest first. */
  datatype Call = Exported(key: Key) | Revoked(key: Key)

  predicate LastIsExport(calls: seq<Call>, key: Key) {
    if calls == [] then false
    else if calls[|calls| - 1].key == key then calls[|calls| - 1].Exported?
    else LastIsExport(calls[..|calls| - 1], key)
  }

  /** `spec` is an export of `svc` from the cluster `info`. */
  ghost predicate ExportOf(spec: Spec, svc: Service, slices: seq<Slice>, info: ClusterInfo) {
    && |spec.ports| == |svc.ports| && (forall i | 0 <= i < |svc.ports| :: spec.ports[i] == svc.ports[i].port)
    && if svc.clusterIP == CLUSTER_IP_NONE then spec.kind == Headless && HeadlessEndpoints(spec.endpoints, slices, info)
       else spec.kind == ClusterIP
            && spec.endpoints == [Endpoint(svc.clusterIPs, None, None, info.name, info.zone, info.region)]
  }

  ghost predicate HeadlessEndpoints(es: seq<Endpoint>, slices: seq<Slice>, info: ClusterInfo) {
    exists sorted, grouped ::
      && multiset(sorted) == multiset(slices) && Sorting.Ordered(sorted, TypeLess)
      && GroupedBy(grouped, Flat(sorted), info) && Collects(es, grouped)
  }

  /** The exporter's uploads are well tagged, and every endpoint carries the exporting cluster's place. A service with
      a cluster address has one endpoint, with all of its addresses. */
  lemma ExportsAreTagged(spec: Spec, svc: Service, slices: seq<Slice>, info: ClusterInfo, key: Key)
    requires ExportOf(spec, svc, slices, info) && AllTargeted(slices)
    ensures WellTagged(Export(key, info.name, spec))
    ensures forall e | e in spec.endpoints :: e.cluster == info.name && e.zone == info.zone && e.region == info.region
    ensures spec.kind == if svc.clusterIP == "None" then Headless else ClusterIP
    ensures svc.clusterIP != "None" ==> |spec.endpoints| == 1 && spec.endpoints[0].addresses == svc.clusterIPs
    ensures |spec.ports| == |svc.ports| && forall i | 0 <= i < |svc.ports| :: spec.ports[i] == svc.ports[i].port
  {
    if svc.clusterIP == CLUSTER_IP_NONE {
      var sorted, grouped :| && multiset(sorted) == multiset(slices) && Sorting.Ordered(sorted, TypeLess)
                             && GroupedBy(grouped, Flat(sorted), info) && Collects(spec.endpoints, grouped);
      GroupingMeaning(slices, sorted, info, grouped, spec.endpoints, "");
    }
  }

  /** What is exported: services with the label set to "true" and of type ClusterIP. What counts as lost: services that
      are gone or have another label value or none, whatever their type. A service that could not be read is neither. */
  lemma WantedOrLost(fetched: ServiceFetch)
    ensures var labelled := fetched.ServiceFound? && "fabedge.io/global-service" in fetched.service.labels
                            && fetched.service.labels["fabedge.io/global-service"] == "true";
            && (Wanted(fetched) <==> labelled && fetched.service.serviceType == "ClusterIP")
            && (Lost(fetched) <==> fetched.ServiceNotFound? || (fetched.ServiceFound? && !labelled))
  {
  }

  /** Call `i` exported the key and no later call was for it. */
  ghost predicate LastAt(calls: seq<Call>, key: Key, i: nat) {
    i < |calls| && calls[i] == Exported(key) && forall j | i < j < |calls| :: calls[j].key != key
  }

  lemma LastAtNext(calls: seq<Call>, call: Call, key: Key, i: nat)
    ensures LastAt(calls + [call], key, i)
       <==> (LastAt(calls, key, i) && call.key != key) || (i == |calls| && call == Exported(key))
  {
    var more := calls + [call];
    assert forall j | 0 <= j < |calls| :: more[j] == calls[j];
    assert more[|calls|] == call;
  }

  /** The key set's rule in terms of the calls: the last call for the key was an export. */
  lemma {:induction false} LastIsExportIff(calls: seq<Call>, key: Key)
    ensures LastIsExport(calls, key) <==> exists i: nat :: LastAt(calls, key, i)
  {
    if calls != [] {
      var rest, last := calls[..|calls| - 1], calls[|calls| - 1];
      assert calls == rest + [last];
      LastIsExportIff(rest, key);
      LastAtNext(rest, last, key, |rest|);
      forall i: nat ensures LastAt(calls, key, i)
        <==> (LastAt(rest, key, i) && last.key != key) || (i == |rest| && last == Exported(key)) {
        LastAtNext(rest, last, key, i);
      }
    }
  }

  class ServiceExporter {
    const info: ClusterInfo
    const manager: GlobalServiceManager
    const serviceKeySet: ObjectKeySet
    ghost var calls: seq<Call>

    ghost predicate Valid()
      reads this, serviceKeySet
    {
      forall k :: k in serviceKeySet.keys <==> LastIsExport(calls, k)
    }

    constructor (info: ClusterInfo, manager: GlobalServiceManager)
      ensures Valid() && calls == [] && fresh(serviceKeySet)
      ensures this.info == info && this.manager == manager
    {
      this.info, this.manager, calls := info, manager, [];
      serviceKeySet := new ObjectKeySet();
    }

    /** Exports a service that is to be exported; otherwise revokes it if this process has it exported. `slices` are
        its endpoint slices, or none when they cannot be listed. */
    method Reconcile(key: Key, fetched: ServiceFetch, slices: Option<seq<Slice>>) returns (ok: bool, ghost spec: Spec)
      requires Valid() && (slices.Some? ==> AllTargeted(slices.value))
      modifies this, serviceKeySet, manager.client`store, manager.client`namespaces
      ensures Valid()
      ensures var wanted, st := Wanted(fetched), manager.client.store;
              && (ok && wanted ==>
                    && calls == old(calls) + [Exported(key)]
                    && (fetched.service.clusterIP == CLUSTER_IP_NONE ==> slices.Some?)
                    && ExportOf(spec, fetched.service, slices.GetOr([]), info)
                    && st == Stored(old(manager.client.store), Export(key, info.name, spec)))
              && (ok && !wanted && key in old(serviceKeySet.keys) ==>
                    calls == old(calls) + [Revoked(key)]
                    && st == Stored(old(manager.client.store), Revoke(key, info.name)))
              && (ok && !wanted && key !in old(serviceKeySet.keys) ==>
                    calls == old(calls) && st == old(manager.client.store))
              && (ok && !wanted ==>
                    Specs(st)
                    == ExporterLeaves(Specs(old(manager.client.store)), key, key in old(serviceKeySet.keys), info.name))
              && (!ok ==> calls == old(calls) && st == old(manager.client.store))
              && (fetched.ServiceUnreadable? ==> !ok)
              && (manager.client.Works(key) && key.name != "" && !fetched.ServiceUnreadable? && slices.Some? ==> ok)
    {
      spec := Spec(ClusterIP, [], []);
      StoredRefinesApply(manager.client.store, Revoke(key, info.name));
      if fetched.ServiceNotFound? {
        ok := RevokeGlobalService(key);
        return;
      } else if fetched.ServiceUnreadable? {
        return false, spec;
      }
      var svc := fetched.service;
      if ShouldSkip(svc) {
        ok := RevokeGlobalService(key);
        return;
      }
      var ports: seq<Port> := [];
      for i := 0 to |svc.ports|
        invariant |ports| == i && forall j | 0 <= j < i :: ports[j] == svc.ports[j].port
      {
        ports := ports + [svc.ports[i].port];
      }
      var endpoints, serviceType;
      if svc.clusterIP == CLUSTER_IP_NONE {
        serviceType := Headless;
        if slices.None? {
          return false, spec;
        }
        var sorted, grouped;
        endpoints, sorted, grouped := GetEndpointsOfHeadlessService(slices.value, info);
        assert HeadlessEndpoints(endpoints, slices.value, info);
      } else {
        serviceType := ClusterIP;
        endpoints := [Endpoint(svc.clusterIPs, None, None, info.name, info.zone, info.region)];
      }
      var global := Spec(serviceType, ports, endpoints);
      spec := global;
      ok := manager.CreateOrMergeGlobalService(key, info.name, global);
      if ok {
        Add(key);
      }
    }

    method Add(key: Key)
      requires Valid()
      modifies this, serviceKeySet
      ensures Valid() && calls == old(calls) + [Exported(key)]
    {
      serviceKeySet.Add(key);
      calls := calls + [Exported(key)];
      assert calls[..|calls| - 1] == old(calls);
    }

    /** A service that this process has not exported is left alone. */
    method RevokeGlobalService(key: Key) returns (ok: bool)
      requires Valid()
      modifies this, serviceKeySet, manager.client`store
      ensures Valid()
      ensures ok && key in old(serviceKeySet.keys) ==>
                calls == old(calls) + [Revoked(key)]
                && manager.client.store == Stored(old(manager.client.store), Revoke(key, info.name))
      ensures ok && key !in old(serviceKeySet.keys) ==>
                calls == old(calls) && manager.client.store == old(manager.client.store)
      ensures !ok ==> calls == old(calls) && manager.client.store == old(manager.client.store)
      ensures manager.client.Works(key) && key.name != "" ==> ok
    {
      if !serviceKeySet.Has(key) {
        return true;
      }
      ok := manager.RevokeGlobalService(info.name, key);
      if ok {
        serviceKeySet.Delete(key);
        calls := calls + [Revoked(key)];
        assert calls[..|calls| - 1] == old(calls);
      }
    }
  }

  /** Revokes what this cluster exported in an earlier life and no longer has. */
  class LostServiceRevoker {
    const clusterName: string
    const manager: GlobalServiceManager

    constructor (clusterName: string, manager: GlobalServiceManager)
      ensures this.clusterName == clusterName && this.manager == manager
    {
      this.clusterName, this.manager := clusterName, manager;
    }

    /** For a service that is gone or has lost its label, a reconcile whose calls all succeed clears this cluster's
        endpoints, as one revoke would, however many of them there are. A service that still has the label is left
        alone, even if its type no longer allows an export. `clean` tells that no call failed. */
    method Reconcile(key: Key, fetched: ServiceFetch) returns (ok: bool, clean: bool)
      modifies manager.client`store
      ensures var before, after := Specs(old(manager.client.store)), Specs(manager.client.store);
              && (clean ==> after == RevokerLeaves(before, key, fetched, clusterName))
              && (after == before || after == RevokerLeaves(before, key, fetched, clusterName))
              && (manager.client.Works(key) && key.name != "" && !fetched.ServiceUnreadable? ==> clean)
    {
      var found := manager.client.Get(key);
      ghost var before := Specs(manager.client.store);
      match found {
        case NotFound =>
          return true, true;
        case Unreadable =>
          return false, false;
        case Found(gs) =>
          assert before[key] == gs.spec;
          if fetched.ServiceUnreadable? {
            return false, false;
          }
          if fetched.ServiceFound? && IsGlobalService(fetched.service.labels) {
            return true, true;
          }
          clean := RevokeIfNecessary(key, gs.spec.endpoints);
          ok := true;
      }
    }

    /** One revoke per endpoint of this cluster. */
    method RevokeIfNecessary(key: Key, endpoints: seq<Endpoint>) returns (clean: bool)
      requires EndpointsOf(Specs(manager.client.store), key) == endpoints
      modifies manager.client`store
      ensures var before, after := Specs(old(manager.client.store)), Specs(manager.client.store);
              var revoked := if Only(endpoints, clusterName) == [] then before
                             else Apply(before, Revoke(key, clusterName));
              && (after == before || after == revoked)
              && (clean ==> after == revoked)
              && (manager.client.Works(key) && key.name != "" ==> clean)
    {
      clean := true;
      ghost var before := Specs(manager.client.store);
      ghost var after := Apply(before, Revoke(key, clusterName));
      RevokeIdempotent(before, key, clusterName);
      for i := 0 to |endpoints|
        invariant Specs(manager.client.store) == before || Specs(manager.client.store) == after
        invariant Only(endpoints[..i], clusterName) == [] ==> Specs(manager.client.store) == before
        invariant manager.client.Works(key) && key.name != "" ==> clean
        invariant clean && Only(endpoints[..i], clusterName) != [] ==> Specs(manager.client.store) == after
      {
        assert endpoints[..i + 1] == endpoints[..i] + [endpoints[i]];
        OnlyAppend(endpoints[..i], [endpoints[i]], clusterName);
        if endpoints[i].cluster == clusterName {
          StoredRefinesApply(manager.client.store, Revoke(key, clusterName));
          var revoked := manager.RevokeGlobalService(clusterName, key);
          clean := clean && revoked;
        }
      }
      assert endpoints[..|endpoints|] == endpoints;
    }
  }
}
