/** The request handlers of the API server: each changes the cluster store and the stored services. */
module ApiServers {
  import opened Model
  import opened Registry
  import opened ObjectStore
  import opened Manager
  import opened Leases
  import opened ClusterStores

  datatype Status = Ok | NoContent | BadRequest | InternalServerError

  /** The service in an upload: `clusterName` is part of its metadata and need not agree with the header. */
  datatype Upload = Upload(key: Key, clusterName: string, spec: Spec)

  datatype Body = Unreadable | Malformed | Decoded(upload: Upload)

  predicate Acceptable(u: Upload) {
    u.key.name != "" && u.key.namespace != "" && u.spec.ports != [] && u.spec.endpoints != []
  }

  /** The store as clients may see it: metadata reduced to name, namespace and version. */
  function Stripped(st: Store): Store {
    st.(objects := map k | k in st.objects :: st.objects[k].(labels := map[]))
  }

  lemma StrippedLists(st: Store, listed: seq<Item>, items: seq<Item>)
    requires Lists(st, listed) && |items| == |listed|
    requires forall j | 0 <= j < |items| :: items[j] == Item(listed[j].key, listed[j].content.(labels := map[]))
    ensures Lists(Stripped(st), items)
  {
    forall k | k in Stripped(st).objects ensures exists i :: 0 <= i < |items| && items[i].key == k {
      var i :| 0 <= i < |listed| && listed[i].key == k;
      assert items[i].key == k;
    }
  }

  class Server {
    const store: ClusterStore
    const manager: GlobalServiceManager
    const clock: Clock
    const clusterExpireDuration: nat

    constructor (store: ClusterStore, manager: GlobalServiceManager, clock: Clock, duration: nat)
      ensures this.store == store && this.manager == manager && this.clock == clock
      ensures clusterExpireDuration == duration
    {
      this.store, this.manager, this.clock, clusterExpireDuration := store, manager, clock, duration;
    }

    method UpdateClusterExpireTime(header: string)
      requires store.Valid()
      modifies clock, store, store.members
      ensures store.Valid() && fresh(store.members - old(store.members))
      ensures clock.now >= old(clock.now)
      ensures store.table == Touched(old(store.table), header, clock.now + clusterExpireDuration)
    {
      if header != "" {
        var now := clock.Now();
        store.Renew(header, now + clusterExpireDuration);
      }
    }

    method Heartbeat(header: string) returns (status: Status)
      requires store.Valid()
      modifies clock, store, store.members
      ensures status == NoContent
      ensures store.Valid() && fresh(store.members - old(store.members))
      ensures clock.now >= old(clock.now)
      ensures store.table == Touched(old(store.table), header, clock.now + clusterExpireDuration)
    {
      UpdateClusterExpireTime(header);
      status := NoContent;
    }

    /** An acceptable upload is tracked under the header's cluster even when the merge fails. */
    method UploadGlobalService(header: string, body: Body) returns (status: Status)
      requires store.Valid()
      modifies clock, store, store.members, manager.client`store, manager.client`namespaces
      ensures store.Valid() && fresh(store.members - old(store.members))
      ensures clock.now >= old(clock.now)
      ensures var touched := Touched(old(store.table), header, clock.now + clusterExpireDuration);
              store.table == if body.Decoded? && Acceptable(body.upload) then Tracked(touched, header, body.upload.key)
                             else touched
      ensures status == NoContent ==>
                && body.Decoded? && Acceptable(body.upload)
                && manager.client.store
                   == Stored(old(manager.client.store),
                             Export(body.upload.key, body.upload.clusterName, body.upload.spec))
      ensures status != NoContent ==> manager.client.store == old(manager.client.store)
      ensures body.Decoded? && Acceptable(body.upload) && manager.client.Works(body.upload.key) ==> status == NoContent
      ensures status == BadRequest <==> body.Malformed? || (body.Decoded? && !Acceptable(body.upload))
      ensures status == InternalServerError ==> body.Unreadable? || (body.Decoded? && Acceptable(body.upload))
      ensures status in {NoContent, BadRequest, InternalServerError}
    {
      UpdateClusterExpireTime(header);
      match body {
        case Unreadable => return InternalServerError;
        case Malformed => return BadRequest;
        case Decoded(gs) =>
          if !Acceptable(gs) {
            return BadRequest;
          }
          var ok := manager.CreateOrMergeGlobalService(gs.key, gs.clusterName, gs.spec);
          status := if ok then NoContent else InternalServerError;
          store.Track(header, gs.key);
      }
    }

    /** A key stops being tracked only once its revoke has succeeded. */
    method DeleteEndpoints(header: string, key: Key) returns (status: Status)
      requires store.Valid()
      modifies clock, store, store.members, manager.client`store
      ensures store.Valid() && fresh(store.members - old(store.members))
      ensures clock.now >= old(clock.now)
      ensures var touched := Touched(old(store.table), header, clock.now + clusterExpireDuration);
              store.table == if status == NoContent then Untracked(touched, header, key) else touched
      ensures status == NoContent ==> manager.client.store == Stored(old(manager.client.store), Revoke(key, header))
      ensures status != NoContent ==> manager.client.store == old(manager.client.store)
      ensures manager.client.Works(key) && key.name != "" ==> status == NoContent
      ensures status in {NoContent, InternalServerError}
    {
      UpdateClusterExpireTime(header);
      var ok := manager.RevokeGlobalService(header, key);
      if ok {
        store.Untrack(header, key);
        status := NoContent;
      } else {
        status := InternalServerError;
      }
    }

    /** Answers with every stored service, once, with its current version and specification. */
    method GetAllGlobalServices(header: string) returns (status: Status, items: seq<Item>)
      requires store.Valid()
      modifies clock, store, store.members
      ensures store.Valid() && fresh(store.members - old(store.members))
      ensures clock.now >= old(clock.now)
      ensures store.table == Touched(old(store.table), header, clock.now + clusterExpireDuration)
      ensures manager.client.healthy ==> status == Ok
      ensures status == Ok || (status == InternalServerError && items == [])
      ensures status == Ok ==> Lists(Stripped(manager.client.store), items)
      ensures forall it | it in items ::
                && it.key in manager.client.store.objects
                && it.content == Object(map[], manager.client.store.objects[it.key].version,
                                        manager.client.store.objects[it.key].spec)
    {
      UpdateClusterExpireTime(header);
      var ok;
      ok, items := manager.client.List();
      if !ok {
        return InternalServerError, [];
      }
      ghost var listed := items;
      for i := 0 to |items|
        invariant |items| == |listed|
        invariant forall j | 0 <= j < i :: items[j] == Item(listed[j].key, listed[j].content.(labels := map[]))
        invariant forall j | i <= j < |items| :: items[j] == listed[j]
      {
        var svc := items[i];
        items := items[i := Item(svc.key, Object(map[], svc.content.version, svc.content.spec))];
      }
      StrippedLists(manager.client.store, listed, items);
      status := Ok;
    }
  }
}
