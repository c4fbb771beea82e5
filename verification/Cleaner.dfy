/** The cleaner: revoking everything that the expired clusters have exported. */
module Cleaner {
  import opened Model
  import opened Endpoints
  import opened Registry
  import opened ObjectStore
  import opened Manager
  import opened Leases
  import opened ClusterStores

  type Revokes = set<(string, Key)>

  /** The clusters that `done` takes out of `key`. */
  function ClearedAt(done: Revokes, key: Key): set<string> {
    set p | p in done && p.1 == key :: p.0
  }

  /** What a set of revokes leaves, in whatever order they are made: the named clusters' endpoints are gone from the
      services they name, and a service that is named and has no other endpoint is gone too. */
  function Purged(reg: Services, done: Revokes): Services {
    map k | k in reg && (ClearedAt(done, k) == {} || Outside(reg[k].endpoints, ClearedAt(done, k)) != [])
      :: reg[k].(endpoints := Outside(reg[k].endpoints, ClearedAt(done, k)))
  }

  lemma PurgedNothing(reg: Services)
    ensures Purged(reg, {}) == reg
  {
    forall k | k in reg ensures Outside(reg[k].endpoints, ClearedAt({}, k)) == reg[k].endpoints {
      assert ClearedAt({}, k) == {};
      OutsideNothing(reg[k].endpoints);
    }
  }

  lemma ClearedStep(done: Revokes, c: string, key: Key, k: Key)
    ensures ClearedAt(done + {(c, key)}, k) == if k == key then ClearedAt(done, k) + {c} else ClearedAt(done, k)
  {
    var more := done + {(c, key)};
    forall d | d in ClearedAt(done, k) ensures d in ClearedAt(more, k) {
      assert (d, k) in more;
    }
    if k == key {
      assert (c, k) in more;
    }
  }

  lemma PurgeOneKey(reg: Services, done: Revokes, more: Revokes, c: string, key: Key)
    requires ClearedAt(more, key) == ClearedAt(done, key) + {c}
    ensures var after := Apply(Purged(reg, done), Revoke(key, c));
            (key in after <==> key in Purged(reg, more)) && (key in after ==> after[key] == Purged(reg, more)[key])
  {
    if key in reg {
      OutsideTwice(reg[key].endpoints, ClearedAt(done, key), {c});
      assert Outside([], {c}) == [];
    }
  }

  lemma PurgeOtherKey(reg: Services, done: Revokes, more: Revokes, c: string, key: Key, k: Key)
    requires k != key && ClearedAt(more, k) == ClearedAt(done, k)
    ensures var after := Apply(Purged(reg, done), Revoke(key, c));
            (k in after <==> k in Purged(reg, more)) && (k in after ==> after[k] == Purged(reg, more)[k])
  {
    assert k in Apply(Purged(reg, done), Revoke(key, c)) <==> k in Purged(reg, done);
  }

  lemma SameServices(a: Services, b: Services)
    requires forall k :: (k in a <==> k in b) && (k in a ==> a[k] == b[k])
    ensures a == b
  {
  }

  /** One more revoke adds one more pair, so the order of the revokes is immaterial. */
  lemma PurgeStep(reg: Services, done: Revokes, c: string, key: Key)
    ensures Apply(Purged(reg, done), Revoke(key, c)) == Purged(reg, done + {(c, key)})
  {
    var more := done + {(c, key)};
    var a, b := Apply(Purged(reg, done), Revoke(key, c)), Purged(reg, more);
    forall k ensures (k in a <==> k in b) && (k in a ==> a[k] == b[k]) {
      ClearedStep(done, c, key, k);
      if k == key {
        PurgeOneKey(reg, done, more, c, key);
      } else {
        PurgeOtherKey(reg, done, more, c, key, k);
      }
    }
    SameServices(a, b);
  }

  function AllRevokes(table: Table, swept: set<string>): Revokes {
    set c, k | c in swept && c in table && k in table[c].keys :: (c, k)
  }

  ghost predicate Due(table: Table, swept: set<string>, done: Revokes) {
    forall p | p in done :: p.0 in swept && p.0 in table && p.1 in table[p.0].keys
  }

  ghost predicate NoneLeft(table: Table, swept: set<string>, done: Revokes) {
    forall c, k | c in swept && c in table && k in table[c].keys :: (c, k) in done
  }

  lemma DueIsAll(table: Table, swept: set<string>, done: Revokes)
    requires Due(table, swept, done)
    ensures done <= AllRevokes(table, swept)
    ensures NoneLeft(table, swept, done) ==> done == AllRevokes(table, swept)
  {
  }

  /** The revokes of the keys in `sure` have all been made. */
  ghost predicate SureDone(table: Table, swept: set<string>, done: Revokes, sure: iset<Key>) {
    forall c, k | c in swept && c in table && k in table[c].keys && k in sure :: (c, k) in done
  }

  ghost predicate AllSure(table: Table, swept: set<string>, sure: iset<Key>) {
    forall c, k | c in swept && c in table && k in table[c].keys :: k in sure
  }

  lemma SureIsAll(table: Table, swept: set<string>, done: Revokes, sure: iset<Key>)
    requires SureDone(table, swept, done, sure)
    ensures forall p | p in AllRevokes(table, swept) && p.1 in sure :: p in done
    ensures (forall p | p in AllRevokes(table, swept) :: p.1 in sure) ==> AllSure(table, swept, sure)
  {
    if forall p | p in AllRevokes(table, swept) :: p.1 in sure {
      forall c, k | c in swept && c in table && k in table[c].keys ensures k in sure {
        assert (c, k) in AllRevokes(table, swept);
      }
    }
  }

  /** Cleaning one more cluster. */
  lemma DueNext(table: Table, swept: set<string>, name: string, before: Revokes, done: Revokes, sure: iset<Key>)
    requires name in table && Due(table, swept, before) && before <= done && SureDone(table, swept, before, sure)
    requires forall p | p in done :: p in before || (p.0 == name && p.1 in table[name].keys)
    requires forall k | k in table[name].keys && k in sure :: (name, k) in done
    ensures Due(table, swept + {name}, done) && SureDone(table, swept + {name}, done, sure)
    ensures NoneLeft(table, swept, before) && (forall k | k in table[name].keys :: (name, k) in done)
        ==> NoneLeft(table, swept + {name}, done)
    ensures AllSure(table, swept + {name}, sure)
        ==> AllSure(table, swept, sure) && forall k | k in table[name].keys :: k in sure
  {
  }

  /** Every endpoint of the clusters `cs` is covered by its cluster's keys. */
  ghost predicate Covers(table: Table, reg: Services, cs: set<string>) {
    forall k, e | k in reg && e in reg[k].endpoints && e.cluster in cs ::
      e.cluster in table && k in table[e.cluster].keys
  }

  /** The service `k` has lost the swept clusters' endpoints and nothing else; it is gone exactly when that leaves it
      empty and one of these clusters tracked it. */
  ghost predicate Cleaned(table: Table, before: Services, after: Services, swept: set<string>, k: Key) {
    && EndpointsOf(after, k) == Outside(EndpointsOf(before, k), swept)
    && (k in after <==> k in before && (Outside(before[k].endpoints, swept) != []
                                        || forall c | c in swept && c in table :: k !in table[c].keys))
    && (k in after ==> after[k] == before[k].(endpoints := Outside(before[k].endpoints, swept)))
  }

  /** Expiry is complete and exact: if the swept clusters' endpoints are all covered, revoking all their keys removes
      all of their endpoints, leaves the rest in order, and deletes exactly the tracked services with nothing left. */
  lemma ExpiryExact(table: Table, reg: Services, swept: set<string>, k: Key)
    requires Covers(table, reg, swept)
    ensures Cleaned(table, reg, Purged(reg, AllRevokes(table, swept)), swept, k)
  {
    var done := AllRevokes(table, swept);
    var cleared := ClearedAt(done, k);
    assert forall c :: c in cleared <==> (c, k) in done;
    if k in reg {
      var es := reg[k].endpoints;
      var rest := Outside(es, cleared);
      forall e | e in rest ensures e.cluster !in swept {
        OutsideMembers(es, cleared);
      }
      OutsideAbsent(rest, swept);
      OutsideTwice(es, cleared, swept);
      assert cleared + swept == swept;
    }
  }

  /** Coverage is also necessary: an endpoint that its expired cluster does not track is never removed. */
  lemma ExpiryExactIffCovered(table: Table, reg: Services, swept: set<string>)
    ensures Covers(table, reg, swept)
       <==> forall k :: EndpointsOf(Purged(reg, AllRevokes(table, swept)), k) == Outside(EndpointsOf(reg, k), swept)
  {
    var after := Purged(reg, AllRevokes(table, swept));
    if Covers(table, reg, swept) {
      forall k ensures EndpointsOf(after, k) == Outside(EndpointsOf(reg, k), swept) {
        ExpiryExact(table, reg, swept, k);
      }
    } else {
      var k, e :| k in reg && e in reg[k].endpoints && e.cluster in swept
                  && (e.cluster !in table || k !in table[e.cluster].keys);
      UntrackedStays(table, reg, swept, k, e);
    }
  }

  lemma UntrackedStays(table: Table, reg: Services, swept: set<string>, k: Key, e: Endpoint)
    requires k in reg && e in reg[k].endpoints && e.cluster in swept
    requires e.cluster !in table || k !in table[e.cluster].keys
    ensures e in EndpointsOf(Purged(reg, AllRevokes(table, swept)), k) && e !in Outside(reg[k].endpoints, swept)
  {
    OutsideMembers(reg[k].endpoints, ClearedAt(AllRevokes(table, swept), k));
    OutsideMembers(reg[k].endpoints, swept);
  }

  class ClusterCleaner {
    const store: ClusterStore
    const manager: GlobalServiceManager
    const clock: Clock

    constructor (store: ClusterStore, manager: GlobalServiceManager, clock: Clock)
      ensures this.store == store && this.manager == manager && this.clock == clock
    {
      this.store, this.manager, this.clock := store, manager, clock;
    }

    /** A revoke of this key does not fail. */
    predicate Sure(key: Key)
      reads manager.client
    {
      key.name != "" && manager.client.Works(key)
    }

    /** One pass. `swept` are the clusters it finds expired: all that were expired at its start, and none that was not
        expired by its end. `done` are the revokes that succeeded; the pass is complete when all did. A revoke that
        fails keeps no other from being tried. The keys themselves stay tracked. */
    method CleanExpiredClusterEndpoints() returns (complete: bool, ghost swept: set<string>, ghost done: Revokes)
      requires store.Valid()
      modifies clock, manager.client`store
      ensures store.Valid() && clock.now >= old(clock.now)
      ensures forall n | n in swept :: n in store.table && Expired(store.table[n], clock.now)
      ensures forall n | n in store.table && Expired(store.table[n], old(clock.now)) :: n in swept
      ensures done <= AllRevokes(store.table, swept)
      ensures complete ==> done == AllRevokes(store.table, swept)
      ensures forall p | p in AllRevokes(store.table, swept) && Sure(p.1) :: p in done
      ensures (forall p | p in AllRevokes(store.table, swept) :: Sure(p.1)) ==> complete
      ensures Specs(manager.client.store) == Purged(Specs(old(manager.client.store)), done)
    {
      var expired := store.GetExpiredClusters(clock);
      ghost var reg, sure := Specs(manager.client.store), iset k | Sure(k);
      complete, swept, done := CleanClusters(expired, reg, sure);
      DueIsAll(store.table, swept, done);
      SureIsAll(store.table, swept, done, sure);
    }

    /** The outer loop. */
    method CleanClusters(expired: seq<Cluster>, ghost reg: Services, ghost sure: iset<Key>)
      returns (complete: bool, ghost swept: set<string>, ghost done: Revokes)
      requires store.Valid() && Specs(manager.client.store) == reg && forall k :: k in sure <==> Sure(k)
      requires forall c | c in expired ::
        c.name in store.clusters && store.clusters[c.name] == c && Expired(store.table[c.name], clock.now)
      modifies clock, manager.client`store
      ensures store.Valid() && clock.now >= old(clock.now)
      ensures forall c | c in expired :: c.name in swept
      ensures forall n | n in swept :: n in store.table && Expired(store.table[n], clock.now)
      ensures Due(store.table, swept, done) && SureDone(store.table, swept, done, sure)
      ensures complete ==> NoneLeft(store.table, swept, done)
      ensures AllSure(store.table, swept, sure) ==> complete
      ensures Specs(manager.client.store) == Purged(reg, done)
    {
      ghost var table := store.table;
      complete, swept, done := true, {}, {};
      PurgedNothing(reg);
      for i := 0 to |expired|
        invariant clock.now >= old(clock.now)
        invariant forall j | 0 <= j < i :: expired[j].name in swept
        invariant forall n | n in swept :: n in table && Expired(table[n], clock.now)
        invariant Due(table, swept, done) && SureDone(table, swept, done, sure)
        invariant complete ==> NoneLeft(table, swept, done)
        invariant AllSure(table, swept, sure) ==> complete
        invariant Specs(manager.client.store) == Purged(reg, done)
      {
        assert expired[i] in expired;
        ghost var name, before := expired[i].name, done;
        var all;
        all, done := CleanCluster(expired[i], reg, done, sure);
        DueNext(table, swept, name, before, done, sure);
        complete, swept := complete && all, swept + {name};
      }
    }

    /** The inner loop: revokes one expired cluster's keys, asking before each whether it is still expired. */
    method CleanCluster(cluster: Cluster, ghost reg: Services, ghost before: Revokes, ghost sure: iset<Key>)
      returns (all: bool, ghost done: Revokes)
      requires Expired(cluster.AsLease(), clock.now)
      requires Specs(manager.client.store) == Purged(reg, before) && forall k :: k in sure <==> Sure(k)
      modifies clock, manager.client`store
      ensures clock.now >= old(clock.now)
      ensures forall p | p in done :: p in before || (p.0 == cluster.name && p.1 in cluster.serviceKeySet)
      ensures before <= done
      ensures all ==> forall k | k in cluster.serviceKeySet :: (cluster.name, k) in done
      ensures forall k | k in cluster.serviceKeySet && k in sure :: (cluster.name, k) in done
      ensures (forall k | k in cluster.serviceKeySet :: k in sure) ==> all
      ensures Specs(manager.client.store) == Purged(reg, done)
    {
      all, done := true, before;
      var keys := cluster.GetAllServiceKeys();
      for j := 0 to |keys|
        invariant clock.now >= old(clock.now)
        invariant forall p | p in done :: p in before || (p.0 == cluster.name && p.1 in cluster.serviceKeySet)
        invariant before <= done
        invariant all ==> forall i | 0 <= i < j :: (cluster.name, keys[i]) in done
        invariant forall i | 0 <= i < j && keys[i] in sure :: (cluster.name, keys[i]) in done
        invariant (forall k | k in cluster.serviceKeySet :: k in sure) ==> all
        invariant Specs(manager.client.store) == Purged(reg, done)
      {
        var late := cluster.IsExpired(clock);
        if !late {
          break;
        }
        var ok := RevokeGlobalService(cluster.name, keys[j], reg, done);
        all, done := all && ok, if ok then done + {(cluster.name, keys[j])} else done;
      }
    }

    method RevokeGlobalService(clusterName: string, key: Key, ghost reg: Services, ghost done: Revokes)
      returns (ok: bool)
      requires Specs(manager.client.store) == Purged(reg, done)
      modifies manager.client`store
      ensures Sure(key) ==> ok
      ensures Specs(manager.client.store) == Purged(reg, if ok then done + {(clusterName, key)} else done)
    {
      StoredRefinesApply(manager.client.store, Revoke(key, clusterName));
      PurgeStep(reg, done, clusterName, key);
      ok := manager.RevokeGlobalService(clusterName, key);
    }
  }
}
