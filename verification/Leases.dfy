/** Per-cluster leases: which keys a cluster has uploaded and when it expires. */
module Leases {
  import opened Model

  /** A deadline of 0 is the zero time: no deadline has been set. */
  datatype Lease = Lease(keys: set<Key>, deadline: nat)

  type Table = map<string, Lease>

  predicate Expired(lease: Lease, now: nat) {
    lease.deadline != 0 && lease.deadline < now
  }

  /** The table once `c` has an entry. */
  function Known(table: Table, c: string): Table {
    if c in table then table else table[c := Lease({}, 0)]
  }

  function WithDeadline(table: Table, c: string, deadline: nat): Table {
    var known := Known(table, c);
    known[c := known[c].(deadline := deadline)]
  }

  /** Every request renews the lease of the cluster named in its header, if any. */
  function Touched(table: Table, header: string, deadline: nat): Table {
    if header == "" then table else WithDeadline(table, header, deadline)
  }

  function Tracked(table: Table, c: string, key: Key): Table {
    var known := Known(table, c);
    known[c := known[c].(keys := known[c].keys + {key})]
  }

  function Untracked(table: Table, c: string, key: Key): Table {
    if c in table then table[c := table[c].(keys := table[c].keys - {key})] else table
  }

  /** A request without a header changes nothing. Any other sets its own cluster's deadline; all keys stay tracked. */
  lemma RenewalMeaning(table: Table, header: string, deadline: nat, c: string)
    ensures var after := Touched(table, header, deadline);
            && (c in after <==> c in table || (header != "" && c == header))
            && (c in table ==> after[c].keys == table[c].keys)
            && (c in after && c !in table ==> after[c].keys == {})
            && (c in table && (c != header || header == "") ==> after[c].deadline == table[c].deadline)
            && (c in after && c == header != "" ==> after[c].deadline == deadline)
  {
  }

  /** Tracking a key adds it to its own cluster's keys; no deadline changes, and a new cluster has none. */
  lemma TrackingMeaning(table: Table, owner: string, key: Key, c: string, k: Key)
    ensures var after := Tracked(table, owner, key);
            && (c in after <==> c in table || c == owner)
            && (c in after ==> (k in after[c].keys <==> (c in table && k in table[c].keys) || (c == owner && k == key)))
            && (c in table ==> after[c].deadline == table[c].deadline)
            && (c in after && c !in table ==> after[c].deadline == 0)
  {
  }

  /** Untracking a key takes it from its own cluster's keys; no cluster comes or goes and no deadline changes. */
  lemma UntrackingMeaning(table: Table, owner: string, key: Key, c: string, k: Key)
    ensures var after := Untracked(table, owner, key);
            && (c in after <==> c in table)
            && (c in table ==> after[c].deadline == table[c].deadline)
            && (c in table ==> (k in after[c].keys <==> k in table[c].keys && !(c == owner && k == key)))
  {
  }
}

module ClusterStores {
  import opened Model
  import opened Leases

  /** A clock that never runs backwards. It may advance at every reading. */
  class Clock {
    var now: nat

    constructor (start: nat)
      requires start > 0
      ensures now == start
    {
      now := start;
    }

    method Now() returns (t: nat)
      modifies this
      ensures now >= old(now) && t == now
    {
      var elapsed :| elapsed >= 0;
      now := now + elapsed;
      t := now;
    }
  }

  class Cluster {
    const name: string
    var serviceKeySet: set<Key>
    var expireTime: nat

    constructor (name: string)
      ensures this.name == name && AsLease() == Lease({}, 0)
    {
      this.name := name;
      serviceKeySet := {};
      expireTime := 0;
    }

    function AsLease(): Lease
      reads this
    {
      Lease(serviceKeySet, expireTime)
    }

    method SetExpireTime(t: nat)
      modifies `expireTime
      ensures expireTime == t
    {
      expireTime := t;
    }

    method IsExpired(clock: Clock) returns (expired: bool)
      modifies clock
      ensures clock.now >= old(clock.now)
      ensures expired <==> Expired(AsLease(), clock.now)
    {
      var now := clock.Now();
      expired := expireTime != 0 && expireTime < now;
    }

    method AddServiceKey(key: Key)
      modifies `serviceKeySet
      ensures serviceKeySet == old(serviceKeySet) + {key}
    {
      serviceKeySet := serviceKeySet + {key};
    }

    method RemoveServiceKey(key: Key)
      modifies `serviceKeySet
      ensures serviceKeySet == old(serviceKeySet) - {key}
    {
      serviceKeySet := serviceKeySet - {key};
    }

    /** Lists the keys once each, in any order. */
    method GetAllServiceKeys() returns (keys: seq<Key>)
      ensures forall k :: k in keys <==> k in serviceKeySet
      ensures forall i, j | 0 <= i < j < |keys| :: keys[i] != keys[j]
    {
      keys := [];
      var rest := serviceKeySet;
      while rest != {}
        invariant rest <= serviceKeySet
        invariant forall k :: k in keys <==> k in serviceKeySet - rest
        invariant forall i, j | 0 <= i < j < |keys| :: keys[i] != keys[j]
        decreases rest
      {
        var k :| k in rest;
        assert k !in keys;
        keys := keys + [k];
        rest := rest - {k};
      }
    }
  }

  class ClusterStore {
    var clusters: map<string, Cluster>
    ghost var members: set<Cluster>
    ghost var table: Table  // what the clusters record, as a value

    /** Every cluster is filed under its own name; `table` says what they record. */
    ghost predicate Valid()
      reads this, members
    {
      && (forall n | n in clusters :: clusters[n] in members && clusters[n].name == n)
      && table.Keys == clusters.Keys
      && (forall n | n in clusters :: table[n] == clusters[n].AsLease())
    }

    constructor ()
      ensures Valid() && clusters == map[] && members == {} && table == map[]
    {
      clusters, members, table := map[], {}, map[];
    }

    function Get(name: string): (c: Cluster?)
      reads this
      ensures c == null <==> name !in clusters
      ensures c != null ==> c == clusters[name]
    {
      if name in clusters then clusters[name] else null
    }

    /** Only one cluster is ever created for a name. */
    method New(name: string) returns (c: Cluster)
      requires Valid()
      modifies this
      ensures Valid() && table == Known(old(table), name)
      ensures clusters == old(clusters)[name := c]
      ensures name in old(clusters) ==> c == old(clusters[name])
      ensures name !in old(clusters) ==> fresh(c)
      ensures fresh(members - old(members))
    {
      if name !in clusters {
        c := new Cluster(name);
        clusters, members, table := clusters[name := c], members + {c}, Known(table, name);
      }
      c := clusters[name];
    }

    method SetDeadlineOf(c: Cluster, deadline: nat)
      requires Valid() && c.name in clusters && clusters[c.name] == c
      modifies c`expireTime, `table
      ensures Valid() && table == WithDeadline(old(table), c.name, deadline)
    {
      c.SetExpireTime(deadline);
      table := WithDeadline(table, c.name, deadline);
    }

    method AddKeyTo(c: Cluster, key: Key)
      requires Valid() && c.name in clusters && clusters[c.name] == c
      modifies c`serviceKeySet, `table
      ensures Valid() && table == Tracked(old(table), c.name, key)
    {
      c.AddServiceKey(key);
      table := Tracked(table, c.name, key);
    }

    /** Records a deadline for `name`, creating its entry if it has none. */
    method Renew(name: string, deadline: nat)
      requires Valid()
      modifies this, members
      ensures Valid() && table == WithDeadline(old(table), name, deadline)
      ensures fresh(members - old(members))
    {
      var c := New(name);
      assert clusters[name] == c;
      SetDeadlineOf(c, deadline);
    }

    /** Adds a key to those of `name`, creating its entry if it has none. */
    method Track(name: string, key: Key)
      requires Valid()
      modifies this, members
      ensures Valid() && table == Tracked(old(table), name, key)
      ensures fresh(members - old(members))
    {
      var c := New(name);
      assert clusters[name] == c;
      AddKeyTo(c, key);
    }

    /** Removes a key from those of `name`, if it has an entry. */
    method Untrack(name: string, key: Key)
      requires Valid()
      modifies `table, members
      ensures Valid() && clusters == old(clusters) && table == Untracked(old(table), name, key)
    {
      var c := Get(name);
      if c != null {
        c.RemoveServiceKey(key);
        table := Untracked(table, name, key);
      }
    }

    /** Asks every cluster in turn, in any order, while the clock runs on. */
    method GetExpiredClusters(clock: Clock) returns (expired: seq<Cluster>)
      requires Valid()
      modifies clock
      ensures clock.now >= old(clock.now)
      ensures forall c | c in expired :: c.name in clusters && clusters[c.name] == c
      ensures forall c | c in expired :: Expired(table[c.name], clock.now)
      ensures forall n | n in clusters && Expired(table[n], old(clock.now)) :: clusters[n] in expired
    {
      expired := [];
      var rest := clusters.Keys;
      while rest != {}
        invariant rest <= clusters.Keys
        invariant clock.now >= old(clock.now)
        invariant forall c | c in expired :: c.name in clusters && clusters[c.name] == c
        invariant forall c | c in expired :: Expired(table[c.name], clock.now)
        invariant forall n | n in clusters && n !in rest && Expired(table[n], old(clock.now)) :: clusters[n] in expired
        decreases rest
      {
        var n :| n in rest;
        var late := clusters[n].IsExpired(clock);
        if late {
          expired := expired + [clusters[n]];
        }
        rest := rest - {n};
      }
    }
  }
}
