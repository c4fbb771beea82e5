/** Restart recovery: rebuilding the cluster store from the stored services. */
module Recovery {
  import opened Model
  import opened Leases
  import opened ClusterStores
  import opened ObjectStore
  import Cleaner

  /** An endpoint of `cluster` occurs in the service `key`. */
  datatype Mention = Mention(cluster: string, key: Key)

  function MentionsIn(endpoints: seq<Endpoint>, key: Key): seq<Mention> {
    if endpoints == [] then []
    else MentionsIn(endpoints[..|endpoints| - 1], key) + [Mention(endpoints[|endpoints| - 1].cluster, key)]
  }

  /** The mentions of all listed services, in the order in which the loops meet them. */
  function Mentions(items: seq<Item>): seq<Mention> {
    if items == [] then []
    else
      var last := items[|items| - 1];
      Mentions(items[..|items| - 1]) + MentionsIn(last.content.spec.endpoints, last.key)
  }

  /** The key of the first mention of cluster `c`. */
  function FirstKey(ms: seq<Mention>, c: string): Option<Key> {
    if ms == [] then None
    else
      var before := FirstKey(ms[..|ms| - 1], c);
      if before.Some? then before
      else if ms[|ms| - 1].cluster == c then Some(ms[|ms| - 1].key) else None
  }

  lemma {:induction false} FirstKeySome(ms: seq<Mention>, c: string)
    ensures FirstKey(ms, c).Some? <==> exists m :: m in ms && m.cluster == c
    ensures FirstKey(ms, c).Some? ==> Mention(c, FirstKey(ms, c).value) in ms
  {
    if ms != [] {
      var rest, last := ms[..|ms| - 1], ms[|ms| - 1];
      assert ms == rest + [last];
      FirstKeySome(rest, c);
    }
  }

  /** The table after recovering the mentions `ms` on top of `base`: known clusters are left alone, and every other
      foreign cluster mentioned gets one lease, holding just the key of its first mention, with a deadline computed
      from some clock reading in the interval. */
  ghost predicate Recovered(
    base: Table, table: Table, ms: seq<Mention>, own: string, duration: nat, from: nat, to: nat) {
    && (forall c | c in base :: c in table && table[c] == base[c])
    && (forall c | c !in base :: c in table <==> c != own && exists m :: m in ms && m.cluster == c)
    && (forall c | c in table && c !in base ::
          && FirstKey(ms, c).Some? && table[c].keys == {FirstKey(ms, c).value}
          && from + duration <= table[c].deadline <= to + duration)
  }

  lemma RecoveredNothing(base: Table, own: string, duration: nat, from: nat, to: nat)
    ensures Recovered(base, base, [], own, duration, from, to)
  {
  }

  lemma RecoveredNext(
    base: Table, table: Table, ms: seq<Mention>, m: Mention, own: string, duration: nat, from: nat, to: nat, now: nat)
    requires Recovered(base, table, ms, own, duration, from, to) && from <= to <= now
    ensures Recovered(base,
                      if m.cluster == own || m.cluster in table then table
                      else table[m.cluster := Lease({m.key}, now + duration)], ms + [m], own, duration, from, now)
  {
    var more := ms + [m];
    assert more[..|more| - 1] == ms && more[|more| - 1] == m;
    forall c
      ensures FirstKey(more, c) == if FirstKey(ms, c).Some? then FirstKey(ms, c)
                                   else if m.cluster == c then Some(m.key) else None
      ensures FirstKey(ms, c).Some? <==> exists x :: x in ms && x.cluster == c
      ensures FirstKey(more, c).Some? <==> exists x :: x in more && x.cluster == c
    {
      FirstKeySome(ms, c);
      FirstKeySome(more, c);
    }
  }

  /** All keys of a cluster's services are tracked. */
  ghost predicate TracksAll(table: Table, ms: seq<Mention>, own: string) {
    forall m | m in ms && m.cluster != own :: m.cluster in table && m.key in table[m.cluster].keys
  }

  /** As written, recovery adds a key only when its cluster is first met. So it tracks everything exactly when the
      clusters known beforehand have their keys already, and no other foreign cluster occurs in two services. */
  lemma RecoveryTracksAllIff(
    base: Table, table: Table, ms: seq<Mention>, own: string, duration: nat, from: nat, to: nat)
    requires Recovered(base, table, ms, own, duration, from, to)
    ensures TracksAll(table, ms, own)
       <==> && (forall m | m in ms && m.cluster != own && m.cluster in base :: m.key in base[m.cluster].keys)
            && (forall m, n | m in ms && n in ms && m.cluster == n.cluster != own && m.cluster !in base ::
                  m.key == n.key)
  {
    forall c { FirstKeySome(ms, c); }
    if forall m, n | m in ms && n in ms && m.cluster == n.cluster != own && m.cluster !in base :: m.key == n.key {
      forall m | m in ms && m.cluster != own && m.cluster !in base
        ensures m.cluster in table && m.key in table[m.cluster].keys
      {
        assert Mention(m.cluster, FirstKey(ms, m.cluster).value) in ms;
      }
    }
  }

  /** A cluster that occurs in two services keeps only the first one's key. */
  lemma SecondServiceIsMissed(c: string, first: Key, second: Key, own: string, duration: nat, now: nat)
    requires c != own && first != second
    ensures var table, ms := map[c := Lease({first}, now + duration)], [Mention(c, first), Mention(c, second)];
            Recovered(map[], table, ms, own, duration, now, now) && !TracksAll(table, ms, own)
  {
    var table, ms := map[c := Lease({first}, now + duration)], [Mention(c, first), Mention(c, second)];
    RecoveredNothing(map[], own, duration, now, now);
    RecoveredNext(map[], map[], [], ms[0], own, duration, now, now, now);
    assert [] + [ms[0]] == [ms[0]];
    RecoveredNext(map[], table, [ms[0]], ms[1], own, duration, now, now, now);
    assert [ms[0]] + [ms[1]] == ms;
    assert ms[1] in ms;
  }

  /** The recovery runs beside the API server. A heartbeat that comes first makes its cluster known, without a key, and
      then not even the cluster's only service is tracked. */
  lemma EarlyHeartbeatIsMissed(c: string, key: Key, own: string, deadline: nat, duration: nat, now: nat)
    requires c != own
    ensures var table, ms := WithDeadline(map[], c, deadline), [Mention(c, key)];
            Recovered(table, table, ms, own, duration, now, now) && !TracksAll(table, ms, own)
  {
    var table, m := WithDeadline(map[], c, deadline), Mention(c, key);
    RecoveredNothing(table, own, duration, now, now);
    RecoveredNext(table, table, [], m, own, duration, now, now, now);
    assert [] + [m] == [m] && m in [m];
  }

  /** With the key added for every endpoint, whether or not its cluster is already known, everything is tracked. */
  function AddEveryKey(table: Table, ms: seq<Mention>, own: string, deadline: nat): Table {
    if ms == [] then table
    else
      var m := ms[|ms| - 1];
      var before := AddEveryKey(table, ms[..|ms| - 1], own, deadline);
      if m.cluster == own then before
      else Tracked(if m.cluster in before then before else WithDeadline(before, m.cluster, deadline), m.cluster, m.key)
  }

  lemma {:induction false} AddEveryKeyTracksAll(table: Table, ms: seq<Mention>, own: string, deadline: nat)
    ensures TracksAll(AddEveryKey(table, ms, own, deadline), ms, own)
  {
    if ms != [] {
      var rest := ms[..|ms| - 1];
      assert ms == rest + [ms[|ms| - 1]];
      AddEveryKeyTracksAll(table, rest, own, deadline);
    }
  }

  /** Tracking every mention is what the cleaner needs: every endpoint of the foreign clusters is covered. */
  lemma TracksAllCovers(table: Table, st: Store, items: seq<Item>, own: string, cs: set<string>)
    requires Lists(st, items) && TracksAll(table, Mentions(items), own) && own !in cs
    ensures Cleaner.Covers(table, Specs(st), cs)
  {
    forall k, e | k in Specs(st) && e in Specs(st)[k].endpoints && e.cluster in cs
      ensures e.cluster in table && k in table[e.cluster].keys
    {
      var i :| 0 <= i < |items| && items[i].key == k;
      MentionsHave(items, i, e);
    }
  }

  /** Nothing is mentioned that no listed service has. */
  lemma {:induction false} MentionsHaveOnly(items: seq<Item>, m: Mention)
    requires m in Mentions(items)
    ensures exists i, e :: 0 <= i < |items| && items[i].key == m.key && e in items[i].content.spec.endpoints
                           && e.cluster == m.cluster
  {
    var last := items[|items| - 1];
    var rest := items[..|items| - 1];
    if m in Mentions(rest) {
      MentionsHaveOnly(rest, m);
      var i, e :| 0 <= i < |rest| && rest[i].key == m.key && e in rest[i].content.spec.endpoints
                  && e.cluster == m.cluster;
      assert items[i] == rest[i];
    } else {
      MentionsInHaveOnly(last.content.spec.endpoints, last.key, m);
    }
  }

  lemma {:induction false} MentionsInHaveOnly(endpoints: seq<Endpoint>, key: Key, m: Mention)
    requires m in MentionsIn(endpoints, key)
    ensures m.key == key && exists e :: e in endpoints && e.cluster == m.cluster
  {
    var rest := endpoints[..|endpoints| - 1];
    assert endpoints == rest + [endpoints[|endpoints| - 1]];
    if m in MentionsIn(rest, key) {
      MentionsInHaveOnly(rest, key, m);
    }
  }

  lemma {:induction false} FirstKeyAppend(a: seq<Mention>, b: seq<Mention>, c: string)
    ensures FirstKey(a + b, c) == if FirstKey(a, c).Some? then FirstKey(a, c) else FirstKey(b, c)
  {
    if b == [] {
      assert a + b == a;
    } else {
      FirstKeyAppend(a, b[..|b| - 1], c);
      assert (a + b)[..|a + b| - 1] == a + b[..|b| - 1];
    }
  }

  predicate Mentioned(item: Item, c: string) {
    exists e :: e in item.content.spec.endpoints && e.cluster == c
  }

  lemma FirstKeyIn(item: Item, c: string)
    ensures FirstKey(MentionsIn(item.content.spec.endpoints, item.key), c)
         == if Mentioned(item, c) then Some(item.key) else None
  {
    var es := item.content.spec.endpoints;
    var ms := MentionsIn(es, item.key);
    FirstKeySome(ms, c);
    if Mentioned(item, c) {
      var e :| e in es && e.cluster == c;
      MentionsInHave(es, item.key, e);
      MentionsInHaveOnly(es, item.key, Mention(c, FirstKey(ms, c).value));
    } else if FirstKey(ms, c).Some? {
      MentionsInHaveOnly(es, item.key, Mention(c, FirstKey(ms, c).value));
    }
  }

  /** The key that recovery gives a new cluster is that of the first listed service with an endpoint of the cluster. */
  lemma {:induction false} FirstKeyIsFirstService(items: seq<Item>, c: string)
    ensures FirstKey(Mentions(items), c).Some? <==> exists i :: 0 <= i < |items| && Mentioned(items[i], c)
    ensures forall i | 0 <= i < |items| && Mentioned(items[i], c)
                       && (forall j | 0 <= j < i :: !Mentioned(items[j], c)) ::
              FirstKey(Mentions(items), c) == Some(items[i].key)
  {
    if items != [] {
      var rest, last := items[..|items| - 1], items[|items| - 1];
      FirstKeyIsFirstService(rest, c);
      FirstKeyIn(last, c);
      FirstKeyAppend(Mentions(rest), MentionsIn(last.content.spec.endpoints, last.key), c);
      assert forall i | 0 <= i < |rest| :: items[i] == rest[i];
    }
  }

  lemma {:induction false} MentionsHave(items: seq<Item>, i: nat, e: Endpoint)
    requires i < |items| && e in items[i].content.spec.endpoints
    ensures Mention(e.cluster, items[i].key) in Mentions(items)
  {
    var last := items[|items| - 1];
    if i == |items| - 1 {
      MentionsInHave(last.content.spec.endpoints, last.key, e);
    } else {
      MentionsHave(items[..|items| - 1], i, e);
    }
  }

  lemma {:induction false} MentionsInHave(endpoints: seq<Endpoint>, key: Key, e: Endpoint)
    requires e in endpoints
    ensures Mention(e.cluster, key) in MentionsIn(endpoints, key)
  {
    var rest := endpoints[..|endpoints| - 1];
    assert endpoints == rest + [endpoints[|endpoints| - 1]];
    if e in rest {
      MentionsInHave(rest, key, e);
    }
  }

  /** Records the listed services in the store, cluster by cluster. */
  method RecordGlobalServicesByCluster(
    store: ClusterStore, clock: Clock, own: string, duration: nat, items: seq<Item>)
    requires store.Valid()
    modifies clock, store, store.members
    ensures store.Valid() && clock.now >= old(clock.now)
    ensures Recovered(old(store.table), store.table, Mentions(items), own, duration, old(clock.now), clock.now)
  {
    ghost var ms: seq<Mention> := [];
    RecoveredNothing(store.table, own, duration, clock.now, clock.now);
    for i := 0 to |items|
      invariant store.Valid() && clock.now >= old(clock.now)
      invariant fresh(store.members - old(store.members))
      invariant ms == Mentions(items[..i])
      invariant Recovered(old(store.table), store.table, ms, own, duration, old(clock.now), clock.now)
    {
      assert items[..i + 1][..i] == items[..i];
      RecordService(store, clock, own, duration, items[i], old(store.table), ms, old(clock.now));
      ms := ms + MentionsIn(items[i].content.spec.endpoints, items[i].key);
    }
    assert items[..|items|] == items;
  }

  /** The inner loop. */
  method RecordService(
    store: ClusterStore, clock: Clock, own: string, duration: nat, gs: Item,
    ghost base: Table, ghost before: seq<Mention>, ghost from: nat)
    requires store.Valid() && from <= clock.now
    requires Recovered(base, store.table, before, own, duration, from, clock.now)
    modifies clock, store, store.members
    ensures store.Valid() && clock.now >= old(clock.now)
    ensures fresh(store.members - old(store.members))
    ensures Recovered(base, store.table, before + MentionsIn(gs.content.spec.endpoints, gs.key), own, duration,
                      from, clock.now)
  {
    var endpoints := gs.content.spec.endpoints;
    ghost var ms := before;
    assert before + [] == before;
    for j := 0 to |endpoints|
      invariant store.Valid() && clock.now >= old(clock.now)
      invariant fresh(store.members - old(store.members))
      invariant ms == before + MentionsIn(endpoints[..j], gs.key)
      invariant Recovered(base, store.table, ms, own, duration, from, clock.now)
    {
      var m := Mention(endpoints[j].cluster, gs.key);
      assert endpoints[..j + 1][..j] == endpoints[..j];
      RecordEndpoint(store, clock, own, duration, m, base, ms, from);
      ms := ms + [m];
    }
    assert endpoints[..|endpoints|] == endpoints;
  }

  /** The loop body: a foreign cluster not known yet gets its lease and this one key. */
  method RecordEndpoint(
    store: ClusterStore, clock: Clock, own: string, duration: nat, m: Mention,
    ghost base: Table, ghost ms: seq<Mention>, ghost from: nat)
    requires store.Valid() && from <= clock.now
    requires Recovered(base, store.table, ms, own, duration, from, clock.now)
    modifies clock, store, store.members
    ensures store.Valid() && clock.now >= old(clock.now)
    ensures fresh(store.members - old(store.members))
    ensures Recovered(base, store.table, ms + [m], own, duration, from, clock.now)
  {
    ghost var before := store.table;
    var now := LearnIfNew(store, clock, own, duration, m);
    RecoveredNext(base, before, ms, m, own, duration, from, old(clock.now), now);
  }

  method LearnIfNew(store: ClusterStore, clock: Clock, own: string, duration: nat, m: Mention) returns (now: nat)
    requires store.Valid()
    modifies clock, store, store.members
    ensures store.Valid() && fresh(store.members - old(store.members))
    ensures now == clock.now >= old(clock.now)
    ensures store.table == if m.cluster == own || m.cluster in old(store.table) then old(store.table)
                           else old(store.table)[m.cluster := Lease({m.key}, now + duration)]
  {
    now := clock.now;
    if m.cluster != own {
      var known := store.Get(m.cluster);
      if known == null {
        now := clock.Now();
        Learn(store, m.cluster, m.key, now + duration);
      }
    }
  }

  method Learn(store: ClusterStore, c: string, key: Key, deadline: nat)
    requires store.Valid() && c !in store.table
    modifies store, store.members
    ensures store.Valid() && fresh(store.members - old(store.members))
    ensures store.table == old(store.table)[c := Lease({key}, deadline)]
  {
    store.Renew(c, deadline);
    store.Track(c, key);
    assert {} + {key} == {key};
  }
}
