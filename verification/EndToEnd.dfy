/** From an export in one cluster to a DNS answer in another: host operations, downloads and import rounds of one
    importing cluster, in any order and with any failures. */
module EndToEnd {
  import opened Model
  import opened Endpoints
  import opened Registry
  import opened ObjectStore
  import opened Manager
  import opened Runs
  import opened Importer
  import opened Names
  import opened Dns

  /** A round works on the snapshot last downloaded; the host goes on meanwhile. `Import` is a whole round, whose
      outcome depends only on which jobs failed and whether the local list was read. */
  datatype Event = HostStep(op: Op) | Fetching | Import(failed: set<Key>, listed: bool)

  /** `history` records the specification that each host version stands for. */
  datatype System = System(host: Store, snapshot: map<Key, Source>, local: map<Key, Local>, history: History)

  function Snapshot(st: Store): map<Key, Source> {
    map k | k in st.objects :: Source(st.objects[k].version, st.objects[k].spec)
  }

  function Next(s: System, e: Event): System {
    match e
    case HostStep(op) =>
      var host := Stored(s.host, op);
      s.(host := host,
         history := if op.key in host.objects
                    then s.history[(op.key, host.objects[op.key].version) := host.objects[op.key].spec] else s.history)
    case Fetching => s.(snapshot := Snapshot(s.host))
    case Import(failed, listed) => s.(local := Result(s.local, s.snapshot, failed, listed))
  }

  function After(events: seq<Event>): System {
    if events == [] then System(Store(map[], 0), map[], map[], map[])
    else Next(After(events[..|events| - 1]), events[|events| - 1])
  }

  /** The operations that the host has performed. */
  function HostOps(events: seq<Event>): seq<Op> {
    if events == [] then []
    else if events[|events| - 1].HostStep? then HostOps(events[..|events| - 1]) + [events[|events| - 1].op]
    else HostOps(events[..|events| - 1])
  }

  lemma {:induction false} HostIsRun(events: seq<Event>)
    ensures Specs(After(events).host) == Run(map[], HostOps(events))
  {
    if events != [] {
      var rest, last := events[..|events| - 1], events[|events| - 1];
      HostIsRun(rest);
      if last.HostStep? {
        StoredRefinesApply(After(rest).host, last.op);
        RunOne(map[], HostOps(rest), last.op);
      }
    }
  }

  /** Versions are unique: each was issued by one write, and stands for one specification. */
  ghost predicate Versioned(s: System) {
    && (forall k | k in s.host.objects ::
          && (k, s.host.objects[k].version) in s.history
          && s.history[(k, s.host.objects[k].version)] == s.host.objects[k].spec)
    && (forall p | p in s.history :: |p.1| <= s.host.revision)
  }

  ghost predicate Invariant(s: System) {
    Versioned(s) && Agrees(s.snapshot, s.history) && Sound(s.local, s.history)
  }

  /** An operation of the host forgets no version. */
  lemma HistoryGrows(s: System, op: Op)
    requires Versioned(s)
    ensures var t := Next(s, HostStep(op));
            Versioned(t) && forall p | p in s.history :: p in t.history && t.history[p] == s.history[p]
  {
    var t := Next(s, HostStep(op));
    if op.key in t.host.objects && t.host.revision != s.host.revision {
      assert |t.host.objects[op.key].version| == s.host.revision + 1;
    }
  }

  lemma {:induction false} InvariantAlways(events: seq<Event>)
    ensures Invariant(After(events))
  {
    if events != [] {
      var rest, last := events[..|events| - 1], events[|events| - 1];
      InvariantAlways(rest);
      match last
      case HostStep(op) => HistoryGrows(After(rest), op);
      case Fetching =>
      case Import(failed, listed) => ResultSound(After(rest), failed, listed);
    }
  }

  lemma ResultSound(s: System, failed: set<Key>, listed: bool)
    requires Invariant(s)
    ensures Sound(Result(s.local, s.snapshot, failed, listed), s.history)
  {
    var result := Result(s.local, s.snapshot, failed, listed);
    forall k | k in result ensures Sound(map[k := result[k]], s.history) {
      if k in s.snapshot && k !in failed {
        ImportedIsSound(k, Importer.Lookup(s.local, k), s.snapshot[k], s.history);
      }
    }
    forall k | k in result && Origin(result[k].labels) != ""
      ensures (k, Origin(result[k].labels)) in s.history
              && s.history[(k, Origin(result[k].labels))] == result[k].spec
    {
      assert map[k := result[k]][k] == result[k];
    }
  }

  ghost predicate OnlyHost(events: seq<Event>) {
    forall e | e in events :: e.HostStep?
  }

  lemma {:induction false} HostLeavesSnapshot(before: seq<Event>, events: seq<Event>)
    requires OnlyHost(events)
    ensures After(before + events).snapshot == After(before).snapshot
    ensures After(before + events).local == After(before).local
  {
    if events == [] {
      assert before + events == before;
    } else {
      var rest, last := events[..|events| - 1], events[|events| - 1];
      assert (before + events)[..|before + events| - 1] == before + rest;
      assert last in events && After(before + events) == Next(After(before + rest), last);
      HostLeavesSnapshot(before, rest);
    }
  }

  /** A download, any further host operations, and a round in which everything succeeds. */
  ghost function Replicated(before: seq<Event>, during: seq<Event>): System {
    After(before + [Fetching] + during + [Import({}, true)])
  }

  /** The round works on the host's services as of the download. */
  lemma RoundOnSnapshot(before: seq<Event>, during: seq<Event>) returns (s: System)
    requires OnlyHost(during)
    ensures Invariant(s) && s.snapshot == Snapshot(After(before).host)
    ensures Replicated(before, during).local == Result(s.local, s.snapshot, {}, true)
  {
    var fetched := before + [Fetching];
    var all := fetched + during;
    s := After(all);
    InvariantAlways(all);
    assert (all + [Import({}, true)])[..|all|] == all;
    assert fetched[..|fetched| - 1] == before && After(fetched) == Next(After(before), Fetching);
    HostLeavesSnapshot(fetched, during);
  }

  lemma SuccessfulRound(s: System)
    requires Invariant(s)
    ensures var local := Result(s.local, s.snapshot, {}, true);
            local.Keys == s.snapshot.Keys && forall k | k in s.snapshot :: local[k].spec == s.snapshot[k].spec
  {
    var local := Result(s.local, s.snapshot, {}, true);
    assert local.Keys == s.snapshot.Keys;
    forall k | k in s.snapshot ensures local[k].spec == s.snapshot[k].spec {
      ImportedIsSound(k, Importer.Lookup(s.local, k), s.snapshot[k], s.history);
    }
  }

  /** After such a round, whatever went before, the local services are the host's as of the download. */
  lemma ReplicationCatchesUp(before: seq<Event>, during: seq<Event>)
    requires OnlyHost(during)
    ensures var local, reg := Replicated(before, during).local, Run(map[], HostOps(before));
            local.Keys == reg.Keys && forall k | k in reg :: local[k].spec == reg[k]
  {
    var s := RoundOnSnapshot(before, during);
    SuccessfulRound(s);
    HostIsRun(before);
    assert s.snapshot.Keys == Specs(After(before).host).Keys;
  }

  lemma {:induction false} MatchingIsOnly(es: seq<Endpoint>, c: string)
    ensures Matching(es, InCluster(c)) == Only(es, c)
  {
    if es != [] {
      var rest, last := es[..|es| - 1], es[|es| - 1];
      MatchingIsOnly(rest, c);
      OnlyAppend(rest, [last], c);
      assert es == rest + [last];
    }
  }

  /** What reading a local service may find. */
  ghost predicate ReadsLocal(local: map<Key, Local>, key: Key, f: Fetch) {
    match f
    case Found(o) => key in local && o.spec == local[key].spec
    case NotFound => key !in local
    case Unreadable => false
  }

  /** What the read that the query asks for may find in the local services. */
  ghost predicate ReadsFor(local: map<Key, Local>, q: Query, f: Fetch) {
    Parse(q.labels).Some? ==> ReadsLocal(local, KeyOf(Parse(q.labels).value), f)
  }

  /** The ad hoc answer for a cluster and a service, in any importing cluster, is exactly the addresses of that
      cluster's last un-revoked export that are of the queried family, in order; the name is unknown only while the
      service does not exist. */
  lemma AnswerIsLastExport(cfg: Config, q: Query, before: seq<Event>, during: seq<Event>, c: string, key: Key,
                           zone: string, fallthrough: bool, f: Fetch)
    requires AllTagged(HostOps(before)) && OnlyHost(during)
    requires q.qtype != OtherType && q.labels == Render(AdHoc(c, key.name, key.namespace), [zone])
    requires ReadsFor(Replicated(before, during).local, q, f)
    ensures var published := Published(HostOps(before), key, c);
            Expected(cfg, q, true, fallthrough, f)
            == if key in Run(map[], HostOps(before)) then Answer(AllRecords(cfg, q, published))
               else NextOr(fallthrough, NameError)
    ensures Data(AllRecords(cfg, q, Published(HostOps(before), key, c)))
         == Family(AllParsed(cfg, Published(HostOps(before), key, c)), q.qtype)
  {
    ReplicationCatchesUp(before, during);
    RoundTrip(AdHoc(c, key.name, key.namespace), zone);
    NameDecidesKey(AdHoc(c, key.name, key.namespace), zone);
    SublistIsPublished(HostOps(before), key, c);
    AnswerIsFamily(cfg, q, Published(HostOps(before), key, c));
    if f.Found? {
      MatchingIsOnly(f.content.spec.endpoints, c);
    }
  }

  /** The answer for a service name, in any importing cluster, is the resolver's preference among all live exports of
      the service; the name is unknown only while the service does not exist. */
  lemma ServiceAnswerIsLiveExports(cfg: Config, q: Query, before: seq<Event>, during: seq<Event>, key: Key,
                                   zone: string, fallthrough: bool, f: Fetch)
    requires AllTagged(HostOps(before)) && OnlyHost(during) && key.name != "" && key.namespace != ""
    requires q.qtype != OtherType && q.labels == Render(Global(key.name, key.namespace), [zone])
    requires ReadsFor(Replicated(before, during).local, q, f)
    ensures var ops := HostOps(before);
            Expected(cfg, q, true, fallthrough, f)
            == if Declared(ops, key).Some? then Answer(Preferred(cfg, q, LiveEndpoints(ops, key, |ops|)))
               else NextOr(fallthrough, NameError)
  {
    ReplicationCatchesUp(before, during);
    RoundTrip(Global(key.name, key.namespace), zone);
    NameDecidesKey(Global(key.name, key.namespace), zone);
    RunIsDeclared(HostOps(before), key);
    RunEndpoints(HostOps(before), key);
  }

  lemma {:induction false} PodIsInCluster(es: seq<Endpoint>, c: string, host: string)
    ensures Matching(es, Pod(c, host)) == Matching(Only(es, c), Pod(c, host))
  {
    if es != [] {
      var rest, last := es[..|es| - 1], es[|es| - 1];
      PodIsInCluster(rest, c, host);
      OnlyAppend(rest, [last], c);
      assert es == rest + [last];
      if last.cluster == c {
        var mine := Only(rest, c) + [last];
        assert Only(es, c) == mine && mine[..|mine| - 1] == Only(rest, c) && mine[|mine| - 1] == last;
      } else {
        assert Only(es, c) == Only(rest, c);
      }
    }
  }

  /** The answer for a pod, in any importing cluster, is the addresses of that pod in its cluster's last un-revoked
      export; the name is unknown exactly when the service does not exist, was last exported as another type, or that
      export has no endpoint of that hostname. */
  lemma PodAnswerIsLastExport(cfg: Config, q: Query, before: seq<Event>, during: seq<Event>, host: string, c: string,
                              key: Key, zone: string, fallthrough: bool, f: Fetch)
    requires AllTagged(HostOps(before)) && OnlyHost(during)
    requires key.name != "" && key.namespace != "" && host != "" && c != ""
    requires q.qtype != OtherType && q.labels == Render(Host(host, c, key.name, key.namespace), [zone])
    requires ReadsFor(Replicated(before, during).local, q, f)
    ensures var declared, pod := Declared(HostOps(before), key), Pod(c, host);
            var published := Matching(Published(HostOps(before), key, c), pod);
            Expected(cfg, q, true, fallthrough, f)
            == if declared.Some? && declared.value.kind == Headless && published != []
               then Answer(AllRecords(cfg, q, published)) else NextOr(fallthrough, NameError)
  {
    ReplicationCatchesUp(before, during);
    RoundTrip(Host(host, c, key.name, key.namespace), zone);
    NameDecidesKey(Host(host, c, key.name, key.namespace), zone);
    RunIsDeclared(HostOps(before), key);
    SublistIsPublished(HostOps(before), key, c);
    if f.Found? {
      PodIsInCluster(f.content.spec.endpoints, c, host);
    }
  }

  /** Two systems whose hosts saw the same operations of cluster `c`, in the same order, answer the ad hoc query for `c`
      alike after their rounds, whatever the other clusters did, exactly when the service exists in both or in
      neither. */
  lemma OthersDoNotMatter(
    cfg: Config, q: Query, before: seq<Event>, during: seq<Event>, other: seq<Event>, otherDuring: seq<Event>,
    c: string, key: Key, zone: string, fallthrough: bool, f: Fetch, g: Fetch)
    requires AllTagged(HostOps(before)) && AllTagged(HostOps(other)) && OnlyHost(during) && OnlyHost(otherDuring)
    requires ByCluster(HostOps(before), c) == ByCluster(HostOps(other), c)
    requires q.qtype != OtherType && q.labels == Render(AdHoc(c, key.name, key.namespace), [zone])
    requires ReadsFor(Replicated(before, during).local, q, f)
    requires ReadsFor(Replicated(other, otherDuring).local, q, g)
    ensures Expected(cfg, q, true, fallthrough, f) == Expected(cfg, q, true, fallthrough, g)
       <==> (key in Run(map[], HostOps(before)) <==> key in Run(map[], HostOps(other)))
  {
    AnswerIsLastExport(cfg, q, before, during, c, key, zone, fallthrough, f);
    AnswerIsLastExport(cfg, q, other, otherDuring, c, key, zone, fallthrough, g);
    PublishedByCluster(HostOps(before), key, c);
    PublishedByCluster(HostOps(other), key, c);
  }

  /** While cluster `c` has endpoints of the service exported, nothing that other clusters do changes the answer. */
  lemma ExporterDecides(
    cfg: Config, q: Query, before: seq<Event>, during: seq<Event>, other: seq<Event>, otherDuring: seq<Event>,
    c: string, key: Key, zone: string, fallthrough: bool, f: Fetch, g: Fetch)
    requires AllTagged(HostOps(before)) && AllTagged(HostOps(other)) && OnlyHost(during) && OnlyHost(otherDuring)
    requires ByCluster(HostOps(before), c) == ByCluster(HostOps(other), c)
    requires Published(HostOps(before), key, c) != []
    requires q.qtype != OtherType && q.labels == Render(AdHoc(c, key.name, key.namespace), [zone])
    requires ReadsFor(Replicated(before, during).local, q, f)
    requires ReadsFor(Replicated(other, otherDuring).local, q, g)
    ensures Expected(cfg, q, true, fallthrough, f) == Expected(cfg, q, true, fallthrough, g)
  {
    OthersDoNotMatter(cfg, q, before, during, other, otherDuring, c, key, zone, fallthrough, f, g);
    PublishedByCluster(HostOps(before), key, c);
    PublishedByCluster(HostOps(other), key, c);
    PublishedExists(HostOps(before), key, c);
    PublishedExists(HostOps(other), key, c);
  }

  lemma PublishedExists(ops: seq<Op>, key: Key, c: string)
    requires AllTagged(ops) && Published(ops, key, c) != []
    ensures key in Run(map[], ops)
  {
    SublistIsPublished(ops, key, c);
  }
}
