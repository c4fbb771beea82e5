/** Replication into a client cluster: one job per downloaded service, and a deletion per service that the server
    no longer has. */
module Importer {
  import opened Model
  import opened ObjectStore
  import opened KeySets

  /** A downloaded service. */
  datatype Source = Source(version: string, spec: Spec)

  datatype Download = Download(key: Key, source: Source)

  /** What the importer reads and writes of a local service. */
  datatype Local = Local(labels: map<string, string>, spec: Spec)

  function Origin(labels: map<string, string>): string {
    if KEY_ORIGIN_RESOURCE_VERSION in labels then labels[KEY_ORIGIN_RESOURCE_VERSION] else ""
  }

  /** What a job writes over what it has found. A matching origin version leaves the specification alone. */
  function Imported(found: Option<Local>, src: Source): Local {
    var labels := if found.Some? && found.value.labels != map[] then found.value.labels
                  else map[KEY_CREATED_BY := APP_SERVICE_HUB];
    if found.Some? && Origin(labels) != "" && Origin(labels) == src.version then Local(labels, found.value.spec)
    else Local(labels[KEY_ORIGIN_RESOURCE_VERSION := src.version], src.spec)
  }

  /** A job leaves the version label naming the downloaded version, and every other label as it was. A service without
      labels gets the one that says who created it. */
  lemma ImportedLabels(found: Option<Local>, src: Source, name: string)
    ensures Origin(Imported(found, src).labels) == src.version
    ensures var labels := Imported(found, src).labels;
            name != "fabedge.io/origin-resource-version" ==>
              if found.Some? && found.value.labels != map[] then
                && (name in labels <==> name in found.value.labels)
                && (name in labels ==> labels[name] == found.value.labels[name])
              else
                && (name in labels <==> name == "fabedge.io/created-by")
                && (name in labels ==> labels[name] == "service-hub")
  {
  }

  function Locals(st: Store): map<Key, Local> {
    map k | k in st.objects :: Local(st.objects[k].labels, st.objects[k].spec)
  }

  function Lookup(local: map<Key, Local>, key: Key): Option<Local> {
    if key in local then Some(local[key]) else None
  }

  class GlobalServiceImporter {
    const client: Client
    const allowCreateNamespace: bool

    constructor (client: Client, allowCreateNamespace: bool)
      ensures this.client == client && this.allowCreateNamespace == allowCreateNamespace
    {
      this.client, this.allowCreateNamespace := client, allowCreateNamespace;
    }

    /** One job. It changes its own service only; a service that is up to date already is not written. */
    method CreateOrUpdateGlobalService(key: Key, src: Source) returns (ok: bool)
      modifies client`store, client`namespaces
      ensures client.Works(key) ==> ok
      ensures ok && allowCreateNamespace ==> key.namespace in client.namespaces
      ensures old(client.namespaces) <= client.namespaces
      ensures client.namespaces <= old(client.namespaces) + if allowCreateNamespace then {key.namespace} else {}
      ensures var before := Locals(old(client.store));
              ok ==> Locals(client.store) == before[key := Imported(Lookup(before, key), src)]
      ensures !ok ==> client.store == old(client.store)
    {
      if allowCreateNamespace {
        var ensured := client.EnsureNamespace(key.namespace);
        if !ensured {
          return false;
        }
      }
      var current := client.Get(key);
      match current {
        case Unreadable =>
          ok := false;
        case NotFound =>
          var service := Mutate(None, src);
          ok := client.Create(key, service.labels, service.spec);
        case Found(o) =>
          var service := Mutate(Some(Local(o.labels, o.spec)), src);
          if service == Local(o.labels, o.spec) {
            ok := true;
          } else {
            ok := client.Update(key, o, service.labels, service.spec);
          }
      }
    }

    /** The mutation that the job applies to the service it has read, or to a new one. */
    method Mutate(found: Option<Local>, src: Source) returns (service: Local)
      ensures service == Imported(found, src)
    {
      service := if found.Some? then found.value else Local(map[], src.spec);
      if service.labels == map[] {
        service := service.(labels := map[KEY_CREATED_BY := APP_SERVICE_HUB]);
      }
      var originResourceVersion := Origin(service.labels);
      if originResourceVersion != "" && originResourceVersion == src.version {
        return;
      }
      service := Local(service.labels[KEY_ORIGIN_RESOURCE_VERSION := src.version], src.spec);
    }

    method DeleteService(key: Key) returns (ok: bool)
      modifies client`store
      ensures client.Works(key) && key.name != "" && key in old(client.store).objects ==> ok
      ensures ok ==> key in old(client.store).objects && Locals(client.store) == Locals(old(client.store)) - {key}
      ensures !ok ==> client.store == old(client.store)
    {
      ok := client.Delete(key);
    }

    /** What a round starts: one job per downloaded service, and a deletion of every service that the local list has and
        the download has not. */
    method PlanRound(services: seq<Download>) returns (listed: bool, jobs: seq<Download>, deletes: seq<Key>)
      ensures jobs == services
      ensures client.healthy ==> listed
      ensures listed ==>
                forall k :: k in deletes <==> k in client.store.objects && forall d | d in services :: d.key != k
      ensures !listed ==> deletes == []
    {
      jobs, deletes := [], [];
      var importedKeySet := new ObjectKeySet();
      for i := 0 to |services|
        invariant fresh(importedKeySet)
        invariant importedKeySet.keys == set d | d in services[..i] :: d.key
        invariant jobs == services[..i]
      {
        assert services[..i + 1] == services[..i] + [services[i]];
        importedKeySet.Add(services[i].key);
        jobs := jobs + [services[i]];
      }
      assert services[..|services|] == services;
      var items;
      listed, items := client.List();
      if !listed {
        return;
      }
      for i := 0 to |items|
        invariant importedKeySet.keys == set d | d in services :: d.key
        invariant forall k :: k in deletes <==> k !in importedKeySet.keys && exists j :: 0 <= j < i && items[j].key == k
      {
        if !importedKeySet.Has(items[i].key) {
          deletes := deletes + [items[i].key];
        }
      }
    }
  }

  // --- A round, with all its jobs interleaved ---

  datatype Job = Pending | Holding(found: Option<Local>) | Ended(ok: bool)

  datatype Listing = NotListed | Listed | ListFailed

  datatype Round = Round(local: map<Key, Local>, imports: map<Key, Job>, listing: Listing, deletes: map<Key, Job>)

  datatype Action = Read(key: Key, ok: bool) | Write(key: Key, ok: bool) | List(ok: bool) | Delete(key: Key, ok: bool)

  predicate Enabled(s: Round, a: Action) {
    match a
    case Read(k, _) => k in s.imports && s.imports[k].Pending?
    case Write(k, _) => k in s.imports && s.imports[k].Holding?
    case List(_) => s.listing == NotListed
    case Delete(k, _) => k in s.deletes && s.deletes[k].Pending?
  }

  function Step(snapshot: map<Key, Source>, s: Round, a: Action): Round
    requires Enabled(s, a) && s.imports.Keys == snapshot.Keys
  {
    match a
    case Read(k, ok) => s.(imports := s.imports[k := if ok then Holding(Lookup(s.local, k)) else Ended(false)])
    case Write(k, ok) =>
      s.(imports := s.imports[k := Ended(ok)],
         local := if ok then s.local[k := Imported(s.imports[k].found, snapshot[k])] else s.local)
    case List(ok) =>
      if !ok then s.(listing := ListFailed)
      else s.(listing := Listed, deletes := map k | k in s.local && k !in snapshot :: Pending)
    case Delete(k, ok) =>
      s.(deletes := s.deletes[k := Ended(ok)], local := if ok then s.local - {k} else s.local)
  }

  function Begin(start: map<Key, Local>, snapshot: map<Key, Source>): Round {
    Round(start, map k | k in snapshot :: Pending, NotListed, map[])
  }

  /** What each job's state says about its own key, and that no job touches another key. */
  ghost predicate Invariant(start: map<Key, Local>, snapshot: map<Key, Source>, s: Round) {
    && s.imports.Keys == snapshot.Keys
    && (forall k | k in s.deletes :: !s.deletes[k].Holding?)
    && s.deletes.Keys == (if s.listing.Listed? then start.Keys - snapshot.Keys else {})
    && (forall k | k in snapshot ::
          && (s.imports[k].Holding? ==> s.imports[k].found == Lookup(start, k))
          && Lookup(s.local, k) == if s.imports[k] == Ended(true) then Some(Imported(Lookup(start, k), snapshot[k]))
                                   else Lookup(start, k))
    && (forall k | k !in snapshot ::
          Lookup(s.local, k) == if k in s.deletes && s.deletes[k] == Ended(true) then None else Lookup(start, k))
  }

  ghost predicate Possible(start: map<Key, Local>, snapshot: map<Key, Source>, trace: seq<Action>, s: Round)
    decreases |trace|
  {
    if trace == [] then s == Begin(start, snapshot)
    else exists before ::
           && Possible(start, snapshot, trace[..|trace| - 1], before) && before.imports.Keys == snapshot.Keys
           && Enabled(before, trace[|trace| - 1]) && s == Step(snapshot, before, trace[|trace| - 1])
  }

  lemma ListStep(start: map<Key, Local>, snapshot: map<Key, Source>, s: Round)
    requires Invariant(start, snapshot, s) && s.listing == NotListed
    ensures Invariant(start, snapshot, Step(snapshot, s, List(true)))
  {
    forall k ensures k in s.local && k !in snapshot <==> k in start && k !in snapshot {
      if k !in snapshot {
        assert Lookup(s.local, k) == Lookup(start, k);
      }
    }
  }

  lemma ReadStep(start: map<Key, Local>, snapshot: map<Key, Source>, s: Round, k: Key, ok: bool)
    requires Invariant(start, snapshot, s) && Enabled(s, Read(k, ok))
    ensures Invariant(start, snapshot, Step(snapshot, s, Read(k, ok)))
  {
  }

  lemma WriteStep(start: map<Key, Local>, snapshot: map<Key, Source>, s: Round, k: Key, ok: bool)
    requires Invariant(start, snapshot, s) && Enabled(s, Write(k, ok))
    ensures Invariant(start, snapshot, Step(snapshot, s, Write(k, ok)))
  {
    var t := Step(snapshot, s, Write(k, ok));
    assert forall j | j != k :: Lookup(t.local, j) == Lookup(s.local, j);
  }

  lemma DeleteStep(start: map<Key, Local>, snapshot: map<Key, Source>, s: Round, k: Key, ok: bool)
    requires Invariant(start, snapshot, s) && Enabled(s, Delete(k, ok))
    ensures Invariant(start, snapshot, Step(snapshot, s, Delete(k, ok)))
  {
    var t := Step(snapshot, s, Delete(k, ok));
    assert k !in snapshot;
    forall j | j != k ensures Lookup(t.local, j) == Lookup(s.local, j) {
    }
    forall j | j in snapshot
      ensures Lookup(t.local, j) == if t.imports[j] == Ended(true) then Some(Imported(Lookup(start, j), snapshot[j]))
                                    else Lookup(start, j)
    {
      assert j != k && t.imports == s.imports;
    }
  }

  lemma StepKeepsInvariant(start: map<Key, Local>, snapshot: map<Key, Source>, s: Round, a: Action)
    requires Invariant(start, snapshot, s) && Enabled(s, a)
    ensures Invariant(start, snapshot, Step(snapshot, s, a))
  {
    match a
    case Read(k, ok) => ReadStep(start, snapshot, s, k, ok);
    case Write(k, ok) => WriteStep(start, snapshot, s, k, ok);
    case List(ok) =>
      if ok {
        ListStep(start, snapshot, s);
      }
    case Delete(k, ok) => DeleteStep(start, snapshot, s, k, ok);
  }

  lemma {:induction false} InvariantAlways(
    start: map<Key, Local>, snapshot: map<Key, Source>, trace: seq<Action>, s: Round)
    requires Possible(start, snapshot, trace, s)
    ensures Invariant(start, snapshot, s)
  {
    if trace != [] {
      var before :| && Possible(start, snapshot, trace[..|trace| - 1], before) && before.imports.Keys == snapshot.Keys
                    && Enabled(before, trace[|trace| - 1]) && s == Step(snapshot, before, trace[|trace| - 1]);
      InvariantAlways(start, snapshot, trace[..|trace| - 1], before);
      StepKeepsInvariant(start, snapshot, before, trace[|trace| - 1]);
    }
  }

  predicate Complete(s: Round) {
    && s.listing != NotListed
    && (forall k | k in s.imports :: s.imports[k].Ended?)
    && (forall k | k in s.deletes :: s.deletes[k].Ended?)
  }

  /** The keys whose job has failed. */
  function Failed(s: Round): set<Key> {
    (set k | k in s.imports && s.imports[k] == Ended(false)) + (set k | k in s.deletes && s.deletes[k] == Ended(false))
  }

  /** What a round makes of the local services, given only which jobs failed and whether the list could be read. */
  function Result(start: map<Key, Local>, snapshot: map<Key, Source>, failed: set<Key>, listed: bool): map<Key, Local> {
    map k | k in start.Keys + snapshot.Keys
            && (if k in snapshot then k !in failed || k in start else !listed || k in failed)
      :: if k in snapshot && k !in failed then Imported(Lookup(start, k), snapshot[k]) else start[k]
  }

  /** Every interleaving of a round's jobs with each other, with the list and with the deletes gives the same result;
      a job that fails leaves its own key as it was and affects no other. */
  lemma RoundResult(start: map<Key, Local>, snapshot: map<Key, Source>, trace: seq<Action>, s: Round)
    requires Possible(start, snapshot, trace, s) && Complete(s)
    ensures s.local == Result(start, snapshot, Failed(s), s.listing.Listed?)
  {
    InvariantAlways(start, snapshot, trace, s);
    var result := Result(start, snapshot, Failed(s), s.listing.Listed?);
    forall k ensures Lookup(s.local, k) == Lookup(result, k) {
      if k in snapshot {
        assert k in Failed(s) <==> s.imports[k] == Ended(false);
      } else {
        assert k in Failed(s) <==> k in s.deletes && s.deletes[k] == Ended(false);
      }
    }
    SameLookups(s.local, result);
  }

  lemma SameLookups(a: map<Key, Local>, b: map<Key, Local>)
    requires forall k :: Lookup(a, k) == Lookup(b, k)
    ensures a == b
  {
    forall k ensures k in a <==> k in b {
      assert Lookup(a, k) == Lookup(b, k);
    }
    forall k | k in a ensures a[k] == b[k] {
      assert Lookup(a, k) == Lookup(b, k);
    }
  }

  /** In particular a failed job leaves its own service alone, and without the local list nothing is deleted. */
  lemma FailuresStayLocal(
    start: map<Key, Local>, snapshot: map<Key, Source>, failed: set<Key>, listed: bool, k: Key)
    ensures var result := Result(start, snapshot, failed, listed);
            && (k in failed ==> (k in result <==> k in start) && (k in start ==> result[k] == start[k]))
            && (k !in failed && k in snapshot ==> k in result && result[k] == Imported(Lookup(start, k), snapshot[k]))
            && (k !in failed && k !in snapshot && listed ==> k !in result)
            && (k !in snapshot && !listed ==> (k in result <==> k in start) && (k in start ==> result[k] == start[k]))
  {
  }

  /** A round is never stuck before it is complete. */
  lemma NeverStuck(start: map<Key, Local>, snapshot: map<Key, Source>, trace: seq<Action>, s: Round)
    requires Possible(start, snapshot, trace, s) && !Complete(s)
    ensures exists a :: Enabled(s, a)
  {
    InvariantAlways(start, snapshot, trace, s);
    if s.listing == NotListed {
      assert Enabled(s, List(true));
    } else if k :| k in s.imports && !s.imports[k].Ended? {
      assert Enabled(s, if s.imports[k].Pending? then Read(k, true) else Write(k, true));
    } else {
      var k :| k in s.deletes && !s.deletes[k].Ended?;
      assert Enabled(s, Delete(k, true));
    }
  }

  // --- Skipping by version ---

  /** The specification that the server gave each service at each of its versions. */
  type History = map<(Key, string), Spec>

  ghost predicate Sound(local: map<Key, Local>, history: History) {
    forall k | k in local && Origin(local[k].labels) != "" ::
      (k, Origin(local[k].labels)) in history && history[(k, Origin(local[k].labels))] == local[k].spec
  }

  ghost predicate Agrees(snapshot: map<Key, Source>, history: History) {
    forall k | k in snapshot && snapshot[k].version != "" ::
      (k, snapshot[k].version) in history && history[(k, snapshot[k].version)] == snapshot[k].spec
  }

  lemma ImportedIsSound(k: Key, found: Option<Local>, src: Source, history: History)
    requires found.Some? ==> Sound(map[k := found.value], history)
    requires Agrees(map[k := src], history)
    ensures Sound(map[k := Imported(found, src)], history) && Imported(found, src).spec == src.spec
  {
    if found.Some? {
      assert map[k := found.value][k] == found.value;
    }
    assert map[k := src][k] == src;
  }

  /** Every moment of a round keeps "an origin label names the server version that the local spec came from". */
  lemma RoundKeepsSound(
    start: map<Key, Local>, snapshot: map<Key, Source>, trace: seq<Action>, s: Round, history: History)
    requires Possible(start, snapshot, trace, s) && Sound(start, history) && Agrees(snapshot, history)
    ensures Sound(s.local, history)
  {
    InvariantAlways(start, snapshot, trace, s);
    forall k | k in s.local && Origin(s.local[k].labels) != ""
      ensures (k, Origin(s.local[k].labels)) in history
              && history[(k, Origin(s.local[k].labels))] == s.local[k].spec
    {
      assert Lookup(s.local, k) == Some(s.local[k]);
      if k in snapshot && s.imports[k] == Ended(true) {
        ImportedIsSound(k, Lookup(start, k), snapshot[k], history);
        assert map[k := s.local[k]][k] == s.local[k];
      } else {
        assert Lookup(start, k) == Some(s.local[k]);
      }
    }
  }

  /** A round in which everything succeeds leaves what its jobs write, and nothing else. */
  lemma FullRound(start: map<Key, Local>, snapshot: map<Key, Source>, trace: seq<Action>, s: Round)
    requires Possible(start, snapshot, trace, s) && Complete(s) && s.listing.Listed? && Failed(s) == {}
    ensures s.local.Keys == snapshot.Keys
    ensures forall k | k in snapshot :: s.local[k] == Imported(Lookup(start, k), snapshot[k])
  {
    RoundResult(start, snapshot, trace, s);
    assert s.local.Keys == snapshot.Keys;
  }

  /** After a round in which everything succeeds, the local services are exactly those of the snapshot, each with the
      snapshot's specification, including those whose jobs skipped the update. */
  lemma RoundConverges(
    start: map<Key, Local>, snapshot: map<Key, Source>, trace: seq<Action>, s: Round, history: History)
    requires Possible(start, snapshot, trace, s) && Sound(start, history) && Agrees(snapshot, history)
    requires Complete(s) && s.listing.Listed? && Failed(s) == {}
    ensures s.local.Keys == snapshot.Keys && forall k | k in snapshot :: s.local[k].spec == snapshot[k].spec
  {
    FullRound(start, snapshot, trace, s);
    forall k | k in snapshot ensures s.local[k].spec == snapshot[k].spec {
      ImportedIsSound(k, Lookup(start, k), snapshot[k], history);
    }
  }

  /** A job is about to skip an update that it should make. */
  predicate SkipsWrongly(found: Option<Local>, src: Source) {
    found.Some? && Origin(found.value.labels) == src.version != "" && found.value.spec != src.spec
  }

  lemma SkipGoesWrongIff(found: Option<Local>, src: Source)
    ensures Imported(found, src).spec != src.spec <==> SkipsWrongly(found, src)
  {
  }

  /** Without assuming that labels tell the truth: a round in which everything succeeds leaves the snapshot's
      specifications exactly when no service of the snapshot started with the label of its present version over another
      specification. */
  lemma RoundConvergesIff(start: map<Key, Local>, snapshot: map<Key, Source>, trace: seq<Action>, s: Round)
    requires Possible(start, snapshot, trace, s) && Complete(s) && s.listing.Listed? && Failed(s) == {}
    ensures s.local.Keys == snapshot.Keys
    ensures (forall k | k in snapshot :: s.local[k].spec == snapshot[k].spec)
       <==> forall k | k in snapshot :: !SkipsWrongly(Lookup(start, k), snapshot[k])
  {
    FullRound(start, snapshot, trace, s);
    forall k | k in snapshot
      ensures s.local[k].spec != snapshot[k].spec <==> SkipsWrongly(Lookup(start, k), snapshot[k])
    {
      SkipGoesWrongIff(Lookup(start, k), snapshot[k]);
    }
  }

  lemma PossibleStep(start: map<Key, Local>, snapshot: map<Key, Source>, trace: seq<Action>, s: Round, a: Action)
    requires Possible(start, snapshot, trace, s) && s.imports.Keys == snapshot.Keys && Enabled(s, a)
    ensures Possible(start, snapshot, trace + [a], Step(snapshot, s, a))
  {
    assert (trace + [a])[..|trace + [a]| - 1] == trace;
  }

  /** The rounds of a single service that the download has too. */
  function Sole(k: Key, local: Local, job: Job, listing: Listing): Round {
    Round(map[k := local], map[k := job], listing, map[])
  }

  lemma SoleRead(k: Key, local: Local, src: Source)
    ensures Begin(map[k := local], map[k := src]) == Sole(k, local, Pending, NotListed)
    ensures Step(map[k := src], Sole(k, local, Pending, NotListed), Read(k, true))
         == Sole(k, local, Holding(Some(local)), NotListed)
  {
  }

  lemma SoleWrite(k: Key, local: Local, src: Source)
    ensures Step(map[k := src], Sole(k, local, Holding(Some(local)), NotListed), Write(k, true))
         == Sole(k, Imported(Some(local), src), Ended(true), NotListed)
  {
  }

  lemma SoleList(k: Key, local: Local, src: Source)
    ensures Step(map[k := src], Sole(k, local, Ended(true), NotListed), List(true))
         == Sole(k, local, Ended(true), Listed)
    ensures Complete(Sole(k, local, Ended(true), Listed)) && Failed(Sole(k, local, Ended(true), Listed)) == {}
  {
  }

  /** A round of one service in which nothing fails. */
  lemma SoleRound(k: Key, local: Local, src: Source) returns (trace: seq<Action>)
    ensures Possible(map[k := local], map[k := src], trace, Sole(k, Imported(Some(local), src), Ended(true), Listed))
  {
    var start, snapshot, next := map[k := local], map[k := src], Imported(Some(local), src);
    SoleRead(k, local, src);
    PossibleStep(start, snapshot, [], Sole(k, local, Pending, NotListed), Read(k, true));
    SoleWrite(k, local, src);
    trace := [] + [Read(k, true)];
    PossibleStep(start, snapshot, trace, Sole(k, local, Holding(Some(local)), NotListed), Write(k, true));
    SoleList(k, next, src);
    trace := trace + [Write(k, true)];
    PossibleStep(start, snapshot, trace, Sole(k, next, Ended(true), NotListed), List(true));
    trace := trace + [List(true)];
  }

  /** It does miss one when the server's versions start again, as for a rebuilt store: the local service carries the
      text of a version that the server has issued anew for another specification, and a round without failures leaves
      it. */
  lemma ReusedVersionIsSkipped(k: Key, version: string, stale: Spec, spec: Spec) returns (trace: seq<Action>, s: Round)
    requires version != "" && stale != spec
    ensures var start := map[k := Local(map[KEY_ORIGIN_RESOURCE_VERSION := version], stale)];
            var snapshot := map[k := Source(version, spec)];
            && Possible(start, snapshot, trace, s) && Complete(s) && s.listing.Listed? && Failed(s) == {}
            && s.local == start && s.local[k].spec != snapshot[k].spec
  {
    var local, src := Local(map[KEY_ORIGIN_RESOURCE_VERSION := version], stale), Source(version, spec);
    trace := SoleRound(k, local, src);
    s := Sole(k, Imported(Some(local), src), Ended(true), Listed);
    SoleList(k, Imported(Some(local), src), src);
  }
}
