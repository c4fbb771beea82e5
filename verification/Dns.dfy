/** Answering queries from the stored services. */
module Dns {
  import opened Model
  import opened ObjectStore
  import opened Names

  datatype Ip = V4(value: nat) | V6(value: nat)

  datatype QType = A | AAAA | OtherType

  datatype Query = Query(name: string, labels: seq<string>, qtype: QType, qclass: nat)

  datatype Record = Record(name: string, rtype: QType, qclass: nat, ttl: nat, data: Ip)

  /** The resolver's own place and its settings; `parseIp` tells which texts are addresses. */
  datatype Config = Config(cluster: ClusterInfo, ttl: nat, parseIp: string -> Option<Ip>)

  predicate OfFamily(qtype: QType, ip: Ip) {
    (qtype == A && ip.V4?) || (qtype == AAAA && ip.V6?)
  }

  predicate Answers(cfg: Config, q: Query, address: string) {
    cfg.parseIp(address).Some? && OfFamily(q.qtype, cfg.parseIp(address).value)
  }

  /** The records for a list of addresses: one for each address of the queried family, in order. */
  function RecordsOf(cfg: Config, q: Query, addresses: seq<string>): seq<Record> {
    if addresses == [] then []
    else
      var rest, last := RecordsOf(cfg, q, addresses[..|addresses| - 1]), addresses[|addresses| - 1];
      if Answers(cfg, q, last) then rest + [Record(q.name, q.qtype, q.qclass, cfg.ttl, cfg.parseIp(last).value)]
      else rest
  }

  function AllRecords(cfg: Config, q: Query, es: seq<Endpoint>): seq<Record> {
    if es == [] then []
    else AllRecords(cfg, q, es[..|es| - 1]) + RecordsOf(cfg, q, es[|es| - 1].addresses)
  }

  datatype Filter =
    | InCluster(name: string)
    | InZone(name: string)
    | InRegion(name: string)
    | Pod(cluster: string, host: string)

  predicate Selects(f: Filter, e: Endpoint) {
    match f
    case InCluster(c) => e.cluster == c
    case InZone(z) => e.zone == z
    case InRegion(r) => e.region == r
    case Pod(c, h) => e.cluster == c && e.hostname == Some(h)
  }

  function Matching(es: seq<Endpoint>, f: Filter): seq<Endpoint> {
    if es == [] then []
    else if Selects(f, es[|es| - 1]) then Matching(es[..|es| - 1], f) + [es[|es| - 1]]
    else Matching(es[..|es| - 1], f)
  }

  function Matched(cfg: Config, q: Query, es: seq<Endpoint>, f: Filter): seq<Record> {
    AllRecords(cfg, q, Matching(es, f))
  }

  /** The naive rule: the first of these that is not empty: own cluster, own zone, own region, everything. */
  function Preferred(cfg: Config, q: Query, es: seq<Endpoint>): seq<Record> {
    var c := Matched(cfg, q, es, InCluster(cfg.cluster.name));
    var z := Matched(cfg, q, es, InZone(cfg.cluster.zone));
    var r := Matched(cfg, q, es, InRegion(cfg.cluster.region));
    if c != [] then c else if z != [] then z else if r != [] then r else AllRecords(cfg, q, es)
  }

  datatype Failure = NoItems | InvalidRequest | ReadFailed

  datatype Lookup = Records(records: seq<Record>) | Failed(why: Failure)

  function GlobalLookup(cfg: Config, q: Query, req: Request, f: Fetch): Lookup {
    if req.namespace == "" || req.service == "" then Failed(NoItems)
    else if req.hostname != "" && req.cluster == "" then Failed(InvalidRequest)
    else match f
      case Unreadable => Failed(ReadFailed)
      case NotFound => Failed(NoItems)
      case Found(o) =>
        if req.cluster == "" then Records(Preferred(cfg, q, o.spec.endpoints))
        else if o.spec.kind != Headless then Failed(InvalidRequest)
        else if Matching(o.spec.endpoints, Pod(req.cluster, req.hostname)) == [] then Failed(NoItems)
        else Records(Matched(cfg, q, o.spec.endpoints, Pod(req.cluster, req.hostname)))
  }

  function AdHocLookup(cfg: Config, q: Query, req: Request, f: Fetch): Lookup {
    match f
    case Unreadable => Failed(ReadFailed)
    case NotFound => Failed(NoItems)
    case Found(o) => Records(Matched(cfg, q, o.spec.endpoints, InCluster(req.cluster)))
  }

  datatype Rcode = NameError | ServerFailure | NotImplemented | NotZone

  /** An answer or a negative reply is written to the client; an error is handed back to the server unwritten; the rest
      is left to the next plugin. */
  datatype Reply = Answer(records: seq<Record>) | Negative(rcode: Rcode) | Error(rcode: Rcode) | Forwarded

  function NextOr(fallthrough: bool, rcode: Rcode): Reply {
    if fallthrough then Forwarded else Negative(rcode)
  }

  /** What a query must be answered with, given what a read of its service finds. */
  function Expected(cfg: Config, q: Query, inZone: bool, fallthrough: bool, f: Fetch): Reply {
    if !inZone then NextOr(fallthrough, NotZone)
    else if q.qtype == OtherType then NextOr(fallthrough, NotImplemented)
    else match Parse(q.labels)
      case None => Error(NameError)
      case Some(req) =>
        match (if req.isAdHoc then AdHocLookup(cfg, q, req, f) else GlobalLookup(cfg, q, req, f))
        case Records(rs) => Answer(rs)
        case Failed(ReadFailed) => Error(ServerFailure)
        case Failed(_) => NextOr(fallthrough, NameError)
  }

  function KeyOf(req: Request): Key {
    Key(req.namespace, req.service)
  }

  /** The object that a name is about: the service it names, in the namespace it names, whichever form is used. */
  lemma NameDecidesKey(n: Name, zone: string)
    requires !(n.Deprecated? && n.cluster == "svc")
    ensures Parse(Render(n, [zone])).Some?
    ensures KeyOf(Parse(Render(n, [zone])).value) == Key(n.namespace, n.service)
  {
    RoundTrip(n, zone);
  }

  lemma Grow<T>(s: seq<T>, i: nat)
    requires i < |s|
    ensures s[..i + 1][..i] == s[..i] && s[..i + 1][i] == s[i]
  {
  }

  lemma {:induction false} AllRecordsAppend(cfg: Config, q: Query, a: seq<Endpoint>, b: seq<Endpoint>)
    ensures AllRecords(cfg, q, a + b) == AllRecords(cfg, q, a) + AllRecords(cfg, q, b)
  {
    if b == [] {
      assert a + b == a;
    } else {
      AllRecordsAppend(cfg, q, a, b[..|b| - 1]);
      assert (a + b)[..|a + b| - 1] == a + b[..|b| - 1];
    }
  }

  /** One more endpoint adds its records to every filter that selects it. */
  lemma MatchedNext(cfg: Config, q: Query, es: seq<Endpoint>, i: nat, f: Filter)
    requires i < |es|
    ensures Matched(cfg, q, es[..i + 1], f)
         == if Selects(f, es[i]) then Matched(cfg, q, es[..i], f) + RecordsOf(cfg, q, es[i].addresses)
            else Matched(cfg, q, es[..i], f)
  {
    Grow(es, i);
    if Selects(f, es[i]) {
      AllRecordsAppend(cfg, q, Matching(es[..i], f), [es[i]]);
      assert AllRecords(cfg, q, [es[i]]) == RecordsOf(cfg, q, es[i].addresses) by {
        assert [es[i]][..0] == [];
        assert [] + RecordsOf(cfg, q, es[i].addresses) == RecordsOf(cfg, q, es[i].addresses);
      }
    }
  }

  /** An endpoint without an address of the family adds nothing to any filter. */
  lemma MatchedSame(cfg: Config, q: Query, es: seq<Endpoint>, i: nat, f: Filter)
    requires i < |es| && RecordsOf(cfg, q, es[i].addresses) == []
    ensures Matched(cfg, q, es[..i + 1], f) == Matched(cfg, q, es[..i], f)
  {
    MatchedNext(cfg, q, es, i, f);
    assert Matched(cfg, q, es[..i], f) + [] == Matched(cfg, q, es[..i], f);
  }

  /** The three lists of a scan for cluster `c` agree with the overlapping filters wherever they decide the answer. */
  ghost predicate Tiered(
    cfg: Config, q: Query, es: seq<Endpoint>, c: string, own: seq<Record>, zone: seq<Record>, region: seq<Record>) {
    && own == Matched(cfg, q, es, InCluster(c))
    && (own == [] ==> zone == Matched(cfg, q, es, InZone(cfg.cluster.zone)))
    && (own == [] && zone == [] ==> region == Matched(cfg, q, es, InRegion(cfg.cluster.region)))
  }

  /** Putting the next endpoint into the first list that fits keeps that. */
  lemma TieredNext(cfg: Config, q: Query, es: seq<Endpoint>, i: nat, c: string,
                   own: seq<Record>, zone: seq<Record>, region: seq<Record>)
    requires i < |es| && Tiered(cfg, q, es[..i], c, own, zone, region)
    ensures var e, rs, next := es[i], RecordsOf(cfg, q, es[i].addresses), es[..i + 1];
            if e.cluster == c then Tiered(cfg, q, next, c, own + rs, zone, region)
            else if e.zone == cfg.cluster.zone then Tiered(cfg, q, next, c, own, zone + rs, region)
            else if e.region == cfg.cluster.region then Tiered(cfg, q, next, c, own, zone, region + rs)
            else Tiered(cfg, q, next, c, own, zone, region)
  {
    MatchedNext(cfg, q, es, i, InCluster(c));
    if RecordsOf(cfg, q, es[i].addresses) == [] {
      MatchedSame(cfg, q, es, i, InZone(cfg.cluster.zone));
      MatchedSame(cfg, q, es, i, InRegion(cfg.cluster.region));
    }
    MatchedNext(cfg, q, es, i, InZone(cfg.cluster.zone));
    MatchedNext(cfg, q, es, i, InRegion(cfg.cluster.region));
  }

  class FabDNS {
    const cfg: Config
    const client: Client

    constructor (cfg: Config, client: Client)
      ensures this.cfg == cfg && this.client == client
    {
      this.cfg, this.client := cfg, client;
    }

    method GenerateRecords(q: Query, endpoint: Endpoint) returns (records: seq<Record>)
      ensures records == RecordsOf(cfg, q, endpoint.addresses)
    {
      records := [];
      if q.qtype == A {
        for i := 0 to |endpoint.addresses|
          invariant records == RecordsOf(cfg, q, endpoint.addresses[..i])
        {
          Grow(endpoint.addresses, i);
          var ip := cfg.parseIp(endpoint.addresses[i]);
          if ip.Some? {
            if ip.value.V4? {
              records := records + [Record(q.name, A, q.qclass, cfg.ttl, ip.value)];
            }
          }
        }
        assert endpoint.addresses[..|endpoint.addresses|] == endpoint.addresses;
      } else if q.qtype == AAAA {
        for i := 0 to |endpoint.addresses|
          invariant records == RecordsOf(cfg, q, endpoint.addresses[..i])
        {
          Grow(endpoint.addresses, i);
          var ip := cfg.parseIp(endpoint.addresses[i]);
          if ip.Some? {
            if !ip.value.V4? {
              records := records + [Record(q.name, AAAA, q.qclass, cfg.ttl, ip.value)];
            }
          }
        }
        assert endpoint.addresses[..|endpoint.addresses|] == endpoint.addresses;
      } else {
        NoRecords(cfg, q, endpoint.addresses);
      }
    }

    /** `f` is what the read of the service found. The single pass over the endpoints, each put into at most one of
        three lists, gives what the naive rule gives. */
    method GetGlobalRecords(q: Query, req: Request) returns (r: Lookup, f: Fetch)
      ensures Reads(client.store, KeyOf(req), f)
      ensures r == GlobalLookup(cfg, q, req, f)
      ensures client.Works(KeyOf(req)) ==> r != Failed(ReadFailed)
    {
      f := Unreadable;
      if |req.namespace| == 0 || |req.service| == 0 {
        return Failed(NoItems), f;
      }
      if |req.hostname| > 0 && req.cluster == "" {
        return Failed(InvalidRequest), f;
      }
      var fetched := client.Get(KeyOf(req));
      f := fetched;
      if fetched.NotFound? {
        return Failed(NoItems), f;
      } else if fetched.Unreadable? {
        return Failed(ReadFailed), f;
      }
      var spec := fetched.content.spec;
      var headless, clusterName := req.cluster != "", req.cluster;
      if headless {
        if spec.kind != Headless {
          return Failed(InvalidRequest), f;
        }
      } else {
        clusterName := cfg.cluster.name;
      }
      var exist, clusterMatched, inZone, inRegion := Scan(q, spec.endpoints, headless, clusterName, req.hostname);
      if headless {
        if !exist {
          return Failed(NoItems), f;
        }
        return Records(clusterMatched), f;
      }
      if |clusterMatched| > 0 {
        r := Records(clusterMatched);
      } else if |inZone| > 0 {
        r := Records(inZone);
      } else if |inRegion| > 0 {
        r := Records(inRegion);
      } else {
        var all: seq<Record> := [];
        for i := 0 to |spec.endpoints|
          invariant all == AllRecords(cfg, q, spec.endpoints[..i])
        {
          Grow(spec.endpoints, i);
          var rs := GenerateRecords(q, spec.endpoints[i]);
          all := all + rs;
        }
        assert spec.endpoints[..|spec.endpoints|] == spec.endpoints;
        r := Records(all);
      }
    }

    /** The loop over the endpoints: the first case of the switch that applies takes the endpoint. */
    method Scan(q: Query, es: seq<Endpoint>, headless: bool, clusterName: string, hostname: string)
      returns (exist: bool, clusterMatched: seq<Record>, inZone: seq<Record>, inRegion: seq<Record>)
      ensures headless ==>
                && (exist <==> Matching(es, Pod(clusterName, hostname)) != [])
                && clusterMatched == Matched(cfg, q, es, Pod(clusterName, hostname))
      ensures !headless ==> clusterMatched == Matched(cfg, q, es, InCluster(clusterName))
      ensures !headless && clusterMatched == [] ==> inZone == Matched(cfg, q, es, InZone(cfg.cluster.zone))
      ensures !headless && clusterMatched == [] && inZone == [] ==>
                inRegion == Matched(cfg, q, es, InRegion(cfg.cluster.region))
    {
      ghost var pod := Pod(clusterName, hostname);
      exist, clusterMatched, inZone, inRegion := false, [], [], [];
      for i := 0 to |es|
        invariant headless ==> (exist <==> Matching(es[..i], pod) != [])
        invariant headless ==> clusterMatched == Matched(cfg, q, es[..i], pod)
        invariant !headless ==> Tiered(cfg, q, es[..i], clusterName, clusterMatched, inZone, inRegion)
      {
        var e := es[i];
        Grow(es, i);
        if headless {
          MatchedNext(cfg, q, es, i, pod);
        } else {
          TieredNext(cfg, q, es, i, clusterName, clusterMatched, inZone, inRegion);
        }
        var rs := GenerateRecords(q, e);
        if e.cluster == clusterName {
          if headless {
            if e.hostname.Some? && e.hostname.value == hostname {
              exist := true;
              clusterMatched := clusterMatched + rs;
            }
          } else {
            clusterMatched := clusterMatched + rs;
          }
        } else if e.zone == cfg.cluster.zone {
          inZone := inZone + rs;
        } else if e.region == cfg.cluster.region {
          inRegion := inRegion + rs;
        }
      }
      assert es[..|es|] == es;
    }

    method GetAdHocRecords(q: Query, req: Request) returns (r: Lookup, f: Fetch)
      ensures Reads(client.store, KeyOf(req), f)
      ensures r == AdHocLookup(cfg, q, req, f)
      ensures client.Works(KeyOf(req)) ==> r != Failed(ReadFailed)
    {
      var fetched := client.Get(KeyOf(req));
      f := fetched;
      if fetched.NotFound? {
        return Failed(NoItems), f;
      } else if fetched.Unreadable? {
        return Failed(ReadFailed), f;
      }
      var es := fetched.content.spec.endpoints;
      var clusterMatched: seq<Record> := [];
      for i := 0 to |es|
        invariant clusterMatched == Matched(cfg, q, es[..i], InCluster(req.cluster))
      {
        MatchedNext(cfg, q, es, i, InCluster(req.cluster));
        if es[i].cluster == req.cluster {
          var rs := GenerateRecords(q, es[i]);
          clusterMatched := clusterMatched + rs;
        }
      }
      assert es[..|es|] == es;
      r := Records(clusterMatched);
    }

    method ServeDNS(q: Query, inZone: bool, fallthrough: bool) returns (reply: Reply, f: Fetch)
      ensures Parse(q.labels).Some? ==> Reads(client.store, KeyOf(Parse(q.labels).value), f)
      ensures reply == Expected(cfg, q, inZone, fallthrough, f)
      ensures Parse(q.labels).Some? && client.Works(KeyOf(Parse(q.labels).value)) ==> reply != Error(ServerFailure)
      ensures Parse(q.labels).None? ==> reply != Error(ServerFailure)
    {
      f := Unreadable;
      if !inZone {
        return NextOr(fallthrough, NotZone), f;
      }
      if q.qtype != A && q.qtype != AAAA {
        return NextOr(fallthrough, NotImplemented), f;
      }
      var parsed := Parse(q.labels);
      if parsed.None? {
        return Error(NameError), f;
      }
      var r;
      if parsed.value.isAdHoc {
        r, f := GetAdHocRecords(q, parsed.value);
      } else {
        r, f := GetGlobalRecords(q, parsed.value);
      }
      match r {
        case Records(rs) => reply := Answer(rs);
        case Failed(why) => reply := if why == ReadFailed then Error(ServerFailure) else NextOr(fallthrough, NameError);
      }
    }
  }

  lemma {:induction false} NoRecords(cfg: Config, q: Query, addresses: seq<string>)
    ensures RecordsOf(cfg, q, addresses) == [] <==> forall a | a in addresses :: !Answers(cfg, q, a)
  {
    if addresses != [] {
      var rest, last := addresses[..|addresses| - 1], addresses[|addresses| - 1];
      assert addresses == rest + [last];
      NoRecords(cfg, q, rest);
    }
  }

  lemma {:induction false} NoRecordsAnywhere(cfg: Config, q: Query, es: seq<Endpoint>)
    ensures AllRecords(cfg, q, es) == [] <==> forall e, a | e in es && a in e.addresses :: !Answers(cfg, q, a)
  {
    if es != [] {
      var rest, last := es[..|es| - 1], es[|es| - 1];
      assert es == rest + [last];
      NoRecordsAnywhere(cfg, q, rest);
      NoRecords(cfg, q, last.addresses);
    }
  }

  lemma {:induction false} MatchingMembers(es: seq<Endpoint>, f: Filter)
    ensures forall e :: e in Matching(es, f) <==> e in es && Selects(f, e)
  {
    if es != [] {
      assert es == es[..|es| - 1] + [es[|es| - 1]];
      MatchingMembers(es[..|es| - 1], f);
    }
  }

  /** A query without a cluster is answered with nothing exactly when no endpoint has an address of the family. */
  lemma PreferredEmptyIff(cfg: Config, q: Query, es: seq<Endpoint>)
    ensures Preferred(cfg, q, es) == [] <==> forall e, a | e in es && a in e.addresses :: !Answers(cfg, q, a)
  {
    NoRecordsAnywhere(cfg, q, es);
    forall f ensures AllRecords(cfg, q, es) == [] ==> Matched(cfg, q, es, f) == [] {
      MatchingMembers(es, f);
      NoRecordsAnywhere(cfg, q, Matching(es, f));
    }
  }

  /** The endpoints that satisfy `p`, in order. */
  function Where(es: seq<Endpoint>, p: Endpoint -> bool): seq<Endpoint> {
    if es == [] then []
    else if p(es[0]) then [es[0]] + Where(es[1..], p)
    else Where(es[1..], p)
  }

  lemma {:induction false} WhereAppend(a: seq<Endpoint>, b: seq<Endpoint>, p: Endpoint -> bool)
    ensures Where(a + b, p) == Where(a, p) + Where(b, p)
  {
    if a == [] {
      assert a + b == b;
    } else {
      WhereAppend(a[1..], b, p);
      assert (a + b)[1..] == a[1..] + b;
    }
  }

  lemma {:induction false} MatchingIsWhere(es: seq<Endpoint>, f: Filter, p: Endpoint -> bool)
    requires forall e :: p(e) <==> Selects(f, e)
    ensures Matching(es, f) == Where(es, p)
  {
    if es != [] {
      var rest, last := es[..|es| - 1], es[|es| - 1];
      MatchingIsWhere(rest, f, p);
      WhereAppend(rest, [last], p);
      assert es == rest + [last] && [last][1..] == [];
    }
  }

  /** Some endpoint that satisfies `p` has an address of the queried family. */
  ghost predicate Usable(cfg: Config, q: Query, es: seq<Endpoint>, p: Endpoint -> bool) {
    exists e, a :: e in es && p(e) && a in e.addresses && Answers(cfg, q, a)
  }

  lemma UsableIffRecords(cfg: Config, q: Query, es: seq<Endpoint>, f: Filter, p: Endpoint -> bool)
    requires forall e :: p(e) <==> Selects(f, e)
    ensures Matched(cfg, q, es, f) == AllRecords(cfg, q, Where(es, p))
    ensures Matched(cfg, q, es, f) != [] <==> Usable(cfg, q, es, p)
  {
    MatchingIsWhere(es, f, p);
    MatchingMembers(es, f);
    NoRecordsAnywhere(cfg, q, Matching(es, f));
  }

  /** The order of preference, in terms of the endpoints' own fields: the resolver's cluster if it has a usable address,
      else its zone if that has one, else its region if that has one, else every endpoint. */
  lemma NearestFirst(cfg: Config, q: Query, es: seq<Endpoint>)
    ensures var c, z, r := cfg.cluster.name, cfg.cluster.zone, cfg.cluster.region;
            var inCluster, inZone, inRegion :=
              (e: Endpoint) => e.cluster == c, (e: Endpoint) => e.zone == z, (e: Endpoint) => e.region == r;
            && (Usable(cfg, q, es, inCluster) ==> Preferred(cfg, q, es) == AllRecords(cfg, q, Where(es, inCluster)))
            && (!Usable(cfg, q, es, inCluster) && Usable(cfg, q, es, inZone) ==>
                  Preferred(cfg, q, es) == AllRecords(cfg, q, Where(es, inZone)))
            && (!Usable(cfg, q, es, inCluster) && !Usable(cfg, q, es, inZone) && Usable(cfg, q, es, inRegion) ==>
                  Preferred(cfg, q, es) == AllRecords(cfg, q, Where(es, inRegion)))
            && (!Usable(cfg, q, es, inCluster) && !Usable(cfg, q, es, inZone) && !Usable(cfg, q, es, inRegion) ==>
                  Preferred(cfg, q, es) == AllRecords(cfg, q, es))
  {
    var c, z, r := cfg.cluster.name, cfg.cluster.zone, cfg.cluster.region;
    UsableIffRecords(cfg, q, es, InCluster(c), (e: Endpoint) => e.cluster == c);
    UsableIffRecords(cfg, q, es, InZone(z), (e: Endpoint) => e.zone == z);
    UsableIffRecords(cfg, q, es, InRegion(r), (e: Endpoint) => e.region == r);
  }

  /** An endpoint of the resolver's own cluster with an address of the family keeps every other cluster out. */
  lemma OwnClusterFirst(cfg: Config, q: Query, es: seq<Endpoint>, e: Endpoint, a: string)
    requires e in es && e.cluster == cfg.cluster.name && a in e.addresses && Answers(cfg, q, a)
    ensures Preferred(cfg, q, es) == AllRecords(cfg, q, Matching(es, InCluster(cfg.cluster.name))) != []
  {
    MatchingMembers(es, InCluster(cfg.cluster.name));
    NoRecordsAnywhere(cfg, q, Matching(es, InCluster(cfg.cluster.name)));
  }

  /** The name of a pod exists exactly when its service is there, is headless and has an endpoint with that cluster and
      hostname; an existing name is answered, possibly with nothing (section 2.2 of RFC 2308). The resolver's own
      place does not matter. */
  lemma HeadlessNameExists(cfg: Config, q: Query, f: Fetch, place: ClusterInfo)
    requires q.qtype != OtherType && |q.labels| == 6 && (forall l | l in q.labels :: l != "") && !f.Unreadable?
    ensures var reply := Expected(cfg, q, true, false, f);
            && (reply == Negative(NameError) <==>
                  !(f.Found? && f.content.spec.kind == Headless
                    && exists e :: e in f.content.spec.endpoints
                                   && e.cluster == q.labels[1] && e.hostname == Some(q.labels[0])))
            && (reply.Answer? || reply == Negative(NameError))
            && reply == Expected(cfg.(cluster := place), q, true, false, f)
  {
    assert q.labels[0] in q.labels && q.labels[1] in q.labels && q.labels[2] in q.labels && q.labels[3] in q.labels;
    if f.Found? {
      var es, pod := f.content.spec.endpoints, Pod(q.labels[1], q.labels[0]);
      MatchingMembers(es, pod);
      assert Matching(es, pod) == [] || Matching(es, pod)[0] in Matching(es, pod);
      PlaceIrrelevant(cfg, q, Matching(es, pod), place);
    }
  }

  /** What is not an answer: outside the zone, for another query type and for a name that does not exist, the query is
      left to the next plugin or refused with its own code; a name of no known form and a failed read are errors that
      never fall through. */
  lemma RefusalCodes(cfg: Config, q: Query, inZone: bool, fallthrough: bool, f: Fetch)
    ensures var reply := Expected(cfg, q, inZone, fallthrough, f);
            && (!inZone ==> reply == if fallthrough then Forwarded else Negative(NotZone))
            && (inZone && q.qtype == OtherType ==> reply == if fallthrough then Forwarded else Negative(NotImplemented))
            && (inZone && q.qtype != OtherType && |q.labels| !in {4, 5, 6} ==> reply == Error(NameError))
  {
  }

  lemma RefusalCodesOfReads(cfg: Config, q: Query, fallthrough: bool, f: Fetch)
    requires q.qtype != OtherType && |q.labels| in {4, 5, 6} && forall l | l in q.labels :: l != ""
    ensures var reply := Expected(cfg, q, true, fallthrough, f);
            match f
            case Unreadable => reply == Error(ServerFailure)
            case NotFound => reply == if fallthrough then Forwarded else Negative(NameError)
            case Found(_) => reply.Answer? || reply == if fallthrough then Forwarded else Negative(NameError)
  {
    assert forall i | 0 <= i < |q.labels| :: q.labels[i] in q.labels;
  }

  /** A name that lacks its service or namespace, or has a hostname without a cluster, is unknown without a read. */
  lemma IncompleteNames(cfg: Config, q: Query, fallthrough: bool, f: Fetch)
    requires q.qtype != OtherType
    requires || (|q.labels| == 6
                 && (q.labels[2] == "" || q.labels[3] == "" || (q.labels[0] != "" && q.labels[1] == "")))
             || (|q.labels| == 4 && q.labels[2] == "svc" && (q.labels[0] == "" || q.labels[1] == ""))
    ensures Expected(cfg, q, true, fallthrough, f) == if fallthrough then Forwarded else Negative(NameError)
  {
  }

  /** A service name exists exactly when its service does; an existing name without addresses of the family is answered
      with nothing, not with an error (sections 2.1 and 2.2 of RFC 2308). */
  lemma ServiceNameExists(cfg: Config, q: Query, service: string, namespace: string, zone: string, f: Fetch)
    requires q.qtype != OtherType && q.labels == Render(Global(service, namespace), [zone])
    requires service != "" && namespace != "" && !f.Unreadable?
    ensures var reply := Expected(cfg, q, true, false, f);
            && (reply == Negative(NameError) <==> f.NotFound?)
            && (reply == Answer([]) <==> f.Found? && forall e, a | e in f.content.spec.endpoints && a in e.addresses ::
                                                       !Answers(cfg, q, a))
            && (reply.Answer? || reply == Negative(NameError))
  {
    RoundTrip(Global(service, namespace), zone);
    if f.Found? {
      PreferredEmptyIff(cfg, q, f.content.spec.endpoints);
    }
  }

  lemma {:induction false} PlaceIrrelevant(cfg: Config, q: Query, es: seq<Endpoint>, place: ClusterInfo)
    ensures AllRecords(cfg, q, es) == AllRecords(cfg.(cluster := place), q, es)
  {
    if es != [] {
      PlaceIrrelevant(cfg, q, es[..|es| - 1], place);
      RecordsPlaceIrrelevant(cfg, q, es[|es| - 1].addresses, place);
    }
  }

  lemma {:induction false} RecordsPlaceIrrelevant(cfg: Config, q: Query, addresses: seq<string>, place: ClusterInfo)
    ensures RecordsOf(cfg, q, addresses) == RecordsOf(cfg.(cluster := place), q, addresses)
  {
    if addresses != [] {
      RecordsPlaceIrrelevant(cfg, q, addresses[..|addresses| - 1], place);
    }
  }

  // --- Address families ---

  function Data(rs: seq<Record>): seq<Ip> {
    if rs == [] then [] else Data(rs[..|rs| - 1]) + [rs[|rs| - 1].data]
  }

  /** The parseable addresses of a list, in order. */
  function Parsed(cfg: Config, addresses: seq<string>): seq<Ip> {
    if addresses == [] then []
    else
      var rest, last := Parsed(cfg, addresses[..|addresses| - 1]), cfg.parseIp(addresses[|addresses| - 1]);
      if last.Some? then rest + [last.value] else rest
  }

  function AllParsed(cfg: Config, es: seq<Endpoint>): seq<Ip> {
    if es == [] then [] else AllParsed(cfg, es[..|es| - 1]) + Parsed(cfg, es[|es| - 1].addresses)
  }

  function Family(ips: seq<Ip>, qtype: QType): seq<Ip> {
    if ips == [] then []
    else if OfFamily(qtype, ips[|ips| - 1]) then Family(ips[..|ips| - 1], qtype) + [ips[|ips| - 1]]
    else Family(ips[..|ips| - 1], qtype)
  }

  lemma {:induction false} DataAppend(a: seq<Record>, b: seq<Record>)
    ensures Data(a + b) == Data(a) + Data(b)
  {
    if b == [] {
      assert a + b == a;
    } else {
      DataAppend(a, b[..|b| - 1]);
      assert (a + b)[..|a + b| - 1] == a + b[..|b| - 1];
    }
  }

  lemma {:induction false} FamilyAppend(a: seq<Ip>, b: seq<Ip>, qtype: QType)
    ensures Family(a + b, qtype) == Family(a, qtype) + Family(b, qtype)
  {
    if b == [] {
      assert a + b == a;
    } else {
      FamilyAppend(a, b[..|b| - 1], qtype);
      assert (a + b)[..|a + b| - 1] == a + b[..|b| - 1];
    }
  }

  /** One address gives one record, if it is an IPv4 address asked for by an A query (section 3.4.1 of RFC 1035) or an
      IPv6 address asked for by an AAAA query (section 2.1 of RFC 3596), and none otherwise. */
  lemma OneAddress(cfg: Config, q: Query, a: string)
    ensures var ip := cfg.parseIp(a);
            RecordsOf(cfg, q, [a])
            == if (q.qtype == A && ip.Some? && ip.value.V4?) || (q.qtype == AAAA && ip.Some? && ip.value.V6?)
               then [Record(q.name, q.qtype, q.qclass, cfg.ttl, ip.value)] else []
  {
    assert [a][..0] == [];
    assert RecordsOf(cfg, q, []) == [];
  }

  /** The addresses of an endpoint, and the endpoints of a list, give their records one after the other. */
  lemma {:induction false} RecordsAppend(cfg: Config, q: Query, a: seq<string>, b: seq<string>)
    ensures RecordsOf(cfg, q, a + b) == RecordsOf(cfg, q, a) + RecordsOf(cfg, q, b)
  {
    if b == [] {
      assert a + b == a;
    } else {
      RecordsAppend(cfg, q, a, b[..|b| - 1]);
      assert (a + b)[..|a + b| - 1] == a + b[..|b| - 1];
    }
  }

  /** An A record holds an IPv4 address and an AAAA record an IPv6 address, one that some endpoint lists. */
  lemma {:induction false} AnswerHoldsFamily(cfg: Config, q: Query, es: seq<Endpoint>)
    ensures forall r | r in AllRecords(cfg, q, es) ::
              && q.qtype != OtherType && (q.qtype == A ==> r.data.V4?) && (q.qtype == AAAA ==> r.data.V6?)
              && exists e, a :: e in es && a in e.addresses && cfg.parseIp(a) == Some(r.data)
    ensures forall e, a, ip | e in es && a in e.addresses && cfg.parseIp(a) == Some(ip)
                              && ((q.qtype == A && ip.V4?) || (q.qtype == AAAA && ip.V6?)) ::
              Record(q.name, q.qtype, q.qclass, cfg.ttl, ip) in AllRecords(cfg, q, es)
  {
    if es != [] {
      var rest, last := es[..|es| - 1], es[|es| - 1];
      assert es == rest + [last];
      AnswerHoldsFamily(cfg, q, rest);
      EndpointHoldsFamily(cfg, q, last.addresses);
    }
  }

  lemma {:induction false} EndpointHoldsFamily(cfg: Config, q: Query, addresses: seq<string>)
    ensures forall r | r in RecordsOf(cfg, q, addresses) ::
              && q.qtype != OtherType && (q.qtype == A ==> r.data.V4?) && (q.qtype == AAAA ==> r.data.V6?)
              && exists a :: a in addresses && cfg.parseIp(a) == Some(r.data)
    ensures forall a, ip | a in addresses && cfg.parseIp(a) == Some(ip)
                           && ((q.qtype == A && ip.V4?) || (q.qtype == AAAA && ip.V6?)) ::
              Record(q.name, q.qtype, q.qclass, cfg.ttl, ip) in RecordsOf(cfg, q, addresses)
  {
    if addresses != [] {
      var rest, last := addresses[..|addresses| - 1], addresses[|addresses| - 1];
      assert addresses == rest + [last];
      EndpointHoldsFamily(cfg, q, rest);
    }
  }

  ghost predicate Headed(cfg: Config, q: Query, rs: seq<Record>) {
    forall r | r in rs :: r.name == q.name && r.rtype == q.qtype && r.qclass == q.qclass && r.ttl == cfg.ttl
  }

  lemma {:induction false} RecordsAreFamily(cfg: Config, q: Query, addresses: seq<string>)
    ensures Data(RecordsOf(cfg, q, addresses)) == Family(Parsed(cfg, addresses), q.qtype)
    ensures Headed(cfg, q, RecordsOf(cfg, q, addresses))
  {
    if addresses != [] {
      RecordsAreFamily(cfg, q, addresses[..|addresses| - 1]);
    }
  }

  /** The answer is the parseable addresses of the queried family, in order, each under the query's name and class. */
  lemma {:induction false} AnswerIsFamily(cfg: Config, q: Query, es: seq<Endpoint>)
    ensures Data(AllRecords(cfg, q, es)) == Family(AllParsed(cfg, es), q.qtype)
    ensures Headed(cfg, q, AllRecords(cfg, q, es))
  {
    if es != [] {
      var rest, last := es[..|es| - 1], es[|es| - 1].addresses;
      AnswerIsFamily(cfg, q, rest);
      RecordsAreFamily(cfg, q, last);
      DataAppend(AllRecords(cfg, q, rest), RecordsOf(cfg, q, last));
      FamilyAppend(AllParsed(cfg, rest), Parsed(cfg, last), q.qtype);
    }
  }

  lemma {:induction false} FamiliesPartition(ips: seq<Ip>)
    ensures multiset(Family(ips, A)) + multiset(Family(ips, AAAA)) == multiset(ips)
  {
    if ips != [] {
      FamiliesPartition(ips[..|ips| - 1]);
      assert ips == ips[..|ips| - 1] + [ips[|ips| - 1]];
    }
  }

  /** Across the A and the AAAA answer each parseable address gives exactly one record, and none is made up. */
  lemma AnswersPartition(cfg: Config, q: Query, es: seq<Endpoint>)
    ensures multiset(Data(AllRecords(cfg, q.(qtype := A), es))) + multiset(Data(AllRecords(cfg, q.(qtype := AAAA), es)))
         == multiset(AllParsed(cfg, es))
  {
    AnswerIsFamily(cfg, q.(qtype := A), es);
    AnswerIsFamily(cfg, q.(qtype := AAAA), es);
    FamiliesPartition(AllParsed(cfg, es));
  }

  /** The preferred and the deprecated spelling of an ad hoc name are answered with the same addresses. */
  lemma SpellingsAnswerAlike(cfg: Config, q: Query, p: Query, service: string, namespace: string, cluster: string,
                             zone: string, f: Fetch)
    requires cluster != LABEL_SVC && q.qtype == p.qtype != OtherType && f.Found?
    requires q.labels == Render(AdHoc(cluster, service, namespace), [zone])
    requires p.labels == Render(Deprecated(service, namespace, cluster), [zone])
    ensures var a, b := Expected(cfg, q, true, false, f), Expected(cfg, p, true, false, f);
            a.Answer? && b.Answer? && Data(a.records) == Data(b.records)
  {
    RoundTrip(AdHoc(cluster, service, namespace), zone);
    RoundTrip(Deprecated(service, namespace, cluster), zone);
    var es := Matching(f.content.spec.endpoints, InCluster(cluster));
    AnswerIsFamily(cfg, q, es);
    AnswerIsFamily(cfg, p, es);
  }
}
