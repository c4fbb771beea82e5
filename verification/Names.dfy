/** Query names: the four documented forms and how a name is read back into a request. */
module Names {
  import opened Model

  const LABEL_SVC := "svc"

  datatype Request = Request(hostname: string, cluster: string, service: string, namespace: string, isAdHoc: bool)

  /** Reads a name, given as its labels, into a request. */
  function Parse(labels: seq<string>): Option<Request> {
    if |labels| == 6 then Some(Request(labels[0], labels[1], labels[2], labels[3], false))
    else if |labels| == 5 then Some(Request("", labels[0], labels[1], labels[2], true))
    else if |labels| == 4 && labels[2] == LABEL_SVC then Some(Request("", "", labels[0], labels[1], false))
    else if |labels| == 4 then Some(Request("", labels[2], labels[0], labels[1], true))
    else None
  }

  datatype Name =
    | Global(service: string, namespace: string)
    | AdHoc(cluster: string, service: string, namespace: string)
    | Host(hostname: string, cluster: string, service: string, namespace: string)
    | Deprecated(service: string, namespace: string, cluster: string)

  function Render(n: Name, zone: seq<string>): seq<string> {
    match n
    case Global(s, ns) => [s, ns, LABEL_SVC] + zone
    case AdHoc(c, s, ns) => [c, s, ns, LABEL_SVC] + zone
    case Host(h, c, s, ns) => [h, c, s, ns, LABEL_SVC] + zone
    case Deprecated(s, ns, c) => [s, ns, c] + zone
  }

  function Meaning(n: Name): Request {
    match n
    case Global(s, ns) => Request("", "", s, ns, false)
    case AdHoc(c, s, ns) => Request("", c, s, ns, true)
    case Host(h, c, s, ns) => Request(h, c, s, ns, false)
    case Deprecated(s, ns, c) => Request("", c, s, ns, true)
  }

  /** Under a single-label zone every form reads back as what it means, except a deprecated name of a cluster called
      "svc". */
  lemma RoundTrip(n: Name, zone: string)
    ensures Parse(Render(n, [zone])) == Some(Meaning(n)) <==> !(n.Deprecated? && n.cluster == LABEL_SVC)
  {
  }

  /** Conversely, the labels of an accepted name are the fields of its request, in one of these places. */
  lemma AcceptedReadsItsLabels(labels: seq<string>)
    requires Parse(labels).Some?
    ensures var r, zone := Parse(labels).value, labels[|labels| - 1];
            || (labels == [r.service, r.namespace, "svc", zone]
                && r.hostname == "" && r.cluster == "" && !r.isAdHoc)
            || (labels == [r.service, r.namespace, r.cluster, zone]
                && r.hostname == "" && r.cluster != "svc" && r.isAdHoc)
            || (labels == [r.cluster, r.service, r.namespace, labels[3], zone] && r.hostname == "" && r.isAdHoc)
            || (labels == [r.hostname, r.cluster, r.service, r.namespace, labels[4], zone] && !r.isAdHoc)
  {
  }

  /** A name is rejected exactly when its label count is none of 4, 5 and 6. */
  lemma RejectedIff(labels: seq<string>)
    ensures Parse(labels) == None <==> |labels| !in {4, 5, 6}
  {
  }

  /** The preferred and the deprecated spelling are the same request. */
  lemma SpellingsAgree(service: string, namespace: string, cluster: string, zone: string)
    requires cluster != LABEL_SVC
    ensures Parse(Render(Deprecated(service, namespace, cluster), [zone]))
         == Parse(Render(AdHoc(cluster, service, namespace), [zone]))
  {
  }

  /** `labels` is the name `n` under its last label as the zone. */
  ghost predicate Spells(n: Name, labels: seq<string>) {
    labels != [] && Render(n, [labels[|labels| - 1]]) == labels
  }

  /** The accepted names that are of no documented form are exactly those of five or six labels without "svc" in its
      place: the parser does not look at that label. */
  lemma AcceptedIsDocumentedIff(labels: seq<string>)
    requires Parse(labels).Some?
    ensures (exists n :: Spells(n, labels)) <==> |labels| == 4 || labels[|labels| - 2] == LABEL_SVC
  {
    if |labels| == 4 {
      assert Spells(Deprecated(labels[0], labels[1], labels[2]), labels);
    } else if labels[|labels| - 2] == LABEL_SVC {
      if |labels| == 5 {
        assert Spells(AdHoc(labels[0], labels[1], labels[2]), labels);
      } else {
        assert Spells(Host(labels[0], labels[1], labels[2], labels[3]), labels);
      }
    } else {
      forall n ensures !Spells(n, labels) {
        var r := Render(n, [labels[|labels| - 1]]);
        if |r| == |labels| {
          assert r[|r| - 2] == LABEL_SVC;
        }
      }
    }
  }

  /** A plain service name reads back as itself only when the zone is a single label. */
  lemma ZoneMustBeOneLabel(service: string, namespace: string, zone: seq<string>)
    requires service != ""
    ensures Parse(Render(Global(service, namespace), zone)) == Some(Meaning(Global(service, namespace)))
       <==> |zone| == 1
  {
  }
}
