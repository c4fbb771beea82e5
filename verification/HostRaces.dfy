/** Interleavings that break the host's guarantees when the clients do not keep their disciplines, and the proof that
    these disciplines are exactly what each guarantee needs. */
module HostRaces {
  import opened Model
  import opened Endpoints
  import opened Registry
  import opened Leases
  import opened Host
  import opened HostPasses
  import opened HostLeases

  function Two(c: string, first: Kind, firstPhase: Phase, second: Kind, secondPhase: Phase): map<nat, Request> {
    map[0 := Request(c, first, firstPhase), 1 := Request(c, second, secondPhase)]
  }

  lemma MovedTwo(c: string, a: Kind, p: Phase, b: Kind, q: Phase, next: Phase)
    ensures Two(c, a, p, b, q)[0 := Two(c, a, p, b, q)[0].(phase := next)] == Two(c, a, next, b, q)
    ensures Two(c, a, p, b, q)[1 := Two(c, a, p, b, q)[1].(phase := next)] == Two(c, a, p, b, next)
  {
  }

  lemma LastUpdateWins<K, V>(m: map<K, V>, k: K, u: V, v: V)
    ensures m[k := u][k := v] == m[k := v]
  {
  }

  lemma SampleOne(cfg: Config, s: State, id: nat)
    requires Reachable(cfg, s) && id in s.requests && s.requests[id].phase == Arrived
    requires cfg.disjointRenewals ==> !Renewing(s, s.requests[id].cluster)
    ensures Reachable(cfg, DoSample(s, id))
  {
    ReachableStep(cfg, s, Sample(id));
  }

  lemma RecordOne(cfg: Config, s: State, id: nat)
    requires Reachable(cfg, s) && id in s.requests && s.requests[id].phase.Sampled?
    ensures Reachable(cfg, DoRecord(cfg, s, id))
  {
    ReachableStep(cfg, s, Record(id));
  }

  lemma WorkOne(cfg: Config, s: State, id: nat)
    requires Reachable(cfg, s) && id in s.requests && s.requests[id].phase == Admitted
    ensures Reachable(cfg, DoWork(s, id, true))
  {
    ReachableStep(cfg, s, Work(id, true));
  }

  lemma TickOne(cfg: Config, s: State, elapsed: nat)
    requires Reachable(cfg, s)
    ensures Reachable(cfg, s.(now := s.now + elapsed))
  {
    ReachableStep(cfg, s, Tick(elapsed));
  }

  lemma ArriveBoth(cfg: Config, s: State, c: string, first: Kind, second: Kind) returns (t: State)
    requires Reachable(cfg, s) && s.requests == map[]
    requires cfg.disjointKeys ==> first.Beat? || second.Beat?
    requires first.Upload? ==> TaggedWith(first.spec.endpoints, c)
    requires second.Upload? ==> TaggedWith(second.spec.endpoints, c)
    ensures Reachable(cfg, t) && t == s.(requests := Two(c, first, Arrived, second, Arrived))
  {
    ReachableStep(cfg, s, Arrive(0, c, first));
    t := Step(cfg, s, Arrive(0, c, first));
    ReachableStep(cfg, t, Arrive(1, c, second));
    t := Step(cfg, t, Arrive(1, c, second));
  }

  lemma SampleFirst(cfg: Config, s: State, c: string, first: Kind, second: Kind) returns (t: State)
    requires Reachable(cfg, s) && s.requests == Two(c, first, Arrived, second, Arrived)
    requires c != "" && !cfg.disjointRenewals
    ensures Reachable(cfg, t)
    ensures t == s.(requests := Two(c, first, Sampled(s.now), second, Arrived),
                    table := Known(s.table, c), sampled := s.sampled[c := s.now])
  {
    SampleOne(cfg, s, 0);
    t := DoSample(s, 0);
    MovedTwo(c, first, Arrived, second, Arrived, Sampled(s.now));
  }

  /** The second request reads the clock `elapsed` later. */
  lemma SampleBoth(cfg: Config, s: State, c: string, first: Kind, second: Kind, elapsed: nat) returns (t: State)
    requires Reachable(cfg, s) && s.requests == Two(c, first, Arrived, second, Arrived)
    requires c != "" && !cfg.disjointRenewals
    ensures Reachable(cfg, t)
    ensures t == s.(requests := Two(c, first, Sampled(s.now), second, Sampled(s.now + elapsed)),
                    table := Known(s.table, c), sampled := s.sampled[c := s.now + elapsed], now := s.now + elapsed)
  {
    var once := SampleFirst(cfg, s, c, first, second);
    TickOne(cfg, once, elapsed);
    var later := once.(now := s.now + elapsed);
    assert c in later.table;
    t := SampleSecond(cfg, later, c, first, Sampled(s.now), second);
    LastUpdateWins(s.sampled, c, s.now, s.now + elapsed);
    assert t.sampled == s.sampled[c := s.now + elapsed];
  }

  lemma SampleSecond(cfg: Config, s: State, c: string, first: Kind, p: Phase, second: Kind) returns (t: State)
    requires Reachable(cfg, s) && s.requests == Two(c, first, p, second, Arrived)
    requires c != "" && c in s.table && !cfg.disjointRenewals
    ensures Reachable(cfg, t)
    ensures t == s.(requests := Two(c, first, p, second, Sampled(s.now)), sampled := s.sampled[c := s.now])
  {
    SampleOne(cfg, s, 1);
    t := DoSample(s, 1);
    MovedTwo(c, first, p, second, Arrived, Sampled(s.now));
  }

  /** The second request records its deadline first. */
  lemma RecordBackwards(cfg: Config, s: State, c: string, first: Kind, second: Kind) returns (t: State)
    requires Reachable(cfg, s) && c in s.table
    requires s.requests.Keys == {0, 1} && s.requests[0].phase.Sampled? && s.requests[1].phase.Sampled?
    requires s.requests == Two(c, first, s.requests[0].phase, second, s.requests[1].phase)
    ensures Reachable(cfg, t)
    ensures t == s.(requests := Two(c, first, Admitted, second, Admitted),
                    table := WithDeadline(s.table, c, s.requests[0].phase.t + cfg.duration),
                    recorded := s.recorded[c := s.requests[0].phase.t])
  {
    var p, q := s.requests[0].phase, s.requests[1].phase;
    RecordOne(cfg, s, 1);
    t := DoRecord(cfg, s, 1);
    MovedTwo(c, first, p, second, q, Admitted);
    RecordOne(cfg, t, 0);
    t := DoRecord(cfg, t, 0);
    MovedTwo(c, first, p, second, Admitted, Admitted);
    LastUpdateWins(s.recorded, c, q.t, p.t);
    LastUpdateWins(s.table, c, s.table[c].(deadline := q.t + cfg.duration),
                   s.table[c].(deadline := p.t + cfg.duration));
  }

  /** One request renews the lease after the other. */
  lemma RenewBoth(cfg: Config, s: State, c: string, first: Kind, second: Kind) returns (t: State)
    requires Reachable(cfg, s) && s.requests == Two(c, first, Arrived, second, Arrived) && c != "" && s.table == map[]
    ensures Reachable(cfg, t) && t.requests == Two(c, first, Admitted, second, Admitted)
    ensures t.services == s.services && c in t.table
  {
    SampleOne(cfg, s, 0);
    t := DoSample(s, 0);
    MovedTwo(c, first, Arrived, second, Arrived, Sampled(s.now));
    RecordOne(cfg, t, 0);
    t := DoRecord(cfg, t, 0);
    MovedTwo(c, first, Sampled(s.now), second, Arrived, Admitted);
    assert !Renewing(t, c);
    t := RenewSecond(cfg, t, c, first, second);
  }

  lemma RenewSecond(cfg: Config, s: State, c: string, first: Kind, second: Kind) returns (t: State)
    requires Reachable(cfg, s) && s.requests == Two(c, first, Admitted, second, Arrived) && c != "" && c in s.table
    ensures Reachable(cfg, t) && t.requests == Two(c, first, Admitted, second, Admitted)
    ensures t.services == s.services && c in t.table
  {
    SampleOne(cfg, s, 1);
    t := DoSample(s, 1);
    MovedTwo(c, first, Admitted, second, Arrived, Sampled(s.now));
    RecordOne(cfg, t, 1);
    t := DoRecord(cfg, t, 1);
    MovedTwo(c, first, Admitted, second, Sampled(s.now), Admitted);
  }

  /** A delete that overlaps an upload of the same cluster and key can leave an endpoint that nothing tracks, even if
      the two renew the lease one after the other. */
  lemma OverlappingRequestsLoseTracking(cfg: Config, c: string, key: Key, spec: Spec) returns (s: State)
    requires c != "" && c != cfg.own && !cfg.disjointKeys
    requires key.name != "" && key.namespace != "" && spec.ports != [] && spec.endpoints != []
    requires TaggedWith(spec.endpoints, c)
    ensures Reachable(cfg, s) && s.requests == map[] && !Tracking(cfg, s)
  {
    var del, up := Delete(key), Upload(key, spec);
    s := Initial(1);
    assert Possible(cfg, s, []) && After(cfg, s, []) == s;
    s := ArriveBoth(cfg, s, c, del, up);
    s := RenewBoth(cfg, s, c, del, up);
    s := WorkBoth(cfg, s, c, key, spec);
    s := FinishBackwards(cfg, s, c, key, spec);
    var e := spec.endpoints[0];
    assert e in s.services[key].endpoints && e.cluster == c && !Covered(s, c, key);
  }

  function Foreign(cfg: Config): string {
    if cfg.own == "a" then "b" else "a"
  }

  /** The host always tracks every foreign endpoint if and only if no cluster's requests for one key overlap. */
  lemma TrackedIffDisjointKeys(cfg: Config)
    ensures (forall s | Reachable(cfg, s) :: Tracking(cfg, s)) <==> cfg.disjointKeys
  {
    if cfg.disjointKeys {
      forall s | Reachable(cfg, s) ensures Tracking(cfg, s) {
        var start, trace :| Possible(cfg, Initial(start), trace) && After(cfg, Initial(start), trace) == s;
        TrackingAlways(cfg, start, trace);
      }
    } else {
      var c := Foreign(cfg);
      var spec := Spec(ClusterIP, [Port("", 0, "", None)], [Endpoint([], None, None, c, "", "")]);
      var s := OverlappingRequestsLoseTracking(cfg, c, Key("n", "s"), spec);
    }
  }

  lemma WorkBoth(cfg: Config, s: State, c: string, key: Key, spec: Spec) returns (t: State)
    requires Reachable(cfg, s) && s.services == map[]
    requires s.requests == Two(c, Delete(key), Admitted, Upload(key, spec), Admitted)
    requires key.name != "" && key.namespace != "" && spec.ports != [] && spec.endpoints != []
    ensures Reachable(cfg, t)
    ensures t == s.(requests := Two(c, Delete(key), Applied, Upload(key, spec), Applied), services := map[key := spec])
  {
    assert Outside([], {c}) == [] && [] + spec.endpoints == spec.endpoints;
    WorkOne(cfg, s, 0);
    t := DoWork(s, 0, true);
    MovedTwo(c, Delete(key), Admitted, Upload(key, spec), Admitted, Applied);
    WorkOne(cfg, t, 1);
    t := DoWork(t, 1, true);
    MovedTwo(c, Delete(key), Applied, Upload(key, spec), Admitted, Applied);
    assert t.services == map[key := spec];
  }

  lemma FinishBackwards(cfg: Config, s: State, c: string, key: Key, spec: Spec) returns (t: State)
    requires Reachable(cfg, s) && c in s.table
    requires s.requests == Two(c, Delete(key), Applied, Upload(key, spec), Applied)
    ensures Reachable(cfg, t) && t.requests == map[] && t.services == s.services
    ensures c in t.table && key !in t.table[c].keys
  {
    ReachableStep(cfg, s, Finish(1));
    t := Step(cfg, s, Finish(1));
    assert t.requests == map[0 := Request(c, Delete(key), Applied)];
    ReachableStep(cfg, t, Finish(0));
    t := Step(cfg, t, Finish(0));
  }

  /** Two renewals of one cluster may record their deadlines in the wrong order. The cleaner can then start a revoke
      with no renewal under way, although the lease duration has not passed since the later of the two. */
  lemma OverlappingRenewalsShortenLease(cfg: Config, c: string, key: Key) returns (s: State, k: Key)
    requires c != "" && c != cfg.own && !cfg.disjointRenewals
    ensures Reachable(cfg, s) && !Renewing(s, c) && StartsRevoke(cfg, s, c, k) && !PastLatest(cfg, s, c)
  {
    var before := RenewBackwards(cfg, c, key);
    assert key in before.table[c].keys;
    assert Overtaken(cfg, before, c);
    s, k := GoesEarly(cfg, before, c);
  }

  /** Even if renewals never overlap, the cleaner can start a revoke between a request's reading of the clock and the
      recording of its deadline. */
  lemma RenewalUnderWayIsTooLate(cfg: Config, c: string, key: Key) returns (s: State, k: Key)
    requires c != "" && c != cfg.own
    ensures Reachable(cfg, s) && Renewing(s, c) && StartsRevoke(cfg, s, c, k) && !PastLatest(cfg, s, c)
  {
    var before := Initial(1);
    assert Possible(cfg, before, []) && After(cfg, before, []) == before;
    before := RecoverOne(cfg, before, c, key);
    TickOne(cfg, before, 1);
    before := before.(now := 2);
    ReachableStep(cfg, before, Arrive(0, c, Beat));
    before := Step(cfg, before, Arrive(0, c, Beat));
    SampleOne(cfg, before, 0);
    before := DoSample(before, 0);
    assert before.requests[0].phase.Sampled? && Renewing(before, c);
    assert key in before.table[c].keys;
    assert Overtaken(cfg, before, c);
    s, k := GoesEarly(cfg, before, c);
  }

  /** Whatever the clients do, the lease can be renewed between the check that allows a revoke and the revoke itself.
      The revoke then takes out endpoints that the cluster has uploaded only after the check. */
  lemma RevokeTakesFreshEndpoints(cfg: Config, c: string, key: Key, spec: Spec) returns (s: State)
    requires c != "" && c != cfg.own && TaggedWith(spec.endpoints, c)
    requires key.name != "" && key.namespace != "" && spec.ports != [] && spec.endpoints != []
    ensures Reachable(cfg, s) && s.requests == map[] && s.sweep.Revoking? && s.sweep.cluster == c && s.sweep.key == key
    ensures c in s.table && !Expired(s.table[c], s.now) && c in s.recorded && s.recorded[c] >= s.sweep.observed
    ensures EndpointsOf(s.services, key) == spec.endpoints
    ensures EndpointsOf(Step(cfg, s, SweepRevoke(true)).services, key) == []
  {
    s := AboutToRevoke(cfg, c, key);
    s := UploadAlone(cfg, s, c, key, spec);
    OutsideTagged(spec.endpoints, c, {c});
  }

  /** The cleaner has found the lease of `c` expired and is about to revoke its key. */
  lemma AboutToRevoke(cfg: Config, c: string, key: Key) returns (s: State)
    requires c != "" && c != cfg.own
    ensures Reachable(cfg, s) && s.requests == map[] && s.services == map[] && c in s.table
    ensures s.sweep.Revoking? && s.sweep.cluster == c && s.sweep.key == key && s.sweep.observed == s.now > 0
  {
    var before := Initial(1);
    assert Possible(cfg, before, []) && After(cfg, before, []) == before;
    before := RecoverOne(cfg, before, c, key);
    TickOne(cfg, before, cfg.duration + 1);
    before := before.(now := cfg.duration + 2);
    QuietlyReachesItself(cfg, before);
    s := StartCleaning(cfg, before, before, c);
    QuietlyReachable(cfg, before, s);
    ReachableStep(cfg, s, Check(key));
    s := DoCheck(s, key);
  }

  lemma UploadAlone(cfg: Config, before: State, c: string, key: Key, spec: Spec) returns (s: State)
    requires Reachable(cfg, before) && before.requests == map[] && before.services == map[] && c != ""
    requires before.now > 0 && TaggedWith(spec.endpoints, c)
    requires key.name != "" && key.namespace != "" && spec.ports != [] && spec.endpoints != []
    ensures Reachable(cfg, s) && s.requests == map[] && s.services == map[key := spec] && s.sweep == before.sweep
    ensures s.now == before.now && c in s.table && !Expired(s.table[c], s.now)
    ensures c in s.recorded && s.recorded[c] == s.now
  {
    s := AdmitAlone(cfg, before, c, Upload(key, spec));
    s := FinishUpload(cfg, s, c, key, spec);
  }

  lemma MovedOne(c: string, kind: Kind, p: Phase, next: Phase)
    ensures var one := map[0 := Request(c, kind, p)];
            one[0 := one[0].(phase := next)] == map[0 := Request(c, kind, next)]
  {
  }

  lemma AdmitAlone(cfg: Config, before: State, c: string, kind: Kind) returns (s: State)
    requires Reachable(cfg, before) && before.requests == map[] && c != ""
    requires kind.Upload? ==> TaggedWith(kind.spec.endpoints, c)
    ensures Reachable(cfg, s) && s.requests == map[0 := Request(c, kind, Admitted)] && s.services == before.services
    ensures s.sweep == before.sweep && s.now == before.now && c in s.recorded && s.recorded[c] == s.now
    ensures c in s.table && s.table[c].deadline == s.now + cfg.duration
  {
    ReachableStep(cfg, before, Arrive(0, c, kind));
    s := before.(requests := map[0 := Request(c, kind, Arrived)]);
    SampleOne(cfg, s, 0);
    s := DoSample(s, 0);
    MovedOne(c, kind, Arrived, Sampled(s.now));
    RecordOne(cfg, s, 0);
    s := DoRecord(cfg, s, 0);
    MovedOne(c, kind, Sampled(s.now), Admitted);
  }

  lemma FinishUpload(cfg: Config, before: State, c: string, key: Key, spec: Spec) returns (s: State)
    requires Reachable(cfg, before) && before.requests == map[0 := Request(c, Upload(key, spec), Admitted)]
    requires before.services == map[] && c in before.table && c != ""
    requires key.name != "" && key.namespace != "" && spec.ports != [] && spec.endpoints != []
    ensures Reachable(cfg, s)
    ensures s == before.(requests := map[], services := map[key := spec], table := Tracked(before.table, c, key))
  {
    assert Outside([], {c}) == [] && [] + spec.endpoints == spec.endpoints;
    WorkOne(cfg, before, 0);
    s := DoWork(before, 0, true);
    assert s.services == map[key := spec] && s.requests == map[0 := Request(c, Upload(key, spec), Applied)];
    ReachableStep(cfg, s, Finish(0));
    s := Step(cfg, s, Finish(0));
    assert s.requests == map[];
  }

  lemma GoesEarly(cfg: Config, before: State, c: string) returns (s: State, k: Key)
    requires Reachable(cfg, before) && Overtaken(cfg, before, c)
    ensures Reachable(cfg, s) && StartsRevoke(cfg, s, c, k) && !PastLatest(cfg, s, c)
    ensures Renewing(s, c) <==> Renewing(before, c)
  {
    EarlyRevokeIff(cfg, before, c);
    s, k :| QuietlyReaches(cfg, before, s) && StartsRevoke(cfg, s, c, k) && !PastLatest(cfg, s, c);
    QuietlyReachable(cfg, before, s);
  }

  /** The cleaner starts revokes only after the lease duration has passed since the latest request, renewals under way
      aside, if and only if no cluster's renewals overlap. */
  lemma LeasesLastIffDisjointRenewals(cfg: Config)
    ensures (forall s, c, key | Reachable(cfg, s) && StartsRevoke(cfg, s, c, key) && !Renewing(s, c) ::
               PastLatest(cfg, s, c))
       <==> cfg.disjointRenewals
  {
    if cfg.disjointRenewals {
      forall s, c, key | Reachable(cfg, s) && StartsRevoke(cfg, s, c, key) && !Renewing(s, c)
        ensures PastLatest(cfg, s, c)
      {
        EarlyOnlyWhileRenewing(cfg, s, c, key);
      }
    } else {
      var s, k := OverlappingRenewalsShortenLease(cfg, Foreign(cfg), Key("n", "s"));
    }
  }

  lemma RenewBackwards(cfg: Config, c: string, key: Key) returns (s: State)
    requires c != "" && c != cfg.own && !cfg.disjointRenewals
    ensures Reachable(cfg, s) && s.now == 2
    ensures s.table == map[c := Lease({key}, 1 + cfg.duration)]
    ensures s.sampled == map[c := 2] && s.recorded == map[c := 1]
    ensures s.requests == Two(c, Beat, Admitted, Beat, Admitted)
  {
    s := Initial(1);
    assert Possible(cfg, s, []) && After(cfg, s, []) == s;
    s := RecoverOne(cfg, s, c, key);
    s := ArriveBoth(cfg, s, c, Beat, Beat);
    s := SampleBoth(cfg, s, c, Beat, Beat, 1);
    s := RecordBackwards(cfg, s, c, Beat, Beat);
    LastUpdateWins(map[], c, Lease({key}, 1 + cfg.duration), Lease({key}, 1 + cfg.duration));
  }

  lemma RecoverOne(cfg: Config, s: State, c: string, key: Key) returns (t: State)
    requires Reachable(cfg, s) && s.table == map[] && c != cfg.own
    ensures Reachable(cfg, t)
    ensures t == s.(table := map[c := Lease({key}, s.now + cfg.duration)],
                    sampled := s.sampled[c := s.now], recorded := s.recorded[c := s.now])
  {
    ReachableStep(cfg, s, Recover(c, key));
    t := DoRecover(cfg, s, c, key);
    assert {} + {key} == {key};
    assert t.table[c] == Lease({key}, s.now + cfg.duration);
    assert t.table == map[c := Lease({key}, s.now + cfg.duration)];
  }
}
