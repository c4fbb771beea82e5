/** The whole host as a state machine: requests in progress, the clock, the server's own exporter, restart recovery
    and the cleaner, interleaved in any order and with any call failing. Registry operations are single steps here;
    module `Locking` shows that the lock makes them so. */
module Host {
  import opened Model
  import opened Endpoints
  import opened Registry
  import opened Leases
  import ApiServers
  import Cleaner

  /** The server's own cluster, the lease duration, and two optional disciplines of the clients: that requests of one
      cluster for one key do not overlap, and that one cluster's lease renewals do not overlap. */
  datatype Config = Config(own: string, duration: nat, disjointKeys: bool, disjointRenewals: bool)

  datatype Kind = Beat | Upload(key: Key, spec: Spec) | Delete(key: Key)

  /** A request has arrived, has read the clock for its new deadline, has been admitted, or has done its work. */
  datatype Phase = Arrived | Sampled(t: nat) | Admitted | Applied

  datatype Request = Request(cluster: string, kind: Kind, phase: Phase)

  /** Where the cleaner is in its pass. A revoke remembers the clock reading that allowed it, and when the cluster's
      last renewal recorded by then had read the clock. */
  datatype Sweep =
    | Idle
    | Collecting(pending: set<string>, found: set<string>)
    | Sweeping(found: set<string>)
    | Cleaning(found: set<string>, cluster: string, keys: set<Key>)
    | Revoking(found: set<string>, cluster: string, keys: set<Key>, key: Key, observed: nat, renewed: nat)

  /** `sampled` and `recorded` are histories: the latest clock reading taken for a renewal of a cluster's lease, and the
      reading that its current deadline was computed from. */
  datatype State = State(
    services: Services, table: Table, now: nat, requests: map<nat, Request>, sweep: Sweep,
    sampled: map<string, nat>, recorded: map<string, nat>)

  datatype Action =
    | Tick(elapsed: nat)
    | Arrive(id: nat, cluster: string, kind: Kind)
    | Sample(id: nat)
    | Record(id: nat)
    | Work(id: nat, ok: bool)
    | Finish(id: nat)
    | OwnOp(op: Op)
    | Recover(cluster: string, key: Key)
    | BeginPass
    | Collect(cluster: string)
    | EndCollect
    | Pick(cluster: string)
    | Check(key: Key)
    | SweepRevoke(ok: bool)
    | EndCluster
    | EndPass

  predicate SameKey(r: Request, cluster: string, kind: Kind) {
    r.cluster == cluster && !r.kind.Beat? && !kind.Beat? && r.kind.key == kind.key
  }

  /** Requests may arrive at any time; uploads are well tagged, and so are the server's own exports. */
  ghost predicate Enabled(cfg: Config, s: State, a: Action) {
    match a
    case Tick(_) => true
    case Arrive(id, cluster, kind) =>
      && id !in s.requests
      && (kind.Upload? ==> TaggedWith(kind.spec.endpoints, cluster))
      && (cfg.disjointKeys ==> forall i | i in s.requests :: !SameKey(s.requests[i], cluster, kind))
    case Sample(id) =>
      && id in s.requests && s.requests[id].phase == Arrived
      && (cfg.disjointRenewals ==> !Renewing(s, s.requests[id].cluster))
    case Record(id) => id in s.requests && s.requests[id].phase.Sampled?
    case Work(id, _) => id in s.requests && s.requests[id].phase == Admitted
    case Finish(id) => id in s.requests && s.requests[id].phase == Applied
    case OwnOp(op) => op.cluster == cfg.own && WellTagged(op)
    case Recover(cluster, _) => cluster !in s.table && cluster != cfg.own
    case BeginPass => s.sweep.Idle?
    case Collect(c) => s.sweep.Collecting? && c in s.sweep.pending && c in s.table
    case EndCollect => s.sweep.Collecting? && s.sweep.pending == {}
    case Pick(c) => s.sweep.Sweeping? && c in s.sweep.found && c in s.table
    case Check(key) => s.sweep.Cleaning? && key in s.sweep.keys && s.sweep.cluster in s.table
    case SweepRevoke(_) => s.sweep.Revoking?
    case EndCluster => s.sweep.Cleaning? && s.sweep.keys == {}
    case EndPass => s.sweep.Sweeping? && s.sweep.found == {}
  }

  /** Some request of cluster `c` has read the clock and not yet recorded its deadline. */
  ghost predicate Renewing(s: State, c: string) {
    exists i :: i in s.requests && s.requests[i].cluster == c && s.requests[i].phase.Sampled?
  }

  function Moved(s: State, id: nat, phase: Phase): State
    requires id in s.requests
  {
    s.(requests := s.requests[id := s.requests[id].(phase := phase)])
  }

  function Done(s: State, id: nat): State {
    s.(requests := s.requests - {id})
  }

  /** The registry operation that a request asks for. */
  function OpOf(r: Request): Op
    requires !r.kind.Beat?
  {
    if r.kind.Upload? then Export(r.kind.key, r.cluster, r.kind.spec) else Revoke(r.kind.key, r.cluster)
  }

  function Worked(s: State, id: nat): State
    requires id in s.requests && !s.requests[id].kind.Beat?
  {
    Moved(s, id, Applied).(services := Apply(s.services, OpOf(s.requests[id])))
  }

  function DoWork(s: State, id: nat, ok: bool): State
    requires id in s.requests
  {
    var r := s.requests[id];
    match r.kind
    case Beat => Done(s, id)
    case Upload(key, spec) =>
      if !ApiServers.Acceptable(ApiServers.Upload(key, r.cluster, spec)) then Done(s, id)
      else if !ok then Moved(s, id, Applied)
      else Worked(s, id)
    case Delete(_) => if ok then Worked(s, id) else Done(s, id)
  }

  function DoSample(s: State, id: nat): State
    requires id in s.requests
  {
    var c := s.requests[id].cluster;
    if c == "" then Moved(s, id, Admitted)
    else Moved(s, id, Sampled(s.now)).(table := Known(s.table, c), sampled := s.sampled[c := s.now])
  }

  function DoRecord(cfg: Config, s: State, id: nat): State
    requires id in s.requests && s.requests[id].phase.Sampled?
  {
    var r := s.requests[id];
    Moved(s, id, Admitted).(table := WithDeadline(s.table, r.cluster, r.phase.t + cfg.duration),
                            recorded := s.recorded[r.cluster := r.phase.t])
  }

  function DoRecover(cfg: Config, s: State, c: string, key: Key): State {
    s.(table := Tracked(WithDeadline(s.table, c, s.now + cfg.duration), c, key),
       sampled := s.sampled[c := s.now], recorded := s.recorded[c := s.now])
  }

  function DoFinish(s: State, id: nat): State
    requires id in s.requests
  {
    var r := s.requests[id];
    Done(s, id).(table := match r.kind
                          case Beat => s.table
                          case Upload(key, _) => Tracked(s.table, r.cluster, key)
                          case Delete(key) => Untracked(s.table, r.cluster, key))
  }

  function DoCheck(s: State, key: Key): State
    requires s.sweep.Cleaning? && s.sweep.cluster in s.table
  {
    var c := s.sweep.cluster;
    if Expired(s.table[c], s.now) then
      s.(sweep := Revoking(s.sweep.found, c, s.sweep.keys - {key}, key, s.now,
                           if c in s.recorded then s.recorded[c] else 0))
    else s.(sweep := Sweeping(s.sweep.found))
  }

  function Step(cfg: Config, s: State, a: Action): State
    requires Enabled(cfg, s, a)
  {
    match a
    case Tick(elapsed) => s.(now := s.now + elapsed)
    case Arrive(id, cluster, kind) => s.(requests := s.requests[id := Request(cluster, kind, Arrived)])
    case Sample(id) => DoSample(s, id)
    case Record(id) => DoRecord(cfg, s, id)
    case Work(id, ok) => DoWork(s, id, ok)
    case Finish(id) => DoFinish(s, id)
    case OwnOp(op) => s.(services := Apply(s.services, op))
    case Recover(c, key) => DoRecover(cfg, s, c, key)
    case BeginPass => s.(sweep := Collecting(s.table.Keys, {}))
    case Collect(c) =>
      s.(sweep := Collecting(s.sweep.pending - {c},
                             if Expired(s.table[c], s.now) then s.sweep.found + {c} else s.sweep.found))
    case EndCollect => s.(sweep := Sweeping(s.sweep.found))
    case Pick(c) => s.(sweep := Cleaning(s.sweep.found - {c}, c, s.table[c].keys))
    case Check(key) => DoCheck(s, key)
    case SweepRevoke(ok) =>
      s.(sweep := Cleaning(s.sweep.found, s.sweep.cluster, s.sweep.keys),
         services := if ok then Apply(s.services, Revoke(s.sweep.key, s.sweep.cluster)) else s.services)
    case EndCluster => s.(sweep := Sweeping(s.sweep.found))
    case EndPass => s.(sweep := Idle)
  }

  function Initial(start: nat): State {
    State(map[], map[], start, map[], Idle, map[], map[])
  }

  ghost predicate Possible(cfg: Config, s: State, trace: seq<Action>)
    decreases |trace|, 0
  {
    trace == [] ||
    (Possible(cfg, s, trace[..|trace| - 1]) && Enabled(cfg, After(cfg, s, trace[..|trace| - 1]), trace[|trace| - 1]))
  }

  ghost function After(cfg: Config, s: State, trace: seq<Action>): State
    requires Possible(cfg, s, trace)
    decreases |trace|, 1
  {
    if trace == [] then s else Step(cfg, After(cfg, s, trace[..|trace| - 1]), trace[|trace| - 1])
  }

  ghost predicate Reachable(cfg: Config, s: State) {
    exists start, trace :: Possible(cfg, Initial(start), trace) && After(cfg, Initial(start), trace) == s
  }

  lemma ReachableStep(cfg: Config, s: State, a: Action)
    requires Reachable(cfg, s) && Enabled(cfg, s, a)
    ensures Reachable(cfg, Step(cfg, s, a))
  {
    var start, trace :| Possible(cfg, Initial(start), trace) && After(cfg, Initial(start), trace) == s;
    var more := trace + [a];
    assert more[..|more| - 1] == trace;
    assert Possible(cfg, Initial(start), more) && After(cfg, Initial(start), more) == Step(cfg, s, a);
  }

  // --- Tracking ---

  /** An upload that has merged its endpoints and is about to add its key. */
  predicate Pending(r: Request, c: string, key: Key) {
    r.kind.Upload? && r.cluster == c && r.kind.key == key && r.phase == Applied
  }

  ghost predicate Covered(s: State, c: string, key: Key) {
    (c in s.table && key in s.table[c].keys) || exists i :: i in s.requests && Pending(s.requests[i], c, key)
  }

  /** Every foreign endpoint is covered by its cluster's keys, or by an upload about to add the key. */
  ghost predicate Tracking(cfg: Config, s: State) {
    forall k, e | k in s.services && e in s.services[k].endpoints && e.cluster != cfg.own :: Covered(s, e.cluster, k)
  }

  ghost predicate Disjoint(s: State) {
    forall i, j | i in s.requests && j in s.requests && i != j ::
      !SameKey(s.requests[i], s.requests[j].cluster, s.requests[j].kind)
  }

  ghost predicate UploadsTagged(s: State) {
    forall i | i in s.requests && s.requests[i].kind.Upload? ::
      TaggedWith(s.requests[i].kind.spec.endpoints, s.requests[i].cluster)
  }

  /** A delete about to drop its key leaves no endpoint behind. */
  ghost predicate DeletesClear(cfg: Config, s: State) {
    forall i, e | i in s.requests && s.requests[i].kind.Delete? && s.requests[i].phase == Applied
                  && s.requests[i].cluster != cfg.own && e in EndpointsOf(s.services, s.requests[i].kind.key) ::
      e.cluster != s.requests[i].cluster
  }

  /** What the clients' discipline keeps besides. */
  ghost predicate Orderly(cfg: Config, s: State) {
    Disjoint(s) && UploadsTagged(s) && DeletesClear(cfg, s)
  }

  ghost predicate TrackingInvariant(cfg: Config, s: State) {
    Tracking(cfg, s) && Orderly(cfg, s)
  }

  lemma ApplyMember(reg: Services, op: Op, k: Key, e: Endpoint)
    requires WellTagged(op) && e in EndpointsOf(Apply(reg, op), k)
    ensures e in EndpointsOf(reg, k) || (op.Export? && k == op.key && e.cluster == op.cluster)
    ensures k == op.key && e.cluster == op.cluster ==> op.Export?
  {
    if k == op.key {
      OutsideMembers(EndpointsOf(reg, k), {op.cluster});
    }
  }

  /** An operation adds only endpoints of its own cluster to its own key, and a revoke leaves none of them. */
  ghost predicate Adds(before: Services, after: Services, op: Op) {
    && (forall k, e {:trigger e in EndpointsOf(after, k)} | e in EndpointsOf(after, k) ::
          e in EndpointsOf(before, k) || (op.Export? && k == op.key && e.cluster == op.cluster))
    && (op.Revoke? ==> forall e | e in EndpointsOf(after, op.key) :: e.cluster != op.cluster)
  }

  lemma ApplyMembers(reg: Services, op: Op)
    requires WellTagged(op)
    ensures Adds(reg, Apply(reg, op), op)
  {
    var after := Apply(reg, op);
    forall k, e {:trigger e in EndpointsOf(after, k)} | e in EndpointsOf(after, k)
      ensures e in EndpointsOf(reg, k) || (op.Export? && k == op.key && e.cluster == op.cluster)
    {
      ApplyMember(reg, op, k, e);
    }
    forall e | e in EndpointsOf(after, op.key) ensures e.cluster == op.cluster ==> op.Export? {
      ApplyMember(reg, op, op.key, e);
    }
  }

  /** Steps that drop no key, complete no upload, and add only endpoints that are covered. */
  lemma KeepsTracking(cfg: Config, s: State, t: State)
    requires Tracking(cfg, s)
    requires forall c | c in s.table :: c in t.table && s.table[c].keys <= t.table[c].keys
    requires forall i | i in s.requests && s.requests[i].kind.Upload? && s.requests[i].phase == Applied ::
      i in t.requests && t.requests[i] == s.requests[i]
    requires forall k, e | e in EndpointsOf(t.services, k) && e.cluster != cfg.own ::
      e in EndpointsOf(s.services, k) || Covered(t, e.cluster, k)
    ensures Tracking(cfg, t)
  {
    forall k, e | k in t.services && e in t.services[k].endpoints && e.cluster != cfg.own
      ensures Covered(t, e.cluster, k)
    {
      assert e in EndpointsOf(t.services, k);
      if e in EndpointsOf(s.services, k) {
        assert Covered(s, e.cluster, k);
        if i :| i in s.requests && Pending(s.requests[i], e.cluster, k) {
          assert Pending(t.requests[i], e.cluster, k);
        }
      }
    }
  }

  predicate CleanerMove(a: Action) {
    a.Tick? || a.BeginPass? || a.Collect? || a.EndCollect? || a.Pick? || a.Check? || a.EndCluster? || a.EndPass?
  }

  /** The cleaner's own bookkeeping and the clock leave services, leases and requests alone. */
  lemma CleanerMoveFrame(cfg: Config, s: State, a: Action)
    requires Enabled(cfg, s, a) && CleanerMove(a)
    ensures var t := Step(cfg, s, a);
            t.services == s.services && t.table == s.table && t.requests == s.requests
            && t.sampled == s.sampled && t.recorded == s.recorded
  {
  }

  /** A request's work ends it, or leaves it applied with or without its operation. */
  lemma WorkFrame(s: State, id: nat, ok: bool)
    requires id in s.requests
    ensures var t := DoWork(s, id, ok);
            || t == Done(s, id)
            || (s.requests[id].kind.Upload? && t == Moved(s, id, Applied))
            || (!s.requests[id].kind.Beat? && t == Worked(s, id))
  {
  }

  lemma WorkedTracks(cfg: Config, s: State, id: nat)
    requires Tracking(cfg, s) && UploadsTagged(s)
    requires id in s.requests && s.requests[id].phase == Admitted && !s.requests[id].kind.Beat?
    ensures Tracking(cfg, Worked(s, id))
  {
    var t, r := Worked(s, id), s.requests[id];
    ApplyMembers(s.services, OpOf(r));
    if r.kind.Upload? {
      assert Pending(t.requests[id], r.cluster, r.kind.key);
    }
    KeepsTracking(cfg, s, t);
  }

  lemma WorkTracks(cfg: Config, s: State, id: nat, ok: bool)
    requires Tracking(cfg, s) && UploadsTagged(s) && Enabled(cfg, s, Work(id, ok))
    ensures Tracking(cfg, DoWork(s, id, ok))
  {
    var t := DoWork(s, id, ok);
    WorkFrame(s, id, ok);
    if !s.requests[id].kind.Beat? && t == Worked(s, id) {
      WorkedTracks(cfg, s, id);
    } else {
      KeepsTracking(cfg, s, t);
    }
  }

  lemma RegistryTracks(cfg: Config, s: State, a: Action)
    requires Tracking(cfg, s) && Enabled(cfg, s, a) && (a.OwnOp? || a.SweepRevoke?)
    ensures Tracking(cfg, Step(cfg, s, a))
  {
    ApplyMembers(s.services, if a.OwnOp? then a.op else Revoke(s.sweep.key, s.sweep.cluster));
    KeepsTracking(cfg, s, Step(cfg, s, a));
  }

  /** A foreign cluster's delete is about to drop its key, but the service holds an endpoint of the cluster again and no
      upload is about to add the key. */
  ghost predicate Loses(cfg: Config, s: State, a: Action)
    requires Enabled(cfg, s, a)
  {
    && a.Finish? && s.requests[a.id].kind.Delete? && s.requests[a.id].cluster != cfg.own
    && var c, key := s.requests[a.id].cluster, s.requests[a.id].kind.key;
    && (exists e :: e in EndpointsOf(s.services, key) && e.cluster == c)
    && forall i | i in s.requests :: !Pending(s.requests[i], c, key)
  }

  lemma FinishUploadTracks(cfg: Config, s: State, id: nat)
    requires Tracking(cfg, s) && Enabled(cfg, s, Finish(id)) && !s.requests[id].kind.Delete?
    ensures Tracking(cfg, DoFinish(s, id))
  {
    var t := DoFinish(s, id);
    forall k, e | k in t.services && e in t.services[k].endpoints && e.cluster != cfg.own
      ensures Covered(t, e.cluster, k)
    {
      assert Covered(s, e.cluster, k);
      if i :| i in s.requests && Pending(s.requests[i], e.cluster, k) {
        assert i == id || (i in t.requests && Pending(t.requests[i], e.cluster, k));
      }
    }
  }

  lemma FinishDeleteTracksIff(cfg: Config, s: State, id: nat)
    requires Tracking(cfg, s) && Enabled(cfg, s, Finish(id)) && s.requests[id].kind.Delete?
    ensures Tracking(cfg, DoFinish(s, id)) <==> !Loses(cfg, s, Finish(id))
  {
    var t, c, key := DoFinish(s, id), s.requests[id].cluster, s.requests[id].kind.key;
    if Loses(cfg, s, Finish(id)) {
      var e :| e in EndpointsOf(s.services, key) && e.cluster == c;
      assert e in t.services[key].endpoints && !Covered(t, c, key);
    } else {
      forall k, e | k in t.services && e in t.services[k].endpoints && e.cluster != cfg.own
        ensures Covered(t, e.cluster, k)
      {
        assert e in EndpointsOf(s.services, k) && Covered(s, e.cluster, k);
        if i :| i in s.requests && Pending(s.requests[i], e.cluster, k) {
          assert i in t.requests && Pending(t.requests[i], e.cluster, k);
        }
      }
    }
  }

  lemma OtherTracks(cfg: Config, s: State, a: Action)
    requires Tracking(cfg, s) && Enabled(cfg, s, a) && (a.Arrive? || a.Sample? || a.Record? || a.Recover?)
    ensures Tracking(cfg, Step(cfg, s, a))
  {
    match a
    case Arrive(id, c, kind) => KeepsTracking(cfg, s, s.(requests := s.requests[id := Request(c, kind, Arrived)]));
    case Sample(id) => KeepsTracking(cfg, s, DoSample(s, id));
    case Record(id) => KeepsTracking(cfg, s, DoRecord(cfg, s, id));
    case Recover(c, key) => KeepsTracking(cfg, s, DoRecover(cfg, s, c, key));
  }

  /** The one way to lose track of an endpoint, whatever the clients do. */
  lemma TrackingStepIff(cfg: Config, s: State, a: Action)
    requires Tracking(cfg, s) && UploadsTagged(s) && Enabled(cfg, s, a)
    ensures Tracking(cfg, Step(cfg, s, a)) <==> !Loses(cfg, s, a)
  {
    if CleanerMove(a) {
      CleanerMoveFrame(cfg, s, a);
      KeepsTracking(cfg, s, Step(cfg, s, a));
    } else if a.Work? {
      WorkTracks(cfg, s, a.id, a.ok);
    } else if a.OwnOp? || a.SweepRevoke? {
      RegistryTracks(cfg, s, a);
    } else if !a.Finish? {
      OtherTracks(cfg, s, a);
    } else if s.requests[a.id].kind.Delete? {
      FinishDeleteTracksIff(cfg, s, a.id);
    } else {
      FinishUploadTracks(cfg, s, a.id);
    }
  }

  lemma TaggedRequestStep(cfg: Config, s: State, a: Action)
    requires UploadsTagged(s) && Enabled(cfg, s, a) && (a.Sample? || a.Record? || a.Finish?)
    ensures UploadsTagged(Step(cfg, s, a))
  {
    match a
    case Sample(id) => assert UploadsTagged(DoSample(s, id));
    case Record(id) => assert UploadsTagged(DoRecord(cfg, s, id));
    case Finish(id) => assert UploadsTagged(DoFinish(s, id));
  }

  lemma TaggedStep(cfg: Config, s: State, a: Action)
    requires UploadsTagged(s) && Enabled(cfg, s, a)
    ensures UploadsTagged(Step(cfg, s, a))
  {
    if a.Work? {
      WorkFrame(s, a.id, a.ok);
    } else if a.Sample? || a.Record? || a.Finish? {
      TaggedRequestStep(cfg, s, a);
    } else if !a.Arrive? {
      assert Step(cfg, s, a).requests == s.requests;
    }
  }

  lemma {:induction false} TaggedAlways(cfg: Config, start: nat, trace: seq<Action>)
    requires Possible(cfg, Initial(start), trace)
    ensures UploadsTagged(After(cfg, Initial(start), trace))
  {
    if trace != [] {
      TaggedAlways(cfg, start, trace[..|trace| - 1]);
      TaggedStep(cfg, After(cfg, Initial(start), trace[..|trace| - 1]), trace[|trace| - 1]);
    }
  }

  /** Without any discipline of the clients: in a reachable state that tracks everything, a step loses track exactly
      when it ends a foreign delete after the cluster has uploaded the service again and tracked it. */
  lemma TrackingLostIff(cfg: Config, s: State, a: Action)
    requires Reachable(cfg, s) && Tracking(cfg, s) && Enabled(cfg, s, a)
    ensures !Tracking(cfg, Step(cfg, s, a)) <==> Loses(cfg, s, a)
  {
    var start, trace :| Possible(cfg, Initial(start), trace) && After(cfg, Initial(start), trace) == s;
    TaggedAlways(cfg, start, trace);
    TrackingStepIff(cfg, s, a);
  }

  /** Steps that start no request, apply no delete and add no foreign endpoint. */
  lemma KeepsOrder(cfg: Config, s: State, t: State)
    requires Orderly(cfg, s)
    requires forall i | i in t.requests ::
      && i in s.requests && t.requests[i].cluster == s.requests[i].cluster && t.requests[i].kind == s.requests[i].kind
      && (t.requests[i].phase == Applied && t.requests[i].kind.Delete? ==> s.requests[i].phase == Applied)
    requires forall k, e | e in EndpointsOf(t.services, k) && e.cluster != cfg.own :: e in EndpointsOf(s.services, k)
    ensures Orderly(cfg, t)
  {
  }

  lemma WorkedKeepsOrder(cfg: Config, s: State, id: nat)
    requires Orderly(cfg, s)
    requires id in s.requests && s.requests[id].phase == Admitted && !s.requests[id].kind.Beat?
    ensures Orderly(cfg, Worked(s, id))
  {
    var t, r := Worked(s, id), s.requests[id];
    ApplyMembers(s.services, OpOf(r));
    forall i, e | i in t.requests && t.requests[i].kind.Delete? && t.requests[i].phase == Applied
                  && t.requests[i].cluster != cfg.own && e in EndpointsOf(t.services, t.requests[i].kind.key)
      ensures e.cluster != t.requests[i].cluster
    {
      if i != id {
        assert t.requests[i] == s.requests[i];
        assert !SameKey(s.requests[i], r.cluster, r.kind);
      }
    }
  }

  lemma MovedKeepsOrder(cfg: Config, s: State, t: State, id: nat, phase: Phase)
    requires Orderly(cfg, s) && id in s.requests && (phase == Applied ==> !s.requests[id].kind.Delete?)
    requires t.requests == Moved(s, id, phase).requests && t.services == s.services
    ensures Orderly(cfg, t)
  {
    KeepsOrder(cfg, s, t);
  }

  lemma DoneKeepsOrder(cfg: Config, s: State, t: State, id: nat)
    requires Orderly(cfg, s) && t.requests == s.requests - {id} && t.services == s.services
    ensures Orderly(cfg, t)
  {
    KeepsOrder(cfg, s, t);
  }

  lemma WorkKeepsOrder(cfg: Config, s: State, id: nat, ok: bool)
    requires Orderly(cfg, s) && Enabled(cfg, s, Work(id, ok))
    ensures Orderly(cfg, DoWork(s, id, ok))
  {
    var t := DoWork(s, id, ok);
    WorkFrame(s, id, ok);
    if !s.requests[id].kind.Beat? && t == Worked(s, id) {
      WorkedKeepsOrder(cfg, s, id);
    } else if t == Done(s, id) {
      DoneKeepsOrder(cfg, s, t, id);
    } else {
      MovedKeepsOrder(cfg, s, t, id, Applied);
    }
  }

  lemma LeaseKeepsOrder(cfg: Config, s: State, a: Action)
    requires Orderly(cfg, s) && Enabled(cfg, s, a) && (a.Sample? || a.Record? || a.Recover? || a.Finish?)
    ensures Orderly(cfg, Step(cfg, s, a))
  {
    match a
    case Sample(id) =>
      var phase := if s.requests[id].cluster == "" then Admitted else Sampled(s.now);
      MovedKeepsOrder(cfg, s, DoSample(s, id), id, phase);
    case Record(id) => MovedKeepsOrder(cfg, s, DoRecord(cfg, s, id), id, Admitted);
    case Recover(c, key) => assert DoRecover(cfg, s, c, key).requests == s.requests;
    case Finish(id) => DoneKeepsOrder(cfg, s, DoFinish(s, id), id);
  }

  lemma RegistryKeepsOrder(cfg: Config, s: State, a: Action)
    requires Orderly(cfg, s) && Enabled(cfg, s, a) && (a.OwnOp? || a.SweepRevoke?)
    ensures Orderly(cfg, Step(cfg, s, a))
  {
    ApplyMembers(s.services, if a.OwnOp? then a.op else Revoke(s.sweep.key, s.sweep.cluster));
    KeepsOrder(cfg, s, Step(cfg, s, a));
  }

  lemma OrderStep(cfg: Config, s: State, a: Action)
    requires cfg.disjointKeys && Orderly(cfg, s) && Enabled(cfg, s, a)
    ensures Orderly(cfg, Step(cfg, s, a))
  {
    if CleanerMove(a) {
      CleanerMoveFrame(cfg, s, a);
      KeepsOrder(cfg, s, Step(cfg, s, a));
    } else if a.Work? {
      WorkKeepsOrder(cfg, s, a.id, a.ok);
    } else if a.OwnOp? || a.SweepRevoke? {
      RegistryKeepsOrder(cfg, s, a);
    } else if !a.Arrive? {
      LeaseKeepsOrder(cfg, s, a);
    }
  }

  lemma TrackingStep(cfg: Config, s: State, a: Action)
    requires cfg.disjointKeys && TrackingInvariant(cfg, s) && Enabled(cfg, s, a)
    ensures TrackingInvariant(cfg, Step(cfg, s, a))
  {
    OrderStep(cfg, s, a);
    TrackingStepIff(cfg, s, a);
  }

  /** In every state reachable from an empty host, every foreign endpoint is tracked, or its upload is about to track
      it. */
  lemma {:induction false} TrackingAlways(cfg: Config, start: nat, trace: seq<Action>)
    requires cfg.disjointKeys && Possible(cfg, Initial(start), trace)
    ensures TrackingInvariant(cfg, After(cfg, Initial(start), trace))
  {
    if trace != [] {
      TrackingAlways(cfg, start, trace[..|trace| - 1]);
      TrackingStep(cfg, After(cfg, Initial(start), trace[..|trace| - 1]), trace[|trace| - 1]);
    }
  }

  /** Between uploads the cluster store alone covers every foreign endpoint, which is what the cleaner relies on. */
  lemma QuietHostIsCovered(cfg: Config, s: State, swept: set<string>)
    requires cfg.disjointKeys && Reachable(cfg, s) && cfg.own !in swept
    requires forall i | i in s.requests :: !(s.requests[i].kind.Upload? && s.requests[i].phase == Applied)
    ensures Cleaner.Covers(s.table, s.services, swept)
  {
    var start, trace :| Possible(cfg, Initial(start), trace) && After(cfg, Initial(start), trace) == s;
    TrackingAlways(cfg, start, trace);
    forall k, e | k in s.services && e in s.services[k].endpoints && e.cluster in swept
      ensures e.cluster in s.table && k in s.table[e.cluster].keys
    {
      assert Covered(s, e.cluster, k);
    }
  }

  // --- Requests ---

  lemma OtherStepsKeepServices(cfg: Config, s: State, a: Action)
    requires Enabled(cfg, s, a) && !a.OwnOp? && !a.Work? && !a.SweepRevoke?
    ensures Step(cfg, s, a).services == s.services
  {
  }

  /** No request is ever stuck: its next step can be taken at once, save that clients which keep their renewals apart
      hold one back while another of their cluster is under way. */
  lemma RequestProceeds(cfg: Config, s: State, id: nat)
    requires id in s.requests
    ensures || (forall ok :: Enabled(cfg, s, Work(id, ok)))
            || Enabled(cfg, s, Sample(id)) || Enabled(cfg, s, Record(id)) || Enabled(cfg, s, Finish(id))
            || (s.requests[id].phase == Arrived && cfg.disjointRenewals && Renewing(s, s.requests[id].cluster))
  {
  }

  /** The steps of a request, one after the other: first until it is admitted, then to its end. */
  function Admit(cfg: Config, s: State, id: nat): State
    requires id in s.requests
  {
    var sampled := DoSample(s, id);
    if sampled.requests[id].phase.Sampled? then DoRecord(cfg, sampled, id) else sampled
  }

  function Serve(cfg: Config, s: State, id: nat, ok: bool): State
    requires id in s.requests
  {
    var worked := DoWork(Admit(cfg, s, id), id, ok);
    if id in worked.requests then DoFinish(worked, id) else worked
  }

  lemma AdmitIsMiddleware(cfg: Config, s: State, id: nat)
    requires id in s.requests && s.requests[id].phase == Arrived
    ensures var r, t := s.requests[id], Admit(cfg, s, id);
            && t.table == Touched(s.table, r.cluster, s.now + cfg.duration) && t.services == s.services
            && t.requests == s.requests[id := r.(phase := Admitted)]
  {
    var r := s.requests[id];
    if r.cluster != "" {
      KnownTwice(s.table, r.cluster, s.now + cfg.duration);
    }
  }

  /** Undisturbed, they change the cluster store and the services exactly as the handlers of the API server do. */
  lemma ServeIsHandler(cfg: Config, s: State, id: nat, ok: bool)
    requires id in s.requests && s.requests[id].phase == Arrived
    ensures var r, t := s.requests[id], Serve(cfg, s, id, ok);
            var touched := Touched(s.table, r.cluster, s.now + cfg.duration);
            && id !in t.requests
            && match r.kind
               case Beat => t.table == touched && t.services == s.services
               case Upload(key, spec) =>
                 var acceptable := ApiServers.Acceptable(ApiServers.Upload(key, r.cluster, spec));
                 && t.table == (if acceptable then Tracked(touched, r.cluster, key) else touched)
                 && t.services == if acceptable && ok then Apply(s.services, Export(key, r.cluster, spec))
                                  else s.services
               case Delete(key) =>
                 && t.table == (if ok then Untracked(touched, r.cluster, key) else touched)
                 && t.services == if ok then Apply(s.services, Revoke(key, r.cluster)) else s.services
  {
    AdmitIsMiddleware(cfg, s, id);
  }

  lemma KnownTwice(table: Table, c: string, deadline: nat)
    ensures WithDeadline(Known(table, c), c, deadline) == WithDeadline(table, c, deadline)
  {
  }
}
