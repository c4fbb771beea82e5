/** The host's stored services as a run of the registry: which operations its steps perform, and what is stored. */
module HostRuns {
  import opened Model
  import opened Endpoints
  import opened Registry
  import opened Host
  import Runs

  /** The registry operation that a request asks for: that of a delete, or of an upload with a name, ports and
      endpoints. */
  function Asks(r: Request): seq<Op> {
    match r.kind
    case Beat => []
    case Upload(key, spec) =>
      if key.name != "" && key.namespace != "" && spec.ports != [] && spec.endpoints != []
      then [Export(key, r.cluster, spec)] else []
    case Delete(key) => [Revoke(key, r.cluster)]
  }

  /** The registry operation that a step performs, if any: an own export or revoke, the successful work of a request, or
      a successful revoke of the cleaner. */
  function Performs(s: State, a: Action): seq<Op> {
    match a
    case OwnOp(op) => [op]
    case Work(id, ok) => if ok && id in s.requests then Asks(s.requests[id]) else []
    case SweepRevoke(ok) => if ok && s.sweep.Revoking? then [Revoke(s.sweep.key, s.sweep.cluster)] else []
    case _ => []
  }

  /** The operations performed so far. */
  ghost function Performed(cfg: Config, s: State, trace: seq<Action>): seq<Op>
    requires Possible(cfg, s, trace)
  {
    if trace == [] then []
    else Performed(cfg, s, trace[..|trace| - 1])
         + Performs(After(cfg, s, trace[..|trace| - 1]), trace[|trace| - 1])
  }

  lemma PerformsIsStep(cfg: Config, s: State, a: Action)
    requires Enabled(cfg, s, a)
    ensures |Performs(s, a)| <= 1
    ensures Step(cfg, s, a).services
         == if Performs(s, a) == [] then s.services else Apply(s.services, Performs(s, a)[0])
  {
    if !a.OwnOp? && !a.Work? && !a.SweepRevoke? {
      OtherStepsKeepServices(cfg, s, a);
    }
  }

  lemma PerformsTagged(cfg: Config, s: State, a: Action)
    requires UploadsTagged(s) && Enabled(cfg, s, a)
    ensures Runs.AllTagged(Performs(s, a))
  {
  }

  /** Whatever the interleaving, the stored services are the run of the operations performed, all well tagged, so that
      each cluster's endpoints are what it has last exported and neither it nor the cleaner has revoked since. */
  lemma {:induction false} ServicesAreTheRun(cfg: Config, start: nat, trace: seq<Action>)
    requires Possible(cfg, Initial(start), trace)
    ensures var s, ops := After(cfg, Initial(start), trace), Performed(cfg, Initial(start), trace);
            && Runs.AllTagged(ops) && s.services == Run(map[], ops)
            && forall k, c :: Only(EndpointsOf(s.services, k), c) == Runs.Published(ops, k, c)
  {
    var s, ops := After(cfg, Initial(start), trace), Performed(cfg, Initial(start), trace);
    if trace != [] {
      var rest, last := trace[..|trace| - 1], trace[|trace| - 1];
      var before, done := After(cfg, Initial(start), rest), Performed(cfg, Initial(start), rest);
      ServicesAreTheRun(cfg, start, rest);
      TaggedAlways(cfg, start, rest);
      PerformsTagged(cfg, before, last);
      PerformsIsStep(cfg, before, last);
      if Performs(before, last) == [] {
        assert done + [] == done;
      } else {
        assert Performs(before, last) == [Performs(before, last)[0]];
        RunOne(map[], done, Performs(before, last)[0]);
      }
    }
    forall k, c ensures Only(EndpointsOf(s.services, k), c) == Runs.Published(ops, k, c) {
      Runs.SublistIsPublished(ops, k, c);
    }
  }

  /** Some run leads to `s` by performing exactly `ops`. */
  ghost predicate Reaches(cfg: Config, s: State, ops: seq<Op>) {
    exists start, trace ::
      && Possible(cfg, Initial(start), trace) && After(cfg, Initial(start), trace) == s
      && Performed(cfg, Initial(start), trace) == ops
  }

  lemma ReachesStep(cfg: Config, s: State, ops: seq<Op>, a: Action)
    requires Reaches(cfg, s, ops) && Enabled(cfg, s, a)
    ensures Reaches(cfg, Step(cfg, s, a), ops + Performs(s, a))
  {
    var start, trace :| && Possible(cfg, Initial(start), trace) && After(cfg, Initial(start), trace) == s
                        && Performed(cfg, Initial(start), trace) == ops;
    var more := trace + [a];
    assert more[..|more| - 1] == trace;
    assert Possible(cfg, Initial(start), more) && After(cfg, Initial(start), more) == Step(cfg, s, a);
    assert Performed(cfg, Initial(start), more) == ops + Performs(s, a);
  }

  lemma ReachesQuietly(cfg: Config, s: State, ops: seq<Op>, a: Action)
    requires Reaches(cfg, s, ops) && Enabled(cfg, s, a) && Performs(s, a) == []
    ensures Reaches(cfg, Step(cfg, s, a), ops)
  {
    ReachesStep(cfg, s, ops, a);
    assert ops + [] == ops;
  }

  /** What can be performed at all: any operation of the server's own cluster, any delete, and the uploads that the API
      server accepts. */
  predicate Feasible(cfg: Config, op: Op) {
    || op.cluster == cfg.own || op.Revoke?
    || (op.key.name != "" && op.key.namespace != "" && op.spec.ports != [] && op.spec.endpoints != [])
  }

  function RequestFor(op: Op, phase: Phase): Request {
    Request(op.cluster, if op.Export? then Upload(op.key, op.spec) else Delete(op.key), phase)
  }

  lemma MovedAlone(r: Request, phase: Phase)
    ensures map[0 := r][0 := r.(phase := phase)] == map[0 := r.(phase := phase)]
  {
  }

  lemma AdmitOne(cfg: Config, s: State, ops: seq<Op>, op: Op) returns (t: State)
    requires Reaches(cfg, s, ops) && s.requests == map[] && WellTagged(op)
    ensures Reaches(cfg, t, ops) && t.requests == map[0 := RequestFor(op, Admitted)]
  {
    var r := RequestFor(op, Arrived);
    ReachesQuietly(cfg, s, ops, Arrive(0, r.cluster, r.kind));
    t := s.(requests := map[0 := r]);
    ReachesQuietly(cfg, t, ops, Sample(0));
    t := DoSample(t, 0);
    if r.cluster == "" {
      MovedAlone(r, Admitted);
    } else {
      MovedAlone(r, Sampled(s.now));
      t := RecordAlone(cfg, t, ops, r, s.now);
    }
  }

  lemma RecordAlone(cfg: Config, s: State, ops: seq<Op>, r: Request, now: nat) returns (t: State)
    requires Reaches(cfg, s, ops) && s.requests == map[0 := r.(phase := Sampled(now))]
    ensures Reaches(cfg, t, ops) && t.requests == map[0 := r.(phase := Admitted)]
  {
    ReachesQuietly(cfg, s, ops, Record(0));
    t := DoRecord(cfg, s, 0);
    MovedAlone(r.(phase := Sampled(now)), Admitted);
  }

  /** One request, served alone and without a failure. */
  lemma ServeOne(cfg: Config, s: State, ops: seq<Op>, op: Op) returns (t: State)
    requires Reaches(cfg, s, ops) && s.requests == map[]
    requires WellTagged(op) && op.cluster != cfg.own && Feasible(cfg, op)
    ensures Reaches(cfg, t, ops + [op]) && t.requests == map[]
  {
    t := AdmitOne(cfg, s, ops, op);
    assert Performs(t, Work(0, true)) == [op];
    ReachesStep(cfg, t, ops, Work(0, true));
    t := Worked(t, 0);
    MovedAlone(RequestFor(op, Admitted), Applied);
    ReachesQuietly(cfg, t, ops + [op], Finish(0));
    t := DoFinish(t, 0);
  }

  /** Conversely every history of such operations is that of some run, under any discipline of the clients. */
  lemma {:induction false} EveryHistoryIsARun(cfg: Config, ops: seq<Op>) returns (s: State)
    requires Runs.AllTagged(ops) && forall op | op in ops :: Feasible(cfg, op)
    ensures Reaches(cfg, s, ops) && s.requests == map[]
  {
    if ops == [] {
      s := Initial(1);
      assert Possible(cfg, s, []) && After(cfg, s, []) == s && Performed(cfg, s, []) == [];
    } else {
      var rest, op := ops[..|ops| - 1], ops[|ops| - 1];
      assert ops == rest + [op] && op in ops;
      s := EveryHistoryIsARun(cfg, rest);
      if op.cluster == cfg.own {
        ReachesStep(cfg, s, rest, OwnOp(op));
        s := s.(services := Apply(s.services, op));
      } else {
        s := ServeOne(cfg, s, rest, op);
      }
    }
  }

  // --- What is stored ---

  /** The server's own exports of the run name their service and have ports and endpoints. The API server asks that of
      every upload; nothing asks it of the server's own exporter. */
  ghost predicate OwnExportsWhole(trace: seq<Action>) {
    forall a | a in trace && a.OwnOp? && a.op.Export? ::
      a.op.key.name != "" && a.op.key.namespace != "" && a.op.spec.ports != [] && a.op.spec.endpoints != []
  }

  ghost predicate Whole(reg: Services) {
    forall k | k in reg :: k.name != "" && k.namespace != "" && reg[k].ports != [] && reg[k].endpoints != []
  }

  lemma ApplyKeepsWhole(reg: Services, op: Op)
    requires Whole(reg)
    requires op.Export? ==>
      op.key.name != "" && op.key.namespace != "" && op.spec.ports != [] && op.spec.endpoints != []
    ensures Whole(Apply(reg, op))
  {
  }

  lemma WorkKeepsWhole(s: State, id: nat, ok: bool)
    requires Whole(s.services) && id in s.requests
    ensures Whole(DoWork(s, id, ok).services)
  {
    WorkFrame(s, id, ok);
    var r := s.requests[id];
    if !r.kind.Beat? && DoWork(s, id, ok).services != s.services {
      ApplyKeepsWhole(s.services, OpOf(r));
    }
  }

  lemma WholeStep(cfg: Config, s: State, a: Action)
    requires Whole(s.services) && Enabled(cfg, s, a) && OwnExportsWhole([a])
    ensures Whole(Step(cfg, s, a).services)
  {
    if a.OwnOp? {
      assert a in [a];
      ApplyKeepsWhole(s.services, a.op);
    } else if a.Work? {
      WorkKeepsWhole(s, a.id, a.ok);
    } else if a.SweepRevoke? {
      ApplyKeepsWhole(s.services, Revoke(s.sweep.key, s.sweep.cluster));
    } else {
      OtherStepsKeepServices(cfg, s, a);
    }
  }

  /** So if the server's own exports are whole, every stored service is: the API server lets nothing else in, and
      revokes leave no service without endpoints. */
  lemma {:induction false} StoredAreWhole(cfg: Config, start: nat, trace: seq<Action>)
    requires Possible(cfg, Initial(start), trace) && OwnExportsWhole(trace)
    ensures forall k | k in After(cfg, Initial(start), trace).services ::
              var spec := After(cfg, Initial(start), trace).services[k];
              k.name != "" && k.namespace != "" && spec.ports != [] && spec.endpoints != []
  {
    if trace != [] {
      var rest, last := trace[..|trace| - 1], trace[|trace| - 1];
      assert last in trace;
      StoredAreWhole(cfg, start, rest);
      WholeStep(cfg, After(cfg, Initial(start), rest), last);
    }
  }
}
