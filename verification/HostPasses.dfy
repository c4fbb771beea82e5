/** Passes of the cleaner within the host: what its steps and the clock can do while no request moves. */
module HostPasses {
  import opened Model
  import opened Endpoints
  import opened Registry
  import opened Leases
  import opened Host
  import opened Cleaner

  /** Steps of the clock and of the cleaner. */
  predicate Quiet(a: Action) {
    CleanerMove(a) || a.SweepRevoke?
  }

  ghost predicate QuietlyReaches(cfg: Config, s: State, t: State) {
    exists trace :: Possible(cfg, s, trace) && (forall a | a in trace :: Quiet(a)) && After(cfg, s, trace) == t
  }

  lemma QuietlyReachesItself(cfg: Config, s: State)
    ensures QuietlyReaches(cfg, s, s)
  {
    assert Possible(cfg, s, []) && After(cfg, s, []) == s;
  }

  lemma QuietStep(cfg: Config, s: State, t: State, a: Action)
    requires QuietlyReaches(cfg, s, t) && Enabled(cfg, t, a) && Quiet(a)
    ensures QuietlyReaches(cfg, s, Step(cfg, t, a))
  {
    var trace :| Possible(cfg, s, trace) && (forall a | a in trace :: Quiet(a)) && After(cfg, s, trace) == t;
    var more := trace + [a];
    assert more[..|more| - 1] == trace;
    assert Possible(cfg, s, more) && After(cfg, s, more) == Step(cfg, t, a);
  }

  /** Quiet steps move the cleaner, the clock and the services only. */
  ghost predicate OnlyCleaned(s: State, t: State) {
    && t.table == s.table && t.requests == s.requests && t.sampled == s.sampled && t.recorded == s.recorded
    && t.now >= s.now
  }

  lemma QuietStepFrame(cfg: Config, s: State, a: Action)
    requires Enabled(cfg, s, a) && Quiet(a)
    ensures OnlyCleaned(s, Step(cfg, s, a))
  {
    if CleanerMove(a) {
      CleanerMoveFrame(cfg, s, a);
    }
  }

  lemma {:induction false} QuietTraceFrame(cfg: Config, s: State, trace: seq<Action>)
    requires Possible(cfg, s, trace) && forall a | a in trace :: Quiet(a)
    ensures OnlyCleaned(s, After(cfg, s, trace))
  {
    if trace != [] {
      QuietTraceFrame(cfg, s, trace[..|trace| - 1]);
      QuietStepFrame(cfg, After(cfg, s, trace[..|trace| - 1]), trace[|trace| - 1]);
    }
  }

  lemma {:induction false} QuietTraceReachable(cfg: Config, s: State, trace: seq<Action>)
    requires Reachable(cfg, s) && Possible(cfg, s, trace)
    ensures Reachable(cfg, After(cfg, s, trace))
  {
    if trace != [] {
      QuietTraceReachable(cfg, s, trace[..|trace| - 1]);
      ReachableStep(cfg, After(cfg, s, trace[..|trace| - 1]), trace[|trace| - 1]);
    }
  }

  lemma QuietlyReachable(cfg: Config, s: State, t: State)
    requires Reachable(cfg, s) && QuietlyReaches(cfg, s, t)
    ensures Reachable(cfg, t) && OnlyCleaned(s, t)
  {
    var trace :| Possible(cfg, s, trace) && (forall a | a in trace :: Quiet(a)) && After(cfg, s, trace) == t;
    QuietTraceReachable(cfg, s, trace);
    QuietTraceFrame(cfg, s, trace);
  }

  // --- The cleaner can always finish its pass, and begin another ---

  function Found(sweep: Sweep): set<string> {
    if sweep.Idle? then {} else sweep.found
  }

  /** The cleaner works on known clusters only, and on each once in a pass. */
  predicate SweepKnown(s: State) {
    && Found(s.sweep) <= s.table.Keys
    && (s.sweep.Collecting? ==> s.sweep.pending <= s.table.Keys)
    && (s.sweep.Cleaning? || s.sweep.Revoking? ==>
          s.sweep.cluster in s.table && s.sweep.cluster !in s.sweep.found)
  }

  lemma TableGrows(cfg: Config, s: State, a: Action)
    requires Enabled(cfg, s, a) && !CleanerMove(a)
    ensures s.table.Keys <= Step(cfg, s, a).table.Keys
    ensures !a.SweepRevoke? ==> Step(cfg, s, a).sweep == s.sweep
  {
    if a.Work? {
      WorkFrame(s, a.id, a.ok);
    }
  }

  lemma SweepKnownStep(cfg: Config, s: State, a: Action)
    requires SweepKnown(s) && Enabled(cfg, s, a)
    ensures SweepKnown(Step(cfg, s, a))
  {
    if !CleanerMove(a) {
      TableGrows(cfg, s, a);
    }
  }

  lemma {:induction false} SweepKnownAlways(cfg: Config, start: nat, trace: seq<Action>)
    requires Possible(cfg, Initial(start), trace)
    ensures SweepKnown(After(cfg, Initial(start), trace))
  {
    if trace != [] {
      SweepKnownAlways(cfg, start, trace[..|trace| - 1]);
      SweepKnownStep(cfg, After(cfg, Initial(start), trace[..|trace| - 1]), trace[|trace| - 1]);
    }
  }

  function Stage(sweep: Sweep): nat {
    match sweep
    case Idle => 0
    case Collecting(_, _) => 2
    case _ => 1
  }

  function KeysLeft(sweep: Sweep): nat {
    match sweep
    case Cleaning(_, _, keys) => 2 * |keys| + 1
    case Revoking(_, _, keys, _, _, _) => 2 * |keys| + 2
    case _ => 0
  }

  function Width(sweep: Sweep): nat {
    if sweep.Collecting? then |sweep.pending| else |Found(sweep)|
  }

  /** The cleaner has moved on within its pass, and nothing else has changed. */
  ghost predicate Advanced(s: State, t: State) {
    && t == s.(sweep := t.sweep) && SweepKnown(t) && Stage(t.sweep) <= Stage(s.sweep)
    && (Stage(t.sweep) == Stage(s.sweep) ==> Width(t.sweep) <= Width(s.sweep))
    && (Stage(t.sweep) == Stage(s.sweep) && Width(t.sweep) == Width(s.sweep) ==> KeysLeft(t.sweep) < KeysLeft(s.sweep))
  }

  lemma CollectOne(cfg: Config, s: State) returns (a: Action)
    requires s.sweep.Collecting? && SweepKnown(s)
    ensures Enabled(cfg, s, a) && Quiet(a) && Advanced(s, Step(cfg, s, a))
    ensures var next := Step(cfg, s, a).sweep;
            Found(s.sweep) <= Found(next)
            && if s.sweep.pending == {} then next.Sweeping? else next.Collecting? && Width(next) < Width(s.sweep)
  {
    var pending := s.sweep.pending;
    if pending == {} {
      a := EndCollect;
    } else {
      var c :| c in pending;
      a := Collect(c);
      assert |pending - {c}| < |pending|;
    }
  }

  lemma PickOne(cfg: Config, s: State) returns (a: Action)
    requires s.sweep.Sweeping? && SweepKnown(s)
    ensures Enabled(cfg, s, a) && Quiet(a) && Advanced(s, Step(cfg, s, a))
  {
    var found := s.sweep.found;
    if found == {} {
      a := EndPass;
    } else {
      var c :| c in found;
      a := Pick(c);
      assert |found - {c}| < |found|;
    }
  }

  /** Any revoke fails. */
  lemma CleanOne(cfg: Config, s: State) returns (a: Action)
    requires (s.sweep.Cleaning? || s.sweep.Revoking?) && SweepKnown(s)
    ensures Enabled(cfg, s, a) && Quiet(a) && Advanced(s, Step(cfg, s, a))
  {
    var keys := s.sweep.keys;
    if s.sweep.Revoking? {
      a := SweepRevoke(false);
    } else if keys == {} {
      a := EndCluster;
    } else {
      var key :| key in keys;
      a := Check(key);
      assert |keys - {key}| < |keys|;
    }
  }

  /** Wherever the cleaner is, it can finish its pass without changing a service. */
  lemma Drain(cfg: Config, origin: State, s: State)
    requires QuietlyReaches(cfg, origin, s) && SweepKnown(s)
    ensures QuietlyReaches(cfg, origin, s.(sweep := Idle))
    decreases Stage(s.sweep), Width(s.sweep), KeysLeft(s.sweep)
  {
    if !s.sweep.Idle? {
      var a;
      if s.sweep.Collecting? {
        a := CollectOne(cfg, s);
      } else if s.sweep.Sweeping? {
        a := PickOne(cfg, s);
      } else {
        a := CleanOne(cfg, s);
      }
      QuietStep(cfg, origin, s, a);
      Drain(cfg, origin, Step(cfg, s, a));
    }
  }

  lemma CollectAll(cfg: Config, origin: State, s: State, c: string) returns (t: State)
    requires QuietlyReaches(cfg, origin, s) && SweepKnown(s) && s.sweep.Collecting? && c in s.sweep.found
    ensures QuietlyReaches(cfg, origin, t) && t.sweep.Sweeping? && c in t.sweep.found && t == s.(sweep := t.sweep)
    decreases Width(s.sweep)
  {
    var a := CollectOne(cfg, s);
    QuietStep(cfg, origin, s, a);
    t := Step(cfg, s, a);
    if s.sweep.pending != {} {
      t := CollectAll(cfg, origin, t, c);
    }
  }

  /** A new pass can go to any expired cluster first, and then to any of its keys. */
  lemma StartCleaning(cfg: Config, origin: State, s: State, c: string) returns (t: State)
    requires QuietlyReaches(cfg, origin, s) && s.sweep.Idle?
    requires c in s.table && Expired(s.table[c], s.now)
    ensures QuietlyReaches(cfg, origin, t) && t == s.(sweep := t.sweep)
    ensures t.sweep.Cleaning? && t.sweep.cluster == c && t.sweep.keys == s.table[c].keys
  {
    QuietStep(cfg, origin, s, BeginPass);
    t := Step(cfg, s, BeginPass);
    QuietStep(cfg, origin, t, Collect(c));
    t := CollectAll(cfg, origin, Step(cfg, t, Collect(c)), c);
    QuietStep(cfg, origin, t, Pick(c));
    t := Step(cfg, t, Pick(c));
  }

  // --- What a complete pass does ---

  /** One pass: it begins once, and no revoke fails. */
  predicate OnePass(trace: seq<Action>) {
    && trace != [] && trace[0] == BeginPass
    && (forall i | 0 < i < |trace| :: Quiet(trace[i]) && !trace[i].BeginPass? && trace[i] != SweepRevoke(false))
  }

  /** The revokes that a pass has still to make. */
  function Remaining(table: Table, sweep: Sweep): Revokes {
    match sweep
    case Cleaning(found, c, keys) => AllRevokes(table, found) + set k | k in keys :: (c, k)
    case Revoking(found, c, keys, key, _, _) => AllRevokes(table, found) + (set k | k in keys :: (c, k)) + {(c, key)}
    case _ => AllRevokes(table, Found(sweep))
  }

  /** A pass sweeps every cluster expired at its start and none that is not expired by its end. */
  ghost predicate Sweeps(table: Table, swept: set<string>, from: nat, to: nat) {
    && (forall n | n in swept :: n in table && Expired(table[n], to))
    && (forall n | n in table && Expired(table[n], from) :: n in swept)
  }

  /** The cluster being cleaned is not found again, and its keys are tracked. */
  ghost predicate SweepFits(table: Table, sweep: Sweep, swept: set<string>) {
    && Found(sweep) <= swept
    && (sweep.Cleaning? || sweep.Revoking? ==>
          && sweep.cluster in swept && sweep.cluster !in sweep.found && sweep.cluster in table
          && sweep.keys <= table[sweep.cluster].keys)
    && (sweep.Revoking? ==> sweep.key !in sweep.keys && sweep.key in table[sweep.cluster].keys)
  }

  ghost predicate PassInvariant(s: State, t: State, swept: set<string>) {
    && OnlyCleaned(s, t)
    && if t.sweep.Collecting? then
         && t.services == s.services && t.sweep.pending <= t.table.Keys
         && (forall n | n in t.sweep.found :: n in t.table && Expired(t.table[n], t.now))
         && (forall n | n in t.table && Expired(t.table[n], s.now) :: n in t.sweep.found + t.sweep.pending)
       else
         && Sweeps(t.table, swept, s.now, t.now) && SweepFits(t.table, t.sweep, swept)
         && t.services == Purged(s.services, AllRevokes(t.table, swept) - Remaining(t.table, t.sweep))
  }

  lemma PassCollects(cfg: Config, s: State, t: State, a: Action, swept: set<string>) returns (next: set<string>)
    requires PassInvariant(s, t, swept) && t.sweep.Collecting? && Enabled(cfg, t, a) && Quiet(a)
    ensures PassInvariant(s, Step(cfg, t, a), next)
  {
    next := t.sweep.found;
    QuietStepFrame(cfg, t, a);
    PurgedNothing(s.services);
    assert AllRevokes(t.table, next) - AllRevokes(t.table, next) == {};
  }

  lemma PassRevokes(cfg: Config, s: State, t: State, swept: set<string>)
    requires PassInvariant(s, t, swept) && t.sweep.Revoking?
    ensures PassInvariant(s, Step(cfg, t, SweepRevoke(true)), swept)
  {
    var all, next := AllRevokes(t.table, swept), Step(cfg, t, SweepRevoke(true));
    var pair := (t.sweep.cluster, t.sweep.key);
    assert pair !in Remaining(t.table, next.sweep) && pair in all;
    assert Remaining(t.table, t.sweep) == Remaining(t.table, next.sweep) + {pair};
    assert all - Remaining(t.table, next.sweep) == (all - Remaining(t.table, t.sweep)) + {pair};
    PurgeStep(s.services, all - Remaining(t.table, t.sweep), pair.0, pair.1);
  }

  lemma SameRemaining(cfg: Config, t: State, a: Action, swept: set<string>)
    requires Enabled(cfg, t, a) && CleanerMove(a) && !t.sweep.Collecting? && !a.BeginPass?
    requires SweepFits(t.table, t.sweep, swept) && forall n | n in swept :: n in t.table && Expired(t.table[n], t.now)
    ensures Remaining(t.table, Step(cfg, t, a).sweep) == Remaining(t.table, t.sweep)
    ensures SweepFits(t.table, Step(cfg, t, a).sweep, swept)
  {
    var sweep := Step(cfg, t, a).sweep;
    if a.Pick? {
      assert AllRevokes(t.table, t.sweep.found)
          == AllRevokes(t.table, sweep.found) + set k | k in t.table[a.cluster].keys :: (a.cluster, k);
    } else if a.Check? {
      var c := t.sweep.cluster;
      assert (set k | k in t.sweep.keys :: (c, k)) == (set k | k in t.sweep.keys - {a.key} :: (c, k)) + {(c, a.key)};
    } else if a.EndCluster? {
      var c := t.sweep.cluster;
      assert (set k | k in t.sweep.keys :: (c, k)) == {};
    }
  }

  lemma PassStep(cfg: Config, s: State, t: State, a: Action, swept: set<string>) returns (next: set<string>)
    requires PassInvariant(s, t, swept) && Enabled(cfg, t, a)
    requires Quiet(a) && !a.BeginPass? && a != SweepRevoke(false)
    ensures PassInvariant(s, Step(cfg, t, a), next)
  {
    if t.sweep.Collecting? {
      next := PassCollects(cfg, s, t, a, swept);
    } else {
      next := swept;
      if a.SweepRevoke? {
        PassRevokes(cfg, s, t, swept);
      } else {
        QuietStepFrame(cfg, t, a);
        CleanerMoveFrame(cfg, t, a);
        SameRemaining(cfg, t, a, swept);
      }
    }
  }

  lemma {:induction false} PassRuns(cfg: Config, s: State, trace: seq<Action>) returns (swept: set<string>)
    requires s.sweep.Idle? && Possible(cfg, s, trace) && OnePass(trace)
    ensures PassInvariant(s, After(cfg, s, trace), swept)
  {
    var rest, last := trace[..|trace| - 1], trace[|trace| - 1];
    if rest == [] {
      swept := {};
    } else {
      swept := PassRuns(cfg, s, rest);
      swept := PassStep(cfg, s, After(cfg, s, rest), last, swept);
    }
  }

  /** A complete pass in a reachable state without an upload between its merge and its tracking, and without requests
      meanwhile: it sweeps the expired clusters and no others, removes all of their endpoints and nothing else, and
      deletes exactly the tracked services left empty. */
  lemma CompletePassIsExact(cfg: Config, s: State, trace: seq<Action>) returns (swept: set<string>)
    requires cfg.disjointKeys && Reachable(cfg, s) && s.sweep.Idle?
    requires forall i | i in s.requests :: !(s.requests[i].kind.Upload? && s.requests[i].phase == Applied)
    requires Possible(cfg, s, trace) && OnePass(trace) && After(cfg, s, trace).sweep.Idle?
    ensures var t := After(cfg, s, trace);
            && OnlyCleaned(s, t) && Sweeps(s.table, swept, s.now, t.now)
            && t.services == Purged(s.services, AllRevokes(s.table, swept))
            && (cfg.own !in swept ==> forall k :: Cleaned(s.table, s.services, t.services, swept, k))
  {
    swept := PassRuns(cfg, s, trace);
    var t := After(cfg, s, trace);
    assert AllRevokes(s.table, swept) - AllRevokes(s.table, {}) == AllRevokes(s.table, swept);
    if cfg.own !in swept {
      QuietHostIsCovered(cfg, s, swept);
      forall k ensures Cleaned(s.table, s.services, t.services, swept, k) {
        ExpiryExact(s.table, s.services, swept, k);
      }
    }
  }

  /** A complete pass also clears every foreign cluster that was expired at its start, whether or not the server's own
      cluster was. */
  lemma ForeignIsCleaned(cfg: Config, s: State, trace: seq<Action>, c: string, k: Key)
    requires cfg.disjointKeys && Reachable(cfg, s) && s.sweep.Idle? && c != cfg.own
    requires forall i | i in s.requests :: !(s.requests[i].kind.Upload? && s.requests[i].phase == Applied)
    requires Possible(cfg, s, trace) && OnePass(trace) && After(cfg, s, trace).sweep.Idle?
    requires c in s.table && Expired(s.table[c], s.now)
    ensures Only(EndpointsOf(After(cfg, s, trace).services, k), c) == []
  {
    var swept := CompletePassIsExact(cfg, s, trace);
    QuietHostIsCovered(cfg, s, {c});
    if k in s.services {
      var es, cleared := s.services[k].endpoints, ClearedAt(AllRevokes(s.table, swept), k);
      OnlyOutside(es, cleared, c);
      if c !in cleared {
        assert (c, k) !in AllRevokes(s.table, swept);
        NoneInCluster(es, c);
      }
    }
  }

  lemma {:induction false} NoneInCluster(es: seq<Endpoint>, c: string)
    requires forall e | e in es :: e.cluster != c
    ensures Only(es, c) == []
  {
    if es != [] {
      assert es[0] in es;
      NoneInCluster(es[1..], c);
    }
  }

  // --- A cluster found alive again ---

  /** The cleaner is through with cluster `c` in its present pass. */
  predicate Through(s: State, c: string) {
    && !s.sweep.Collecting? && c !in Found(s.sweep)
    && (s.sweep.Cleaning? || s.sweep.Revoking? ==> s.sweep.cluster != c)
  }

  lemma ThroughStep(cfg: Config, s: State, a: Action, c: string)
    requires Through(s, c) && Enabled(cfg, s, a) && !a.BeginPass?
    ensures Through(Step(cfg, s, a), c)
  {
    if !CleanerMove(a) {
      TableGrows(cfg, s, a);
    }
  }

  /** When a check finds the cluster's lease live, the cleaner leaves the rest of its keys alone until the next pass,
      whatever happens meanwhile. */
  lemma {:induction false} LiveClusterIsLeft(cfg: Config, s: State, key: Key, trace: seq<Action>)
    requires Reachable(cfg, s) && Enabled(cfg, s, Check(key)) && !Expired(s.table[s.sweep.cluster], s.now)
    requires Possible(cfg, Step(cfg, s, Check(key)), trace) && forall a | a in trace :: !a.BeginPass?
    ensures Through(After(cfg, Step(cfg, s, Check(key)), trace), s.sweep.cluster)
  {
    if trace == [] {
      var start, before :| Possible(cfg, Initial(start), before) && After(cfg, Initial(start), before) == s;
      SweepKnownAlways(cfg, start, before);
    } else {
      var t := Step(cfg, s, Check(key));
      LiveClusterIsLeft(cfg, s, key, trace[..|trace| - 1]);
      ThroughStep(cfg, After(cfg, t, trace[..|trace| - 1]), trace[|trace| - 1], s.sweep.cluster);
    }
  }
}
