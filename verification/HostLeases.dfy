/** Leases within the host: exactly when the cleaner may start a revoke before a cluster's lease has run out. */
module HostLeases {
  import opened Model
  import opened Endpoints
  import opened Registry
  import opened Leases
  import opened Host
  import opened HostPasses

  /** A deadline is always the recorded clock reading plus the lease duration, and stays until the next renewal; a
      revoke in progress was allowed by a reading past the deadline of its time. */
  ghost predicate LeaseInvariant(cfg: Config, s: State) {
    && (forall c | c in s.table && s.table[c].deadline != 0 :: c in s.recorded)
    && (forall c | c in s.recorded :: c in s.table && s.table[c].deadline == s.recorded[c] + cfg.duration)
    && (s.sweep.Revoking? ==>
          s.sweep.cluster in s.recorded && s.sweep.renewed + cfg.duration < s.sweep.observed <= s.now)
  }

  /** Clock readings taken for renewals lie in the past, and the recorded one is never later than the latest. */
  ghost predicate ReadingsPast(s: State) {
    && (forall c | c in s.sampled :: s.sampled[c] <= s.now)
    && (forall c | c in s.recorded :: c in s.sampled && s.recorded[c] <= s.sampled[c])
    && (forall i | i in s.requests && s.requests[i].phase.Sampled? ::
          s.requests[i].cluster in s.sampled && s.requests[i].phase.t <= s.sampled[s.requests[i].cluster])
  }

  ghost predicate Timely(cfg: Config, s: State) {
    LeaseInvariant(cfg, s) && ReadingsPast(s)
  }

  lemma SampleTimely(cfg: Config, s: State, id: nat)
    requires Timely(cfg, s) && id in s.requests
    ensures Timely(cfg, DoSample(s, id))
  {
    SampleKeepsLeases(cfg, s, id);
    SampleKeepsReadings(s, id);
  }

  lemma SampleKeepsLeases(cfg: Config, s: State, id: nat)
    requires LeaseInvariant(cfg, s) && id in s.requests
    ensures LeaseInvariant(cfg, DoSample(s, id))
  {
  }

  lemma SampleKeepsReadings(s: State, id: nat)
    requires ReadingsPast(s) && id in s.requests
    ensures ReadingsPast(DoSample(s, id))
  {
  }

  lemma RecordTimely(cfg: Config, s: State, id: nat)
    requires Timely(cfg, s) && id in s.requests && s.requests[id].phase.Sampled?
    ensures Timely(cfg, DoRecord(cfg, s, id))
  {
  }

  lemma RecoverTimely(cfg: Config, s: State, c: string, key: Key)
    requires Timely(cfg, s)
    ensures Timely(cfg, DoRecover(cfg, s, c, key))
  {
  }

  lemma FinishTimely(cfg: Config, s: State, id: nat)
    requires Timely(cfg, s) && id in s.requests
    ensures Timely(cfg, DoFinish(s, id))
  {
  }

  lemma WorkTimely(cfg: Config, s: State, id: nat, ok: bool)
    requires Timely(cfg, s) && id in s.requests
    ensures Timely(cfg, DoWork(s, id, ok))
  {
    WorkFrame(s, id, ok);
  }

  lemma QuietTimely(cfg: Config, s: State, a: Action)
    requires Timely(cfg, s) && Enabled(cfg, s, a) && Quiet(a)
    ensures Timely(cfg, Step(cfg, s, a))
  {
    QuietStepFrame(cfg, s, a);
  }

  lemma TimelyStep(cfg: Config, s: State, a: Action)
    requires Timely(cfg, s) && Enabled(cfg, s, a)
    ensures Timely(cfg, Step(cfg, s, a))
  {
    if Quiet(a) {
      QuietTimely(cfg, s, a);
    } else {
      match a
      case Arrive(id, c, kind) => assert Timely(cfg, s.(requests := s.requests[id := Request(c, kind, Arrived)]));
      case Sample(id) => SampleTimely(cfg, s, id);
      case Record(id) => RecordTimely(cfg, s, id);
      case Work(id, ok) => WorkTimely(cfg, s, id, ok);
      case Finish(id) => FinishTimely(cfg, s, id);
      case OwnOp(op) => assert Timely(cfg, s.(services := Step(cfg, s, a).services));
      case Recover(c, key) => RecoverTimely(cfg, s, c, key);
    }
  }

  lemma {:induction false} TimelyAlways(cfg: Config, start: nat, trace: seq<Action>)
    requires Possible(cfg, Initial(start), trace)
    ensures Timely(cfg, After(cfg, Initial(start), trace))
  {
    if trace != [] {
      TimelyAlways(cfg, start, trace[..|trace| - 1]);
      TimelyStep(cfg, After(cfg, Initial(start), trace[..|trace| - 1]), trace[|trace| - 1]);
    }
  }

  lemma ReachableLeases(cfg: Config, s: State)
    requires Reachable(cfg, s)
    ensures Timely(cfg, s) && SweepKnown(s)
  {
    var start, trace :| Possible(cfg, Initial(start), trace) && After(cfg, Initial(start), trace) == s;
    TimelyAlways(cfg, start, trace);
    SweepKnownAlways(cfg, start, trace);
  }

  /** Asking now whether `c` is still expired, before the revoke of `key`, starts the revoke. */
  ghost predicate StartsRevoke(cfg: Config, s: State, c: string, key: Key) {
    Enabled(cfg, s, Check(key)) && s.sweep.cluster == c && Step(cfg, s, Check(key)).sweep.Revoking?
  }

  /** The lease duration has passed since the latest clock reading for a renewal of cluster `c`. */
  predicate PastLatest(cfg: Config, s: State, c: string) {
    c in s.sampled && s.now > s.sampled[c] + cfg.duration
  }

  /** The cleaner starts a revoke for a cluster only when it reads a time more than the lease duration past the
      clock reading of the cluster's last recorded request or recovery, which is its latest unless a later one has
      not been recorded; never for a cluster without a deadline. */
  lemma LeaseSafety(cfg: Config, s: State, c: string, key: Key)
    requires Reachable(cfg, s) && StartsRevoke(cfg, s, c, key)
    ensures s.table[c].deadline != 0 && c in s.recorded && s.now > s.recorded[c] + cfg.duration
    ensures c in s.sampled && (s.recorded[c] == s.sampled[c] ==> PastLatest(cfg, s, c))
    ensures var sweep := Step(cfg, s, Check(key)).sweep;
            sweep.cluster == c && sweep.key == key && sweep.observed == s.now && sweep.renewed == s.recorded[c]
  {
    ReachableLeases(cfg, s);
  }

  /** A cluster that has once been renewed or recovered keeps a lease: it counts as expired exactly when the lease
      duration has passed since its recorded reading. Whatever else it does, deleting services included, does not
      change that. */
  lemma SilentClusterExpires(cfg: Config, s: State, c: string)
    requires Reachable(cfg, s) && c in s.recorded
    ensures c in s.table && s.table[c].deadline == s.recorded[c] + cfg.duration
    ensures Expired(s.table[c], s.now) <==> 0 < s.recorded[c] + cfg.duration < s.now
  {
    ReachableLeases(cfg, s);
  }

  /** So one complete pass over a host at rest takes away every endpoint of every foreign cluster whose lease has run
      out. */
  lemma SilentClusterIsCleaned(cfg: Config, s: State, trace: seq<Action>, c: string, k: Key)
    requires cfg.disjointKeys && Reachable(cfg, s) && s.sweep.Idle? && c != cfg.own
    requires forall i | i in s.requests :: !(s.requests[i].kind.Upload? && s.requests[i].phase == Applied)
    requires Possible(cfg, s, trace) && OnePass(trace) && After(cfg, s, trace).sweep.Idle?
    requires c in s.recorded && 0 < s.recorded[c] + cfg.duration < s.now
    ensures Only(EndpointsOf(After(cfg, s, trace).services, k), c) == []
  {
    SilentClusterExpires(cfg, s, c);
    ForeignIsCleaned(cfg, s, trace, c, k);
  }

  /** A revoke takes effect some time after it was allowed. Its cluster's lease has then run out, unless a request has
      renewed it since: it is live exactly when the clock has not passed the recorded reading by more than the lease
      duration, and that reading is then later than the one that allowed the revoke. */
  lemma RevokesLiveLeaseIff(cfg: Config, s: State)
    requires Reachable(cfg, s) && s.sweep.Revoking?
    ensures s.sweep.observed > s.sweep.renewed + cfg.duration
    ensures var c := s.sweep.cluster;
            && c in s.table && c in s.recorded
            && (Expired(s.table[c], s.now) <==> 0 < s.recorded[c] + cfg.duration < s.now)
            && (s.now <= s.recorded[c] + cfg.duration ==> s.recorded[c] > s.sweep.renewed)
  {
    ReachableLeases(cfg, s);
  }

  // --- Revokes that start too early ---

  /** The cleaner has keys of cluster `c` to revoke, in its present pass or in the next. */
  predicate HoldsKeys(s: State, c: string) {
    || (c in s.table && s.table[c].keys != {})
    || ((s.sweep.Cleaning? || s.sweep.Revoking?) && s.sweep.cluster == c && s.sweep.keys != {})
  }

  /** A revoke for `c` can start too early from here without another request. */
  ghost predicate MayRevokeEarly(cfg: Config, s: State, c: string) {
    exists t, key :: QuietlyReaches(cfg, s, t) && StartsRevoke(cfg, t, c, key) && !PastLatest(cfg, t, c)
  }

  lemma HoldsKeysBackward(cfg: Config, s: State, a: Action, c: string)
    requires Enabled(cfg, s, a) && Quiet(a) && HoldsKeys(Step(cfg, s, a), c)
    ensures HoldsKeys(s, c)
  {
    QuietStepFrame(cfg, s, a);
    if a.Check? {
      assert s.sweep.keys - {a.key} <= s.sweep.keys;
    }
  }

  lemma {:induction false} HeldFromTheStart(cfg: Config, s: State, trace: seq<Action>, c: string)
    requires Possible(cfg, s, trace) && (forall a | a in trace :: Quiet(a)) && HoldsKeys(After(cfg, s, trace), c)
    ensures HoldsKeys(s, c)
  {
    if trace != [] {
      HoldsKeysBackward(cfg, After(cfg, s, trace[..|trace| - 1]), trace[|trace| - 1], c);
      HeldFromTheStart(cfg, s, trace[..|trace| - 1], c);
    }
  }

  lemma Wait(cfg: Config, origin: State, s: State, until: nat) returns (t: State)
    requires QuietlyReaches(cfg, origin, s)
    ensures QuietlyReaches(cfg, origin, t) && t == s.(now := if until > s.now then until else s.now)
  {
    var elapsed := if until > s.now then until - s.now else 0;
    QuietStep(cfg, origin, s, Tick(elapsed));
    t := Step(cfg, s, Tick(elapsed));
  }

  lemma ResumesCheck(cfg: Config, origin: State, s: State) returns (t: State)
    requires QuietlyReaches(cfg, origin, s) && (s.sweep.Cleaning? || s.sweep.Revoking?)
    ensures QuietlyReaches(cfg, origin, t) && t == s.(sweep := t.sweep)
    ensures t.sweep.Cleaning? && t.sweep.cluster == s.sweep.cluster && t.sweep.keys == s.sweep.keys
  {
    t := s;
    if s.sweep.Revoking? {
      QuietStep(cfg, origin, s, SweepRevoke(false));
      t := Step(cfg, s, SweepRevoke(false));
    }
  }

  /** From a state that holds keys of `c`, the cleaner can come to ask about one of them at any later time at which
      the lease has expired. */
  lemma ComesToCheck(cfg: Config, s: State, c: string, until: nat) returns (t: State, key: Key)
    requires SweepKnown(s) && HoldsKeys(s, c) && c in s.table
    requires s.now <= until && Expired(s.table[c], until)
    ensures QuietlyReaches(cfg, s, t) && t == s.(now := until, sweep := t.sweep)
    ensures t.sweep.Cleaning? && t.sweep.cluster == c && key in t.sweep.keys
  {
    QuietlyReachesItself(cfg, s);
    t := Wait(cfg, s, s, until);
    if (s.sweep.Cleaning? || s.sweep.Revoking?) && s.sweep.cluster == c && s.sweep.keys != {} {
      t := ResumesCheck(cfg, s, t);
    } else {
      Drain(cfg, s, t);
      t := StartCleaning(cfg, s, t.(sweep := Idle), c);
    }
    key :| key in t.sweep.keys;
  }

  /** What lets a revoke for `c` start too early: `c` has a deadline and keys, its recorded reading is not its latest,
      and the lease duration has not passed since the latest. */
  predicate Overtaken(cfg: Config, s: State, c: string) {
    && c in s.table && s.table[c].deadline != 0 && HoldsKeys(s, c)
    && c in s.recorded && c in s.sampled && s.recorded[c] != s.sampled[c] && !PastLatest(cfg, s, c)
  }

  lemma EarlyIsOvertaken(cfg: Config, s: State, c: string, key: Key)
    requires Reachable(cfg, s) && StartsRevoke(cfg, s, c, key) && !PastLatest(cfg, s, c)
    ensures Overtaken(cfg, s, c)
  {
    ReachableLeases(cfg, s);
    assert key in s.sweep.keys;
  }

  lemma EarlyOnlyIfOvertaken(cfg: Config, s: State, c: string)
    requires Reachable(cfg, s) && MayRevokeEarly(cfg, s, c)
    ensures Overtaken(cfg, s, c)
  {
    var t, key :| QuietlyReaches(cfg, s, t) && StartsRevoke(cfg, t, c, key) && !PastLatest(cfg, t, c);
    var trace :| Possible(cfg, s, trace) && (forall a | a in trace :: Quiet(a)) && After(cfg, s, trace) == t;
    QuietlyReachable(cfg, s, t);
    EarlyIsOvertaken(cfg, t, c, key);
    HeldFromTheStart(cfg, s, trace, c);
  }

  lemma OvertakenGoesEarly(cfg: Config, s: State, c: string)
    requires Reachable(cfg, s) && Overtaken(cfg, s, c)
    ensures MayRevokeEarly(cfg, s, c)
  {
    ReachableLeases(cfg, s);
    var t, key := ComesToCheck(cfg, s, c, s.sampled[c] + cfg.duration);
    assert StartsRevoke(cfg, t, c, key) && !PastLatest(cfg, t, c);
  }

  /** Whatever the clients do: from a reachable state the clock and the cleaner alone can start a revoke for `c` too
      early exactly when its recorded reading has been overtaken. */
  lemma EarlyRevokeIff(cfg: Config, s: State, c: string)
    requires Reachable(cfg, s)
    ensures MayRevokeEarly(cfg, s, c) <==> Overtaken(cfg, s, c)
  {
    if MayRevokeEarly(cfg, s, c) {
      EarlyOnlyIfOvertaken(cfg, s, c);
    }
    if Overtaken(cfg, s, c) {
      OvertakenGoesEarly(cfg, s, c);
    }
  }

  // --- One renewal at a time ---

  /** Of each cluster at most one request has read the clock and not yet recorded its deadline. */
  ghost predicate OneRenewal(s: State) {
    forall i, j | i in s.requests && j in s.requests && i != j && s.requests[i].phase.Sampled?
                  && s.requests[j].phase.Sampled? :: s.requests[i].cluster != s.requests[j].cluster
  }

  /** A renewal under way has read the clock last, for a known cluster. */
  ghost predicate RenewalsLatest(s: State) {
    forall i | i in s.requests && s.requests[i].phase.Sampled? ::
      && s.requests[i].cluster in s.sampled && s.sampled[s.requests[i].cluster] == s.requests[i].phase.t
      && s.requests[i].cluster in s.table
  }

  /** Except while a renewal is under way, the recorded reading is the latest one. */
  ghost predicate RestRecorded(s: State) {
    forall c | c in s.sampled && !Renewing(s, c) :: c in s.recorded && s.recorded[c] == s.sampled[c]
  }

  ghost predicate RenewalInvariant(s: State) {
    OneRenewal(s) && RenewalsLatest(s) && RestRecorded(s)
  }

  /** The renewals under way of all clusters but `c` are the same in `t`. */
  ghost predicate SameRenewals(s: State, t: State, c: string) {
    && (forall i | i in t.requests && t.requests[i].phase.Sampled? && t.requests[i].cluster != c ::
          i in s.requests && s.requests[i] == t.requests[i])
    && (forall i | i in s.requests && s.requests[i].phase.Sampled? && s.requests[i].cluster != c ::
          i in t.requests && t.requests[i] == s.requests[i])
  }

  lemma RenewingElsewhere(s: State, t: State, c: string, d: string)
    requires SameRenewals(s, t, c) && d != c
    ensures Renewing(s, d) <==> Renewing(t, d)
  {
  }

  lemma RestElsewhere(s: State, t: State, c: string)
    requires RestRecorded(s) && SameRenewals(s, t, c)
    requires forall d | d in t.sampled && d != c :: d in s.sampled && t.sampled[d] == s.sampled[d]
    requires forall d | d in s.recorded && d != c :: d in t.recorded && t.recorded[d] == s.recorded[d]
    requires Renewing(t, c) || c !in t.sampled || (c in t.recorded && t.recorded[c] == t.sampled[c])
    ensures RestRecorded(t)
  {
    forall d | d in t.sampled && !Renewing(t, d) ensures d in t.recorded && t.recorded[d] == t.sampled[d] {
      if d != c {
        RenewingElsewhere(s, t, c, d);
      }
    }
  }

  /** Steps that read no clock for a renewal and record none. */
  lemma RenewalFrame(s: State, t: State)
    requires RenewalInvariant(s)
    requires t.sampled == s.sampled && t.recorded == s.recorded && s.table.Keys <= t.table.Keys
    requires forall i | i in t.requests && t.requests[i].phase.Sampled? ::
      i in s.requests && s.requests[i] == t.requests[i]
    requires forall i | i in s.requests && s.requests[i].phase.Sampled? ::
      i in t.requests && s.requests[i] == t.requests[i]
    ensures RenewalInvariant(t)
  {
    forall c | Renewing(s, c) ensures Renewing(t, c) {
      var i :| i in s.requests && s.requests[i].cluster == c && s.requests[i].phase.Sampled?;
      assert i in t.requests && t.requests[i].phase.Sampled?;
    }
  }

  lemma SampleStep(cfg: Config, s: State, id: nat)
    requires cfg.disjointRenewals && RenewalInvariant(s) && Enabled(cfg, s, Sample(id))
    ensures RenewalInvariant(DoSample(s, id))
  {
    var t, c := DoSample(s, id), s.requests[id].cluster;
    if c == "" {
      RenewalFrame(s, t);
    } else {
      assert t.requests[id].phase.Sampled? && Renewing(t, c);
      SampleAlone(cfg, s, id);
      RestElsewhere(s, t, c);
    }
  }

  lemma SampleAlone(cfg: Config, s: State, id: nat)
    requires OneRenewal(s) && RenewalsLatest(s) && id in s.requests && s.requests[id].phase == Arrived
    requires s.requests[id].cluster != "" && !Renewing(s, s.requests[id].cluster)
    ensures var t := DoSample(s, id);
            OneRenewal(t) && RenewalsLatest(t) && SameRenewals(s, t, s.requests[id].cluster)
  {
    var t, c := DoSample(s, id), s.requests[id].cluster;
    forall i | i in t.requests && i != id && t.requests[i].phase.Sampled?
      ensures t.requests[i] == s.requests[i] && t.requests[i].cluster != c
    {
      assert i in s.requests;
    }
  }

  lemma RecordStep(cfg: Config, s: State, id: nat)
    requires RenewalInvariant(s) && id in s.requests && s.requests[id].phase.Sampled?
    ensures RenewalInvariant(DoRecord(cfg, s, id))
  {
    RestElsewhere(s, DoRecord(cfg, s, id), s.requests[id].cluster);
  }

  lemma RecoverStep(cfg: Config, s: State, a: Action)
    requires RenewalInvariant(s) && a.Recover? && Enabled(cfg, s, a)
    ensures RenewalInvariant(Step(cfg, s, a))
  {
    assert !Renewing(s, a.cluster);
    RestElsewhere(s, DoRecover(cfg, s, a.cluster, a.key), a.cluster);
  }

  lemma OtherStep(cfg: Config, s: State, a: Action)
    requires RenewalInvariant(s) && Enabled(cfg, s, a) && (a.Arrive? || a.Work? || a.Finish? || a.OwnOp?)
    ensures RenewalInvariant(Step(cfg, s, a))
  {
    var t := Step(cfg, s, a);
    if a.Work? {
      WorkFrame(s, a.id, a.ok);
    } else if a.Finish? {
      assert t.requests == s.requests - {a.id};
    } else if a.Arrive? {
      assert forall i | i in s.requests :: t.requests[i] == s.requests[i];
    }
    RenewalFrame(s, t);
  }

  lemma RenewalStep(cfg: Config, s: State, a: Action)
    requires cfg.disjointRenewals && RenewalInvariant(s) && Enabled(cfg, s, a)
    ensures RenewalInvariant(Step(cfg, s, a))
  {
    if Quiet(a) {
      QuietStepFrame(cfg, s, a);
      RenewalFrame(s, Step(cfg, s, a));
    } else if a.Sample? {
      SampleStep(cfg, s, a.id);
    } else if a.Record? {
      RecordStep(cfg, s, a.id);
    } else if a.Recover? {
      RecoverStep(cfg, s, a);
    } else {
      OtherStep(cfg, s, a);
    }
  }

  lemma {:induction false} RenewalAlways(cfg: Config, start: nat, trace: seq<Action>)
    requires cfg.disjointRenewals && Possible(cfg, Initial(start), trace)
    ensures RenewalInvariant(After(cfg, Initial(start), trace))
  {
    if trace != [] {
      RenewalAlways(cfg, start, trace[..|trace| - 1]);
      RenewalStep(cfg, After(cfg, Initial(start), trace[..|trace| - 1]), trace[|trace| - 1]);
    }
  }

  /** If a cluster's renewals never overlap, the recorded reading is its latest one unless a renewal is under way, so
      the cleaner starts a revoke too early only during a renewal. */
  lemma EarlyOnlyWhileRenewing(cfg: Config, s: State, c: string, key: Key)
    requires cfg.disjointRenewals && Reachable(cfg, s) && StartsRevoke(cfg, s, c, key) && !Renewing(s, c)
    ensures PastLatest(cfg, s, c)
  {
    ReachableLeases(cfg, s);
    var start, trace :| Possible(cfg, Initial(start), trace) && After(cfg, Initial(start), trace) == s;
    RenewalAlways(cfg, start, trace);
  }
}
