/** The manager's protocol step by step: any number of threads, each acquiring the lock, reading, deciding, writing
    and releasing, interleaved in any order and with any client call failing. */
module Locking {
  import opened Model
  import opened Endpoints
  import opened Registry
  import Runs

  datatype Write = Create(key: Key, spec: Spec) | Update(key: Key, spec: Spec) | Delete(key: Key) | Keep

  datatype Pc =
    | Waiting
    | Locked
    | Ensured
    | Fetched(found: Option<Spec>)
    | Decided(write: Write)
    | Finished(ok: bool)
    | Released(ok: bool)

  datatype Thread = Thread(op: Op, pc: Pc)

  /** `order` lists the threads in the order in which they got the lock. */
  datatype System = System(services: Services, holder: Option<nat>, threads: map<nat, Thread>, order: seq<nat>)

  datatype Action =
    | Call(t: nat, op: Op)
    | Acquire(t: nat)
    | EnsureNamespace(t: nat, ok: bool)
    | Read(t: nat, ok: bool)
    | Decide(t: nat)
    | Commit(t: nat, ok: bool)
    | Release(t: nat)

  function Lookup(services: Services, key: Key): Option<Spec> {
    if key in services then Some(services[key]) else None
  }

  /** The write that a thread settles on after its read. */
  function Choose(op: Op, found: Option<Spec>): Write {
    match op
    case Export(key, cluster, spec) =>
      if found.None? then Create(key, Merged([], cluster, spec))
      else
        var merged := Merged(found.value.endpoints, cluster, spec);
        if merged == found.value then Keep else Update(key, merged)
    case Revoke(key, cluster) =>
      if found.None? then Keep
      else
        var rest := Outside(found.value.endpoints, {cluster});
        if rest == [] then Delete(key) else Update(key, found.value.(endpoints := rest))
  }

  /** Whether the store accepts a write at all. */
  predicate Accepted(services: Services, w: Write) {
    match w
    case Create(key, _) => key !in services
    case Update(key, _) => key in services
    case Delete(key) => key.name != "" && key in services
    case Keep => true
  }

  function Written(services: Services, w: Write): Services {
    match w
    case Create(key, spec) => services[key := spec]
    case Update(key, spec) => services[key := spec]
    case Delete(key) => services - {key}
    case Keep => services
  }

  predicate NeedsNamespace(createNamespaces: bool, op: Op) {
    createNamespaces && op.Export?
  }

  /** Every service has a name; a call may be made at any time. */
  predicate Enabled(createNamespaces: bool, s: System, a: Action) {
    if a.Call? then a.t !in s.threads && a.op.key.name != ""
    else if a.t !in s.threads then false
    else
      var th := s.threads[a.t];
      match a
      case Acquire(_) => th.pc == Waiting && s.holder == None
      case EnsureNamespace(_, _) => th.pc == Locked && NeedsNamespace(createNamespaces, th.op)
      case Read(_, _) => th.pc == Ensured || (th.pc == Locked && !NeedsNamespace(createNamespaces, th.op))
      case Decide(_) => th.pc.Fetched?
      case Commit(_, _) => th.pc.Decided?
      case Release(_) => th.pc.Finished?
  }

  function Goto(s: System, t: nat, pc: Pc): System
    requires t in s.threads
  {
    s.(threads := s.threads[t := s.threads[t].(pc := pc)])
  }

  function Step(createNamespaces: bool, s: System, a: Action): System
    requires Enabled(createNamespaces, s, a)
  {
    match a
    case Call(t, op) => s.(threads := s.threads[t := Thread(op, Waiting)])
    case Acquire(t) => Goto(s, t, Locked).(holder := Some(t), order := s.order + [t])
    case EnsureNamespace(t, ok) => Goto(s, t, if ok then Ensured else Finished(false))
    case Read(t, ok) =>
      var op := s.threads[t].op;
      var found := Lookup(s.services, op.key);
      if !ok then Goto(s, t, if op.Export? then Finished(false) else Decided(Delete(Key("", ""))))
      else if op.Revoke? && found.None? then Goto(s, t, Finished(true))
      else Goto(s, t, Fetched(found))
    case Decide(t) => Goto(s, t, Decided(Choose(s.threads[t].op, s.threads[t].pc.found)))
    case Commit(t, ok) =>
      var w := s.threads[t].pc.write;
      if w.Keep? then Goto(s, t, Finished(true))
      else if ok && Accepted(s.services, w) then Goto(s, t, Finished(true)).(services := Written(s.services, w))
      else Goto(s, t, Finished(false))
    case Release(t) => Goto(s, t, Released(s.threads[t].pc.ok)).(holder := None)
  }

  ghost predicate Possible(createNamespaces: bool, s: System, trace: seq<Action>)
    decreases |trace|, 0
  {
    trace == [] ||
    (Possible(createNamespaces, s, trace[..|trace| - 1])
     && Enabled(createNamespaces, After(createNamespaces, s, trace[..|trace| - 1]), trace[|trace| - 1]))
  }

  ghost function After(createNamespaces: bool, s: System, trace: seq<Action>): System
    requires Possible(createNamespaces, s, trace)
    decreases |trace|, 1
  {
    if trace == [] then s
    else Step(createNamespaces, After(createNamespaces, s, trace[..|trace| - 1]), trace[|trace| - 1])
  }

  function Initial(services: Services): System {
    System(services, None, map[], [])
  }

  predicate Succeeded(th: Thread) {
    (th.pc.Finished? || th.pc.Released?) && th.pc.ok
  }

  /** The operations that have succeeded, in lock order. */
  function Effects(order: seq<nat>, threads: map<nat, Thread>): seq<Op> {
    if order == [] then []
    else
      var t := order[|order| - 1];
      if t in threads && Succeeded(threads[t]) then Effects(order[..|order| - 1], threads) + [threads[t].op]
      else Effects(order[..|order| - 1], threads)
  }

  lemma {:induction false} EffectsFrame(order: seq<nat>, threads: map<nat, Thread>, others: map<nat, Thread>)
    requires forall t | t in order && t in threads ::
      t in others && others[t].op == threads[t].op && (Succeeded(others[t]) <==> Succeeded(threads[t]))
    requires forall t | t in order && t in others :: t in threads
    ensures Effects(order, threads) == Effects(order, others)
  {
    if order != [] {
      assert order[|order| - 1] in order;
      EffectsFrame(order[..|order| - 1], threads, others);
    }
  }

  predicate Inside(pc: Pc) {
    pc != Waiting && !pc.Released?
  }

  /** What a thread inside the lock knows about the store. */
  ghost predicate Current(services: Services, th: Thread) {
    var found := Lookup(services, th.op.key);
    && (th.pc.Fetched? ==> th.pc.found == found && (th.op.Revoke? ==> found.Some?))
    && (th.pc.Decided? ==>
          || th.pc.write == Delete(Key("", ""))
          || (th.pc.write == Choose(th.op, found) && (th.op.Revoke? ==> found.Some?)))
  }

  /** Mutual exclusion, and the lock order lists each thread that got the lock once. */
  ghost predicate Exclusive(s: System) {
    && (forall t | t in s.threads :: s.threads[t].op.key.name != "")
    && (forall t | t in s.threads && Inside(s.threads[t].pc) ::
          s.holder == Some(t) && Current(s.services, s.threads[t]))
    && (s.holder.Some? ==> s.order != [] && s.order[|s.order| - 1] == s.holder.value
                           && s.holder.value in s.threads && Inside(s.threads[s.holder.value].pc))
    && (forall t :: t in s.order <==> t in s.threads && s.threads[t].pc != Waiting)
    && (forall i, j | 0 <= i < j < |s.order| :: s.order[i] != s.order[j])
  }

  ghost predicate Invariant(start: Services, s: System) {
    s.services == Run(start, Effects(s.order, s.threads)) && Exclusive(s)
  }

  /** The holder's choice, written to a store that has not changed since its read, is the atomic operation. */
  lemma ChoiceIsApply(services: Services, op: Op)
    requires op.key.name != "" && (op.Revoke? ==> op.key in services)
    ensures var w := Choose(op, Lookup(services, op.key));
            Accepted(services, w) && Written(services, w) == Apply(services, op)
  {
    assert Outside([], {op.cluster}) == [];
    if op.key in services {
      assert services == services[op.key := services[op.key]];
    }
  }

  /** Steps that neither finish the holder with success nor touch the store keep the invariant. */
  lemma QuietStep(start: Services, s: System, t: nat, pc: Pc)
    requires Invariant(start, s) && t in s.threads && Inside(s.threads[t].pc) && Inside(pc)
    requires !Succeeded(s.threads[t]) && !Succeeded(s.threads[t].(pc := pc))
    requires Current(s.services, s.threads[t].(pc := pc))
    ensures Invariant(start, Goto(s, t, pc))
  {
    EffectsFrame(s.order, s.threads, Goto(s, t, pc).threads);
  }

  lemma SuccessEffects(s: System, t: nat)
    requires Exclusive(s) && t in s.threads && Inside(s.threads[t].pc) && !Succeeded(s.threads[t])
    ensures var next := Goto(s, t, Finished(true));
            Effects(next.order, next.threads) == Effects(s.order, s.threads) + [s.threads[t].op]
  {
    var next := Goto(s, t, Finished(true));
    var before := s.order[..|s.order| - 1];
    assert forall i | 0 <= i < |before| :: before[i] == s.order[i];
    EffectsFrame(before, s.threads, next.threads);
  }

  /** The step in which the holder succeeds appends its operation to the effects. */
  lemma SuccessStep(start: Services, s: System, t: nat, services: Services)
    requires Invariant(start, s) && t in s.threads && Inside(s.threads[t].pc) && !Succeeded(s.threads[t])
    requires services == Apply(s.services, s.threads[t].op)
    ensures Invariant(start, Goto(s, t, Finished(true)).(services := services))
  {
    SuccessEffects(s, t);
    RunOne(start, Effects(s.order, s.threads), s.threads[t].op);
  }

  lemma CallStep(start: Services, s: System, t: nat, op: Op)
    requires Invariant(start, s) && t !in s.threads && op.key.name != ""
    ensures Invariant(start, s.(threads := s.threads[t := Thread(op, Waiting)]))
  {
    EffectsFrame(s.order, s.threads, s.threads[t := Thread(op, Waiting)]);
  }

  lemma AcquireStep(start: Services, s: System, t: nat)
    requires Invariant(start, s) && t in s.threads && s.threads[t].pc == Waiting && s.holder == None
    ensures Invariant(start, Goto(s, t, Locked).(holder := Some(t), order := s.order + [t]))
  {
    var next := Goto(s, t, Locked).(holder := Some(t), order := s.order + [t]);
    EffectsFrame(s.order, s.threads, next.threads);
    assert next.order[..|next.order| - 1] == s.order;
    assert t !in s.order;
    OrderedOnce(s.order, t);
  }

  lemma OrderedOnce(order: seq<nat>, t: nat)
    requires t !in order && forall i, j | 0 <= i < j < |order| :: order[i] != order[j]
    ensures forall i, j | 0 <= i < j < |order + [t]| :: (order + [t])[i] != (order + [t])[j]
  {
    assert forall i | 0 <= i < |order| :: order[i] in order;
  }

  lemma ReleaseStep(start: Services, s: System, t: nat)
    requires Invariant(start, s) && t in s.threads && s.threads[t].pc.Finished?
    ensures Invariant(start, Goto(s, t, Released(s.threads[t].pc.ok)).(holder := None))
  {
    EffectsFrame(s.order, s.threads, Goto(s, t, Released(s.threads[t].pc.ok)).threads);
  }

  lemma SuccessIsApply(createNamespaces: bool, start: Services, s: System, a: Action)
    requires Invariant(start, s) && Enabled(createNamespaces, s, a) && (a.Read? || a.Commit?)
    requires Succeeded(Step(createNamespaces, s, a).threads[a.t])
    ensures Step(createNamespaces, s, a) == Goto(s, a.t, Finished(true)).(
                                              services := Apply(s.services, s.threads[a.t].op))
  {
    var op := s.threads[a.t].op;
    if op.Export? || op.key in s.services {
      ChoiceIsApply(s.services, op);
    }
  }

  lemma HolderStep(createNamespaces: bool, start: Services, s: System, a: Action)
    requires Invariant(start, s) && Enabled(createNamespaces, s, a) && !a.Call? && !a.Acquire? && !a.Release?
    ensures Invariant(start, Step(createNamespaces, s, a))
  {
    var next := Step(createNamespaces, s, a);
    if (a.Read? || a.Commit?) && Succeeded(next.threads[a.t]) {
      SuccessIsApply(createNamespaces, start, s, a);
      SuccessStep(start, s, a.t, next.services);
    } else {
      QuietStep(start, s, a.t, next.threads[a.t].pc);
    }
  }

  lemma StepKeepsInvariant(createNamespaces: bool, start: Services, s: System, a: Action)
    requires Invariant(start, s) && Enabled(createNamespaces, s, a)
    ensures Invariant(start, Step(createNamespaces, s, a))
  {
    if a.Call? {
      CallStep(start, s, a.t, a.op);
    } else if a.Acquire? {
      AcquireStep(start, s, a.t);
    } else if a.Release? {
      ReleaseStep(start, s, a.t);
    } else {
      HolderStep(createNamespaces, start, s, a);
    }
  }

  lemma {:induction false} InvariantAlways(createNamespaces: bool, start: Services, trace: seq<Action>)
    requires Possible(createNamespaces, Initial(start), trace)
    ensures Invariant(start, After(createNamespaces, Initial(start), trace))
  {
    if trace != [] {
      var rest, last := trace[..|trace| - 1], trace[|trace| - 1];
      InvariantAlways(createNamespaces, start, rest);
      StepKeepsInvariant(createNamespaces, start, After(createNamespaces, Initial(start), rest), last);
    }
  }

  /** Every interleaving, at every moment, has brought the store to the state that the operations that succeeded reach
      one after the other in lock order; failed operations have no effect and no thread takes the lock twice. */
  lemma Serialisable(createNamespaces: bool, start: Services, trace: seq<Action>)
    requires Possible(createNamespaces, Initial(start), trace)
    ensures var s := After(createNamespaces, Initial(start), trace);
            && s.services == Run(start, Effects(s.order, s.threads))
            && (forall t | t in s.threads && Succeeded(s.threads[t]) :: t in s.order)
            && (forall i, j | 0 <= i < j < |s.order| :: s.order[i] != s.order[j])
  {
    InvariantAlways(createNamespaces, start, trace);
  }

  ghost predicate AllTagged(threads: map<nat, Thread>) {
    forall t | t in threads :: WellTagged(threads[t].op)
  }

  /** No update is lost: whatever the interleaving, each cluster's endpoints are those of its own last success. */
  lemma NoLostUpdate(createNamespaces: bool, trace: seq<Action>, key: Key, c: string)
    requires Possible(createNamespaces, Initial(map[]), trace)
    requires AllTagged(After(createNamespaces, Initial(map[]), trace).threads)
    ensures var s := After(createNamespaces, Initial(map[]), trace);
            Only(EndpointsOf(s.services, key), c) == Runs.Published(Effects(s.order, s.threads), key, c)
  {
    var s := After(createNamespaces, Initial(map[]), trace);
    InvariantAlways(createNamespaces, map[], trace);
    EffectsTagged(s.order, s.threads);
    Runs.SublistIsPublished(Effects(s.order, s.threads), key, c);
  }

  lemma {:induction false} EffectsTagged(order: seq<nat>, threads: map<nat, Thread>)
    requires AllTagged(threads)
    ensures Runs.AllTagged(Effects(order, threads))
  {
    if order != [] {
      EffectsTagged(order[..|order| - 1], threads);
    }
  }

  lemma {:induction false} OrderGrows(createNamespaces: bool, s: System, trace: seq<Action>)
    requires Possible(createNamespaces, s, trace)
    ensures s.order <= After(createNamespaces, s, trace).order
  {
    if trace != [] {
      OrderGrows(createNamespaces, s, trace[..|trace| - 1]);
    }
  }

  /** Under the lock no write is ever refused for what another thread has done: only a failed call or a failed read
      makes an operation fail. */
  lemma NoConflicts(createNamespaces: bool, start: Services, trace: seq<Action>, t: nat)
    requires Possible(createNamespaces, Initial(start), trace)
    requires var s := After(createNamespaces, Initial(start), trace);
             t in s.threads && s.threads[t].pc.Decided? && s.threads[t].pc.write != Delete(Key("", ""))
    ensures var s := After(createNamespaces, Initial(start), trace);
            Accepted(s.services, s.threads[t].pc.write)
  {
    var s := After(createNamespaces, Initial(start), trace);
    InvariantAlways(createNamespaces, start, trace);
    ChoiceIsApply(s.services, s.threads[t].op);
  }

  /** The step `a` is a client call of thread `t`, and it fails. Settling on no write makes no call. */
  predicate Fails(s: System, a: Action, t: nat) {
    match a
    case EnsureNamespace(u, ok) => u == t && !ok
    case Read(u, ok) => u == t && !ok
    case Commit(u, ok) =>
      u == t && !ok && !(t in s.threads && s.threads[t].pc.Decided? && s.threads[t].pc.write.Keep?)
    case _ => false
  }

  /** Some client call of thread `t` has failed. */
  ghost predicate CallFailed(createNamespaces: bool, s: System, trace: seq<Action>, t: nat)
    requires Possible(createNamespaces, s, trace)
  {
    trace != []
    && (CallFailed(createNamespaces, s, trace[..|trace| - 1], t)
        || Fails(After(createNamespaces, s, trace[..|trace| - 1]), trace[|trace| - 1], t))
  }

  /** The thread has failed, or is about to delete an object without a name after a failed read. */
  predicate Doomed(th: Thread) {
    ((th.pc.Finished? || th.pc.Released?) && !th.pc.ok) || th.pc == Decided(Delete(Key("", "")))
  }

  lemma CommitDoom(createNamespaces: bool, start: Services, s: System, t: nat, ok: bool)
    requires Invariant(start, s) && Enabled(createNamespaces, s, Commit(t, ok))
    ensures Doomed(Step(createNamespaces, s, Commit(t, ok)).threads[t])
       <==> Doomed(s.threads[t]) || Fails(s, Commit(t, ok), t)
  {
    var th := s.threads[t];
    if th.pc.write != Delete(Key("", "")) {
      ChoiceIsApply(s.services, th.op);
    }
  }

  lemma DoomStep(createNamespaces: bool, start: Services, s: System, a: Action, t: nat)
    requires Invariant(start, s) && Enabled(createNamespaces, s, a) && t in s.threads
    ensures t in Step(createNamespaces, s, a).threads
    ensures Doomed(Step(createNamespaces, s, a).threads[t]) <==> Doomed(s.threads[t]) || Fails(s, a, t)
  {
    if a.t != t {
      assert Step(createNamespaces, s, a).threads[t] == s.threads[t];
    } else if a.Commit? {
      CommitDoom(createNamespaces, start, s, t, a.ok);
    } else if a.Decide? {
      assert s.threads[t].op.key.name != "";
    }
  }

  /** A thread is doomed exactly when one of its client calls has failed. */
  lemma {:induction false} DoomedIff(createNamespaces: bool, start: Services, trace: seq<Action>, t: nat)
    requires Possible(createNamespaces, Initial(start), trace)
    ensures var s := After(createNamespaces, Initial(start), trace);
            CallFailed(createNamespaces, Initial(start), trace, t) <==> t in s.threads && Doomed(s.threads[t])
  {
    if trace != [] {
      var rest, a := trace[..|trace| - 1], trace[|trace| - 1];
      var s := After(createNamespaces, Initial(start), rest);
      DoomedIff(createNamespaces, start, rest, t);
      InvariantAlways(createNamespaces, start, rest);
      if t in s.threads {
        DoomStep(createNamespaces, start, s, a, t);
      } else {
        Unborn(createNamespaces, s, a, t);
      }
    }
  }

  lemma Unborn(createNamespaces: bool, s: System, a: Action, t: nat)
    requires Enabled(createNamespaces, s, a) && t !in s.threads
    ensures !Fails(s, a, t)
    ensures var next := Step(createNamespaces, s, a);
            t in next.threads ==> next.threads[t].pc == Waiting
  {
  }

  /** An operation that has ended has failed if and only if one of its own client calls failed. If none did, it is among
      the effects. */
  lemma FailsIffCallFailed(createNamespaces: bool, start: Services, trace: seq<Action>, t: nat)
    requires Possible(createNamespaces, Initial(start), trace)
    requires var s := After(createNamespaces, Initial(start), trace);
             t in s.threads && (s.threads[t].pc.Finished? || s.threads[t].pc.Released?)
    ensures var s := After(createNamespaces, Initial(start), trace);
            && (s.threads[t].pc.ok <==> !CallFailed(createNamespaces, Initial(start), trace, t))
            && (!CallFailed(createNamespaces, Initial(start), trace, t) ==>
                  s.threads[t].op in Effects(s.order, s.threads))
  {
    var s := After(createNamespaces, Initial(start), trace);
    DoomedIff(createNamespaces, start, trace, t);
    InvariantAlways(createNamespaces, start, trace);
    if s.threads[t].pc.ok {
      SuccessInEffects(s.order, s.threads, t);
    }
  }

  lemma {:induction false} SuccessInEffects(order: seq<nat>, threads: map<nat, Thread>, t: nat)
    requires t in order && t in threads && Succeeded(threads[t])
    ensures threads[t].op in Effects(order, threads)
  {
    var rest, last := order[..|order| - 1], order[|order| - 1];
    assert order == rest + [last];
    if last != t {
      SuccessInEffects(rest, threads, t);
    }
  }

  /** An export that is past its namespace. */
  predicate PastNamespace(th: Thread) {
    th.op.Export? && (th.pc == Ensured || th.pc.Fetched? || th.pc.Decided? || Succeeded(th))
  }

  lemma NamespaceStep(start: Services, s: System, a: Action, t: nat)
    requires Invariant(start, s) && Enabled(true, s, a) && a != EnsureNamespace(t, true)
    ensures var next := Step(true, s, a);
            t in next.threads && PastNamespace(next.threads[t]) ==> t in s.threads && PastNamespace(s.threads[t])
  {
    if a.t != t && t in s.threads {
      assert Step(true, s, a).threads[t] == s.threads[t];
    }
  }

  /** With namespace creation on, no export succeeds before its namespace has been ensured. */
  lemma {:induction false} NamespaceEnsuredFirst(start: Services, trace: seq<Action>, t: nat)
    requires Possible(true, Initial(start), trace)
    requires var s := After(true, Initial(start), trace);
             t in s.threads && PastNamespace(s.threads[t])
    ensures EnsureNamespace(t, true) in trace
  {
    if trace != [] {
      var rest, last := trace[..|trace| - 1], trace[|trace| - 1];
      assert trace == rest + [last];
      if last != EnsureNamespace(t, true) {
        InvariantAlways(true, start, rest);
        NamespaceStep(start, After(true, Initial(start), rest), last, t);
        NamespaceEnsuredFirst(start, rest, t);
      }
    }
  }

  /** There is no deadlock: while some thread has not returned, some thread can take its next step. */
  lemma NeverStuck(createNamespaces: bool, start: Services, trace: seq<Action>, t: nat)
    requires Possible(createNamespaces, Initial(start), trace)
    requires var s := After(createNamespaces, Initial(start), trace);
             t in s.threads && !s.threads[t].pc.Released?
    ensures exists a: Action :: !a.Call? && Enabled(createNamespaces, After(createNamespaces, Initial(start), trace), a)
  {
    var s := After(createNamespaces, Initial(start), trace);
    InvariantAlways(createNamespaces, start, trace);
    var u := if s.holder.Some? then s.holder.value else t;
    var th := s.threads[u];
    var next := match th.pc
                case Waiting => Acquire(u)
                case Locked =>
                  if NeedsNamespace(createNamespaces, th.op) then EnsureNamespace(u, true) else Read(u, true)
                case Ensured => Read(u, true)
                case Fetched(_) => Decide(u)
                case Decided(_) => Commit(u, true)
                case Finished(_) => Release(u);
    assert Enabled(createNamespaces, s, next);
  }

  /** Lock order respects real time: a call that returned before another was made comes first. */
  lemma RealTimeOrder(createNamespaces: bool, start: Services, early: seq<Action>, late: seq<Action>, t: nat, u: nat)
    requires Possible(createNamespaces, Initial(start), early)
    requires var s := After(createNamespaces, Initial(start), early);
             && t in s.threads && s.threads[t].pc.Released? && u !in s.threads
             && Possible(createNamespaces, s, late)
             && u in After(createNamespaces, s, late).order
    ensures var order := After(createNamespaces, After(createNamespaces, Initial(start), early), late).order;
            exists i, j :: 0 <= i < j < |order| && order[i] == t && order[j] == u
  {
    var s := After(createNamespaces, Initial(start), early);
    InvariantAlways(createNamespaces, start, early);
    OrderGrows(createNamespaces, s, late);
    var order := After(createNamespaces, s, late).order;
    var i :| 0 <= i < |s.order| && s.order[i] == t;
    var j :| 0 <= j < |order| && order[j] == u;
    assert forall q | 0 <= q < |s.order| :: order[q] == s.order[q] && s.order[q] in s.order;
    assert order[i] == t;
  }
}
