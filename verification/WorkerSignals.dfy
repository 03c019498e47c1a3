/** What workers are told of being enabled and disabled, and exactly which steps leave a worker
    with the wrong idea. */
module WorkerSignals {
  import opened Results
  import opened Registry
  import opened RegistryInvariants
  import opened RegistryOutcomes
  import opened InstanceState
  import opened ExecutionState

  /** What a worker makes of these signals: the last one it was sent, or else what it knew before. */
  function Heard(signals: seq<Signal>, p: Proxy, before: bool): bool {
    if signals == [] then before
    else if signals[|signals| - 1].proxy == p then signals[|signals| - 1].OnEnable?
    else Heard(signals[..|signals| - 1], p, before)
  }

  /** What the worker of a loaded instance should think: that it is enabled exactly while it is,
      or while word of its disabling waits for the end of its execution. */
  predicate MayServe(s: State, k: Id)
    requires k in s.instances
  {
    s.instances[k].enabled || k in s.deferred
  }

  predicate SameWorker(s: State, t: State, k: Id) {
    k in s.instances && k in t.instances && t.instances[k].proxy == s.instances[k].proxy
  }

  /** The signals of the steps from s to t leave the worker of k thinking what it should. */
  ghost predicate KeepsPosted(s: State, t: State, k: Id)
    requires k in s.instances && k in t.instances
  {
    && s.signals <= t.signals
    && Heard(t.signals[|s.signals|..], s.instances[k].proxy, MayServe(s, k)) == MayServe(t, k)
  }

  /** Another instance of the capability k is cleaned up. */
  predicate RemovesSibling(s: State, op: Op, k: Id) {
    match op
    case Unload(j, cleans) => cleans && j in s.instances && j != k && s.instances[j].capability == k
    case Reload(j, config, w) => w.cleans && ReloadReaches(s, j, config, w) && j != k && s.instances[j].capability == k
    case _ => false
  }

  /** The waiting hook is sent to an instance that has been enabled again, or is dropped with a
      sibling's while the instance is disabled. */
  predicate Misleads(s: State, op: Op, k: Id)
    requires k in s.instances
  {
    && k in s.deferred
    && if s.instances[k].enabled then op.End? && op.id == k && k in s.inFlight else RemovesSibling(s, op, k)
  }

  lemma QuietStep(s: State, t: State, k: Id)
    requires k in s.instances && k in t.instances && t.signals == s.signals
    ensures s.signals <= t.signals && (KeepsPosted(s, t, k) <==> MayServe(s, k) == MayServe(t, k))
  {
    assert t.signals[|s.signals|..] == [];
  }

  lemma OneSignal(s: State, t: State, k: Id, signal: Signal)
    requires k in s.instances && k in t.instances && t.signals == s.signals + [signal]
    ensures var heard := if signal.proxy == s.instances[k].proxy then signal.OnEnable? else MayServe(s, k);
            s.signals <= t.signals && (KeepsPosted(s, t, k) <==> heard == MayServe(t, k))
  {
    assert s.signals <= t.signals;
    assert t.signals[|s.signals|..] == [signal] && [signal][..0] == [];
    assert Heard([], s.instances[k].proxy, MayServe(s, k)) == MayServe(s, k);
  }

  lemma LoadPosts(s: State, m: MetaRef, q: LoadRequest, w: LoadWorld, k: Id)
    requires m in s.metas && k in s.instances
    ensures var t := Loaded(s, m, q, w).0;
            && t.signals == s.signals && t.deferred == s.deferred
            && k in t.instances && t.instances[k] == s.instances[k]
  {
    var inst, found := LoadForm(s, m, q, w);
  }

  lemma UnloadPosts(s: State, j: Id, cleans: bool, k: Id)
    requires Listed(s) && k in s.instances && (j != k || !cleans)
    ensures var t := Unloaded(s, j, cleans).0;
            && t.signals == s.signals && k in t.instances && t.instances[k] == s.instances[k]
            && (k in t.deferred <==> k in s.deferred && !RemovesSibling(s, Unload(j, cleans), k))
  {
    if j in s.instances { UnloadLeaves(s, j); }
  }

  lemma ReloadPosts(s: State, j: Id, config: Option<Config>, w: ReloadWorld, k: Id)
    requires Sound(s) && k in s.instances && SameWorker(s, Reloaded(s, j, config, w).0, k)
    ensures var t := Reloaded(s, j, config, w).0;
            && t.signals == s.signals && t.instances[k].enabled == s.instances[k].enabled
            && (k in t.deferred <==> k in s.deferred && !RemovesSibling(s, Reload(j, config, w), k))
  {
    if ReloadReaches(s, j, config, w) {
      ReloadUnfolds(s, j, config, w);
      if j == k { ReloadEnds(s, k, config, w); }
      if j != k || !w.cleans {
        var m := s.capabilities[s.instances[j].capability];
        UnloadPosts(s, j, w.cleans, k);
        UnloadLeaves(s, j);
        LoadPosts(Unloaded(s, j, w.cleans).0, m, ReloadRequest(config, w, j), w.load, k);
      }
    }
  }

  lemma EnableSends(s: State, j: Id, w: PersistWorld)
    requires j in s.instances
    ensures EnabledAgain(s, j, w).signals ==
            s.signals + if s.instances[j].enabled then [] else [OnEnable(s.instances[j].proxy)]
  {
    PersistForm(Flagged(s, j, true), j, w);
  }

  lemma DisableSends(s: State, j: Id, w: PersistWorld)
    requires j in s.instances && s.instances[j].id == j
    ensures var t := Disabled(s, j, w); var waits := s.instances[j].enabled && j in s.running;
            && t.signals ==
                 s.signals + (if s.instances[j].enabled && !waits then [OnDisable(s.instances[j].proxy, false)] else [])
            && t.deferred == if waits then s.deferred + {j} else s.deferred
  {
    PersistForm(Flagged(s, j, false), j, w);
  }

  lemma DisableWaits(s: State, k: Id, w: PersistWorld)
    requires Sound(s) && k in s.instances && s.instances[k].enabled && k in s.running
    ensures var t := Disabled(s, k, w);
            && Sound(t) && k in t.deferred && t.signals == s.signals
            && t.instances == s.instances[k := s.instances[k].(enabled := false)]
  {
    StepKeepsSound(s, Disable(k, w));
    DisableForm(s, k, w);
    DisableSends(s, k, w);
  }

  lemma EnablePosts(s: State, j: Id, w: PersistWorld, k: Id)
    requires Sound(s) && k in s.instances
    ensures k in EnabledAgain(s, j, w).instances && KeepsPosted(s, EnabledAgain(s, j, w), k)
  {
    var t := EnabledAgain(s, j, w);
    if j in s.instances && !s.instances[j].enabled {
      EnableForm(s, j, w);
      EnableSends(s, j, w);
      OneSignal(s, t, k, OnEnable(s.instances[j].proxy));
    } else {
      if j in s.instances { EnableForm(s, j, w); EnableSends(s, j, w); }
      QuietStep(s, t, k);
    }
  }

  lemma DisablePosts(s: State, j: Id, w: PersistWorld, k: Id)
    requires Sound(s) && k in s.instances
    ensures k in Disabled(s, j, w).instances && KeepsPosted(s, Disabled(s, j, w), k)
  {
    var t := Disabled(s, j, w);
    if j in s.instances {
      DisableForm(s, j, w);
      DisableSends(s, j, w);
    }
    if j in s.instances && s.instances[j].enabled && j !in s.running {
      OneSignal(s, t, k, OnDisable(s.instances[j].proxy, false));
    } else {
      QuietStep(s, t, k);
    }
  }

  lemma EndPosts(s: State, j: Id, k: Id)
    requires Sound(s) && k in s.instances
    ensures k in Ended(s, j).instances && s.signals <= Ended(s, j).signals
    ensures KeepsPosted(s, Ended(s, j), k) <==> !Misleads(s, End(j), k)
  {
    if j in s.inFlight && j in s.deferred {
      EndFires(s, j);
      EndedDeferred(s, j);
      OneSignal(s, Ended(s, j), k, OnDisable(s.instances[j].proxy, s.instances[j].enabled));
    } else {
      QuietStep(s, Ended(s, j), k);
    }
  }

  lemma EndedDeferred(s: State, j: Id)
    ensures Ended(s, j).deferred == if j in s.inFlight then s.deferred - {j} else s.deferred
  {
  }

  lemma UpdatePosts(s: State, j: Id, config: Config, w: UpdateWorld, k: Id)
    requires Listed(s) && k in s.instances
    ensures k in Updated(s, j, config, w).0.instances && KeepsPosted(s, Updated(s, j, config, w).0, k)
  {
    UpdateEnds(s, j, config, w);
    UpdateSendsNothing(s, j, config, w);
    QuietStep(s, Updated(s, j, config, w).0, k);
  }

  lemma UpdateSendsNothing(s: State, j: Id, config: Config, w: UpdateWorld)
    ensures var t := Updated(s, j, config, w).0; t.signals == s.signals && t.deferred == s.deferred
  {
  }

  lemma ReshapingPosts(s: State, op: Op, k: Id)
    requires Sound(s) && SameWorker(s, Step(s, op), k) && Reshapes(op)
    ensures s.signals <= Step(s, op).signals && (KeepsPosted(s, Step(s, op), k) <==> !Misleads(s, op, k))
  {
    var t := Step(s, op);
    match op
    case Load(m, q, w) => if m in s.metas { LoadPosts(s, m, q, w, k); }
    case Unload(j, cleans) =>
      if j == k && cleans { UnloadLeaves(s, k); }
      UnloadPosts(s, j, cleans, k);
    case Reload(j, config, w) => ReloadPosts(s, j, config, w, k);
    QuietStep(s, t, k);
  }

  /** A step that leaves an instance its worker leaves that worker knowing whether it is enabled,
      but for the end of an execution whose waiting hook was overtaken by an enable, and for the
      removal of a sibling, which drops the hook that waits for a disabled default instance. */
  lemma WorkersArePostedIff(s: State, op: Op, k: Id)
    requires Sound(s) && SameWorker(s, Step(s, op), k)
    ensures s.signals <= Step(s, op).signals && (KeepsPosted(s, Step(s, op), k) <==> !Misleads(s, op, k))
  {
    if Reshapes(op) {
      ReshapingPosts(s, op, k);
    } else {
      match op
      case Enable(j, w) => EnablePosts(s, j, w, k);
      case Disable(j, w) => DisablePosts(s, j, w, k);
      case Update(j, config, w) => UpdatePosts(s, j, config, w, k);
      case Override(_, _, _) => QuietStep(s, Step(s, op), k);
      case Begin(_) => QuietStep(s, Step(s, op), k);
      case Attempt(_) => QuietStep(s, Step(s, op), k);
      case End(j) => EndPosts(s, j, k);
    }
  }

  /** Once a sibling is gone the disabled instance's worker is told nothing when its execution ends. */
  lemma SiblingDropsHook(s: State, k: Id, j: Id)
    requires Sound(s) && k in s.deferred && j in s.instances && j != k && s.instances[j].capability == k
    ensures k in s.instances
    ensures var t := Ended(Unloaded(s, j, true).0, k);
            && k in t.instances && t.instances[k] == s.instances[k] && t.signals == s.signals && k !in t.deferred
  {
    UnloadPosts(s, j, true, k);
    EndedDeferred(Unloaded(s, j, true).0, k);
  }

  lemma {:induction false} HeardOn(a: seq<Signal>, b: seq<Signal>, p: Proxy, before: bool)
    ensures Heard(a + b, p, before) == Heard(b, p, Heard(a, p, before))
  {
    if b == [] {
      assert a + b == a;
    } else {
      assert (a + b)[..|a + b| - 1] == a + b[..|b| - 1];
      HeardOn(a, b[..|b| - 1], p, before);
    }
  }

  lemma PostedOn(s: State, t: State, u: State, k: Id)
    requires SameWorker(s, t, k) && SameWorker(t, u, k) && KeepsPosted(s, t, k) && t.signals <= u.signals
    ensures KeepsPosted(s, u, k) <==> KeepsPosted(t, u, k)
  {
    var a, b := t.signals[|s.signals|..], u.signals[|t.signals|..];
    HeardOn(a, b, s.instances[k].proxy, MayServe(s, k));
    assert u.signals[|s.signals|..] == a + b;
  }

  /** The instance k keeps its worker throughout. */
  ghost predicate Serves(s: State, ops: seq<Op>, k: Id) {
    SameWorker(s, After(s, ops), k) && (ops != [] ==> Serves(s, ops[..|ops| - 1], k))
  }

  ghost predicate NeverMisled(s: State, ops: seq<Op>, k: Id)
    requires Serves(s, ops, k)
  {
    ops == [] ||
    var front := ops[..|ops| - 1];
    NeverMisled(s, front, k) && !Misleads(After(s, front), ops[|ops| - 1], k)
  }

  ghost predicate AlwaysPosted(s: State, ops: seq<Op>, k: Id)
    requires Serves(s, ops, k)
  {
    KeepsPosted(s, After(s, ops), k) && (ops != [] ==> AlwaysPosted(s, ops[..|ops| - 1], k))
  }

  /** Over any run, a worker that keeps serving its instance is always right about it exactly if
      no step misleads it: by what it was last told it thinks that it is enabled exactly while
      it is, or while word of its disabling waits for the end of its execution. */
  lemma {:induction false} WorkersStayPostedIff(s: State, ops: seq<Op>, k: Id)
    requires Sound(s) && Serves(s, ops, k)
    ensures AlwaysPosted(s, ops, k) <==> NeverMisled(s, ops, k)
  {
    if ops == [] {
      QuietStep(s, s, k);
    } else {
      var front, op := ops[..|ops| - 1], ops[|ops| - 1];
      WorkersStayPostedIff(s, front, k);
      if AlwaysPosted(s, front, k) {
        RegistryStaysSound(s, front);
        WorkersArePostedIff(After(s, front), op, k);
        PostedOn(s, After(s, front), After(s, ops), k);
      }
    }
  }
}
