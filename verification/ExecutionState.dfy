/** The running set and the deferred disable hooks: what they are meant to track, and the exact
    steps after which they no longer do. */
module ExecutionState {
  import opened Results
  import opened Registry
  import opened RegistryInvariants
  import opened RegistryOutcomes
  import opened InstanceState

  // ---- Deferred hooks ----------------------------------------------------

  /** A hook waits only for an instance that is still disabled. */
  ghost predicate DeferredAreDisabled(s: State) {
    forall k | k in s.deferred && k in s.instances :: !s.instances[k].enabled
  }

  lemma LoadKeepsDeferred(s: State, m: MetaRef, q: LoadRequest, w: LoadWorld)
    requires Waiting(s) && DeferredAreDisabled(s) && m in s.metas
    ensures DeferredAreDisabled(Loaded(s, m, q, w).0) && Loaded(s, m, q, w).0.signals == s.signals
  {
    var inst, found := LoadForm(s, m, q, w);
  }

  lemma UnloadKeepsDeferred(s: State, k: Id, cleans: bool)
    requires Listed(s) && DeferredAreDisabled(s)
    ensures DeferredAreDisabled(Unloaded(s, k, cleans).0) && Unloaded(s, k, cleans).0.signals == s.signals
  {
    if k in s.instances { UnloadLeaves(s, k); }
  }

  lemma ReloadKeepsDeferred(s: State, k: Id, config: Option<Config>, w: ReloadWorld)
    requires Sound(s) && DeferredAreDisabled(s)
    ensures DeferredAreDisabled(Reloaded(s, k, config, w).0) && Reloaded(s, k, config, w).0.signals == s.signals
  {
    if ReloadReaches(s, k, config, w) {
      ReloadUnfolds(s, k, config, w);
      UnloadKeepsDeferred(s, k, w.cleans);
      UnloadKeepsSound(s, k, w.cleans);
      UnloadLeaves(s, k);
      LoadKeepsDeferred(Unloaded(s, k, w.cleans).0,
                        s.capabilities[s.instances[k].capability], ReloadRequest(config, w, k), w.load);
    }
  }

  /** Enabling does not take a waiting hook back. */
  predicate EnablesDeferred(s: State, op: Op) {
    op.Enable? && op.id in s.deferred
  }

  lemma EnableForm(s: State, k: Id, w: PersistWorld)
    requires k in s.instances
    ensures var t := EnabledAgain(s, k, w);
            && t.instances == s.instances[k := s.instances[k].(enabled := true)]
            && t.deferred == s.deferred && t.running == s.running && t.inFlight == s.inFlight
  {
    PersistForm(Flagged(s, k, true), k, w);
  }

  lemma DisableForm(s: State, k: Id, w: PersistWorld)
    requires k in s.instances && s.instances[k].id == k
    ensures var t := Disabled(s, k, w);
            && t.instances == s.instances[k := s.instances[k].(enabled := false)]
            && t.deferred <= s.deferred + {k} && t.running == s.running && t.inFlight == s.inFlight
  {
    PersistForm(Flagged(s, k, false), k, w);
  }

  lemma EnableDeferred(s: State, k: Id, w: PersistWorld)
    requires Waiting(s) && DeferredAreDisabled(s)
    ensures DeferredAreDisabled(EnabledAgain(s, k, w)) <==> k !in s.deferred
  {
    if k in s.instances { EnableForm(s, k, w); }
  }

  lemma DisableDeferred(s: State, k: Id, w: PersistWorld)
    requires Listed(s) && DeferredAreDisabled(s)
    ensures DeferredAreDisabled(Disabled(s, k, w))
  {
    if k in s.instances { DisableForm(s, k, w); }
  }

  lemma UpdateDeferred(s: State, k: Id, config: Config, w: UpdateWorld)
    requires DeferredAreDisabled(s)
    ensures DeferredAreDisabled(Updated(s, k, config, w).0)
  {
  }

  lemma HooksWaitForDisabledIff(s: State, op: Op)
    requires Sound(s) && DeferredAreDisabled(s)
    ensures DeferredAreDisabled(Step(s, op)) <==> !EnablesDeferred(s, op)
  {
    match op
    case Load(m, q, w) => if m in s.metas { LoadKeepsDeferred(s, m, q, w); }
    case Unload(k, cleans) => UnloadKeepsDeferred(s, k, cleans);
    case Reload(k, config, w) => ReloadKeepsDeferred(s, k, config, w);
    case Enable(k, w) => EnableDeferred(s, k, w);
    case Disable(k, w) => DisableDeferred(s, k, w);
    case Update(k, config, w) => UpdateDeferred(s, k, config, w);
    case Override(_, _, _) =>
    case Begin(_) =>
    case Attempt(_) =>
    case End(_) =>
  }

  /** No instance is told it is disabled while it is enabled, in a run that enables nothing a
      hook is waiting for. */
  ghost predicate HooksHonest(signals: seq<Signal>) {
    forall i | 0 <= i < |signals| :: signals[i].OnDisable? ==> !signals[i].whileEnabled
  }

  lemma StepHooksHonest(s: State, op: Op)
    requires Sound(s) && DeferredAreDisabled(s) && HooksHonest(s.signals)
    ensures HooksHonest(Step(s, op).signals)
  {
    match op
    case Load(m, q, w) => if m in s.metas { LoadKeepsDeferred(s, m, q, w); }
    case Unload(k, cleans) => UnloadKeepsDeferred(s, k, cleans);
    case Reload(k, config, w) => ReloadKeepsDeferred(s, k, config, w);
    case Enable(k, w) => EnableHooksHonest(s, k, w);
    case Disable(k, w) => DisableHooksHonest(s, k, w);
    case Update(_, _, _) =>
    case Override(_, _, _) =>
    case Begin(_) =>
    case Attempt(_) =>
    case End(k) => EndHooksHonest(s, k);
  }

  lemma EnableHooksHonest(s: State, k: Id, w: PersistWorld)
    requires HooksHonest(s.signals)
    ensures HooksHonest(EnabledAgain(s, k, w).signals)
  {
    if k in s.instances { PersistForm(Flagged(s, k, true), k, w); }
  }

  lemma DisableHooksHonest(s: State, k: Id, w: PersistWorld)
    requires HooksHonest(s.signals)
    ensures HooksHonest(Disabled(s, k, w).signals)
  {
    if k in s.instances { PersistForm(Flagged(s, k, false), k, w); }
  }

  lemma EndHooksHonest(s: State, k: Id)
    requires DeferredAreDisabled(s) && HooksHonest(s.signals)
    ensures HooksHonest(Ended(s, k).signals)
  {
  }

  lemma {:induction false} EnabledAreNotToldDisabled(s: State, ops: seq<Op>)
    requires Sound(s) && DeferredAreDisabled(s) && HooksHonest(s.signals)
    requires forall i | 0 <= i < |ops| :: !EnablesDeferred(After(s, ops[..i]), ops[i])
    ensures DeferredAreDisabled(After(s, ops)) && HooksHonest(After(s, ops).signals)
  {
    if ops != [] {
      var front := ops[..|ops| - 1];
      forall i | 0 <= i < |front|
        ensures !EnablesDeferred(After(s, front[..i]), front[i])
      {
        assert front[..i] == ops[..i];
      }
      EnabledAreNotToldDisabled(s, front);
      RegistryStaysSound(s, front);
      HooksWaitForDisabledIff(After(s, front), ops[|ops| - 1]);
      StepHooksHonest(After(s, front), ops[|ops| - 1]);
    }
  }

  /** After enabling an instance whose hook waits, the end of its execution tells the enabled
      worker that it is disabled. */
  lemma EnabledIsToldDisabled(s: State, k: Id, w: PersistWorld)
    requires Sound(s) && k in s.deferred && k in s.inFlight
    ensures var t := Step(Step(s, Enable(k, w)), End(k));
            && k in t.instances && t.instances[k].enabled
            && t.signals != [] && t.signals[|t.signals| - 1] == OnDisable(t.instances[k].proxy, true)
  {
    EnableForm(s, k, w);
    EndFires(EnabledAgain(s, k, w), k);
  }

  lemma EndFires(s: State, k: Id)
    requires k in s.deferred && k in s.inFlight && k in s.instances
    ensures var t := Ended(s, k);
            && t.instances == s.instances
            && t.signals == s.signals + [OnDisable(s.instances[k].proxy, s.instances[k].enabled)]
  {
  }

  /** An execution comes into flight when it begins on an enabled instance or is tried again on a
      loaded one, and leaves only when it ends: unloading its instance does not stop it. */
  lemma FlightsChange(s: State, op: Op, k: Id)
    requires Sound(s)
    ensures var t := Step(s, op); var mine := Executes(op) && op.id == k;
            if mine && !op.End? && k in s.instances && (op.Begin? ==> s.instances[k].enabled) then
              t.inFlight[k] == s.inFlight[k] + 1 && k in t.running
            else if mine && op.End? && k in s.inFlight then t.inFlight[k] + 1 == s.inFlight[k] && k !in t.running
            else t.inFlight[k] == s.inFlight[k]
  {
    if Executes(op) { ExecutionFlights(s, op, k); } else { OthersKeepInFlight(s, op); }
  }

  predicate Executes(op: Op) { op.Begin? || op.Attempt? || op.End? }

  lemma ExecutionFlights(s: State, op: Op, k: Id)
    requires Executes(op)
    ensures var t := Step(s, op);
            if op.id == k && !op.End? && k in s.instances && (op.Begin? ==> s.instances[k].enabled) then
              t.inFlight[k] == s.inFlight[k] + 1 && k in t.running
            else if op.id == k && op.End? && k in s.inFlight then t.inFlight[k] + 1 == s.inFlight[k] && k !in t.running
            else t.inFlight[k] == s.inFlight[k]
  {
    match op
    case Begin(j) => if j in s.instances { AttemptFlights(s, j, k); }
    case Attempt(j) => if j in s.instances { AttemptFlights(s, j, k); }
    case End(j) => EndFlights(s, j, k);
  }

  lemma AttemptFlights(s: State, j: Id, k: Id)
    ensures Attempted(s, j).inFlight[k] == s.inFlight[k] + (if j == k then 1 else 0) && j in Attempted(s, j).running
  {
  }

  lemma EndFlights(s: State, j: Id, k: Id)
    ensures Ended(s, j).inFlight[k] == s.inFlight[k] - (if j == k && j in s.inFlight then 1 else 0)
    ensures j in s.inFlight ==> j !in Ended(s, j).running
  {
    if j in s.inFlight { assert Ended(s, j).inFlight == s.inFlight - multiset{j}; }
  }

  lemma OthersKeepInFlight(s: State, op: Op)
    requires Sound(s) && !Executes(op)
    ensures Step(s, op).inFlight == s.inFlight
  {
    match op
    case Load(m, q, w) => if m in s.metas { var inst, found := LoadForm(s, m, q, w); }
    case Unload(j, cleans) => UnloadKeepsInFlight(s, j, cleans);
    case Reload(j, config, w) => ReloadKeepsInFlight(s, j, config, w);
    case Enable(j, w) => if j in s.instances { EnableForm(s, j, w); }
    case Disable(j, w) => if j in s.instances { DisableForm(s, j, w); }
    case Update(_, _, _) =>
    case Override(_, _, _) =>
  }

  lemma UnloadKeepsInFlight(s: State, k: Id, cleans: bool)
    ensures Unloaded(s, k, cleans).0.inFlight == s.inFlight
  {
  }

  lemma ReloadKeepsInFlight(s: State, k: Id, config: Option<Config>, w: ReloadWorld)
    requires Sound(s)
    ensures Reloaded(s, k, config, w).0.inFlight == s.inFlight
  {
    if ReloadReaches(s, k, config, w) {
      ReloadUnfolds(s, k, config, w);
      UnloadKeepsInFlight(s, k, w.cleans);
      UnloadLeaves(s, k);
      var inst, found := LoadForm(Unloaded(s, k, w.cleans).0,
                                  s.capabilities[s.instances[k].capability], ReloadRequest(config, w, k), w.load);
    }
  }

  /** Unloading a named instance while its capability's default one executes hides the execution. */
  lemma SiblingUnloadHides(s: State, k: Id)
    requires Listed(s) && k in s.instances
    requires var name := s.instances[k].capability; name != k && name in s.instances && name in s.inFlight
    ensures var t := Unloaded(s, k, true).0; var name := s.instances[k].capability;
            name in t.instances && name in t.inFlight && name !in t.running
  {
    UnloadLeaves(s, k);
  }

  // ---- The running set ---------------------------------------------------

  /** An instance counts as running exactly while an execution of it is in flight. */
  ghost predicate Tracked(s: State) {
    forall k | k in s.instances :: k in s.running <==> k in s.inFlight
  }

  /** Unloading a named instance drops its capability's default instance from the running set. */
  predicate UnloadLosesTrack(s: State, k: Id, cleans: bool) {
    && k in s.instances && cleans
    && var name := s.instances[k].capability; name != k && name in s.instances && name in s.inFlight
  }

  /** The id is taken again while an execution of its former instance is still in flight. */
  predicate LoadLosesTrack(s: State, m: MetaRef, q: LoadRequest, w: LoadWorld)
    requires m in s.metas
  {
    Registers(s, m, q, w) && ResolvedId(s, s.metas[m].name, q, w.tokens).value in s.inFlight
  }

  predicate LosesTrack(s: State, op: Op) {
    match op
    case Load(m, q, w) => m in s.metas && LoadLosesTrack(s, m, q, w)
    case Unload(k, cleans) => UnloadLosesTrack(s, k, cleans)
    case Reload(k, config, w) =>
      && ReloadReaches(s, k, config, w)
      && (UnloadLosesTrack(s, k, w.cleans) || (Restarts(s, k, config, w) && k in s.inFlight))
    case End(k) => k in s.instances && s.inFlight[k] >= 2
    case _ => false
  }

  lemma LoadTracks(s: State, m: MetaRef, q: LoadRequest, w: LoadWorld)
    requires Waiting(s) && m in s.metas
    requires forall k | k in s.instances :: k in s.running ==> k in s.inFlight
    ensures var t := Loaded(s, m, q, w).0;
            Tracked(t) <==> Tracked(s) && !LoadLosesTrack(s, m, q, w)
  {
    var t := Loaded(s, m, q, w).0;
    var inst, found := LoadForm(s, m, q, w);
    if Registers(s, m, q, w) {
      assert t.running == s.running && t.inFlight == s.inFlight;
      assert t.instances == s.instances[inst.id := inst];
      assert inst.id !in t.running;
      if Tracked(t) {
        forall k | k in s.instances
          ensures k in s.running <==> k in s.inFlight
        {
          assert k in t.instances;
        }
      }
    }
  }

  lemma UnloadTracks(s: State, k: Id, cleans: bool)
    requires Listed(s) && Tracked(s)
    ensures Tracked(Unloaded(s, k, cleans).0) <==> !UnloadLosesTrack(s, k, cleans)
    ensures var t := Unloaded(s, k, cleans).0; forall j | j in t.instances :: j in t.running ==> j in t.inFlight
    ensures Unloaded(s, k, cleans).0.inFlight == s.inFlight
  {
    if k in s.instances && cleans {
      var t := Unloaded(s, k, cleans).0;
      UnloadLeaves(s, k);
      var name := s.instances[k].capability;
      assert t.running == s.running - {k, name} && t.inFlight == s.inFlight;
      if UnloadLosesTrack(s, k, cleans) {
        assert name in t.instances && name !in t.running;
      }
    }
  }

  lemma ReloadTracks(s: State, k: Id, config: Option<Config>, w: ReloadWorld)
    requires Sound(s) && Tracked(s)
    ensures Tracked(Reloaded(s, k, config, w).0) <==> !LosesTrack(s, Reload(k, config, w))
  {
    if ReloadReaches(s, k, config, w) {
      ReloadUnfolds(s, k, config, w);
      ReloadEnds(s, k, config, w);
      if w.cleans {
        var t := Unloaded(s, k, true).0;
        var m := s.capabilities[s.instances[k].capability];
        UnloadTracks(s, k, true);
        UnloadKeepsSound(s, k, true);
        LoadTracks(t, m, ReloadRequest(config, w, k), w.load);
        ResolvesToItself(t, s, m, k, config, w);
      }
    }
  }

  lemma ResolvesToItself(t: State, s: State, m: MetaRef, k: Id, config: Option<Config>, w: ReloadWorld)
    requires m in t.metas && (config.Some? || w.fetched.Some?)
    ensures Registers(t, m, ReloadRequest(config, w, k), w.load)
            ==> ResolvedId(t, t.metas[m].name, ReloadRequest(config, w, k), w.load.tokens) == Some(k)
  {
  }

  lemma EndTracks(s: State, k: Id)
    requires Tracked(s)
    ensures Tracked(Ended(s, k)) <==> !LosesTrack(s, End(k))
  {
    var t := Ended(s, k);
    if k in s.inFlight {
      assert t.instances == s.instances && t.running == s.running - {k} && t.inFlight == s.inFlight - multiset{k};
      assert t.inFlight[k] == s.inFlight[k] - 1;
      if k in s.instances && s.inFlight[k] >= 2 {
        assert k in t.inFlight && k !in t.running;
      }
    }
  }

  lemma BeginTracks(s: State, k: Id)
    requires Tracked(s)
    ensures Tracked(Begun(s, k)) && Tracked(Retried(s, k))
  {
  }

  lemma SwitchTracks(s: State, k: Id, w: PersistWorld)
    requires Listed(s) && Tracked(s)
    ensures Tracked(EnabledAgain(s, k, w)) && Tracked(Disabled(s, k, w))
  {
    if k in s.instances {
      EnableForm(s, k, w);
      DisableForm(s, k, w);
    }
  }

  lemma UpdateTracks(s: State, k: Id, config: Config, w: UpdateWorld)
    requires Tracked(s)
    ensures Tracked(Updated(s, k, config, w).0)
  {
  }

  /** The running set stops being exact after exactly these steps: the end of one of two
      overlapping executions, the unload or reload of a named instance while the default one
      executes, and the reuse of an id while an execution of its former instance goes on. */
  lemma RunningSetStaysExactIff(s: State, op: Op)
    requires Sound(s) && Tracked(s)
    ensures Tracked(Step(s, op)) <==> !LosesTrack(s, op)
  {
    match op
    case Load(m, q, w) => if m in s.metas { LoadTracks(s, m, q, w); }
    case Unload(k, cleans) => UnloadTracks(s, k, cleans);
    case Reload(k, config, w) => ReloadTracks(s, k, config, w);
    case Begin(k) => BeginTracks(s, k);
    case Attempt(k) => BeginTracks(s, k);
    case End(k) => EndTracks(s, k);
    case Enable(k, w) => SwitchTracks(s, k, w);
    case Disable(k, w) => SwitchTracks(s, k, w);
    case Update(k, config, w) => UpdateTracks(s, k, config, w);
    case Override(_, _, _) =>
  }
}
