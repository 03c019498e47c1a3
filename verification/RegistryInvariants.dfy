/** What every run of registry operations keeps, and the exact steps that break what some of the
    operations' own comments intend. */
module RegistryInvariants {
  import opened Results
  import opened Registry

  function NamesLoaded(instances: map<Id, Instance>): set<Id> {
    set k | k in instances :: instances[k].capability
  }

  /** Instances are keyed by their id; the listed capabilities are exactly the loaded ones, each
      under its own metadata. */
  ghost predicate Listed(s: State) {
    && (forall k | k in s.instances :: s.instances[k].id == k)
    && s.capabilities.Keys == NamesLoaded(s.instances)
    && (forall n | n in s.capabilities :: s.capabilities[n] in s.metas && s.metas[s.capabilities[n]].name == n)
  }

  /** A loaded default instance is what its capability's metadata points at. */
  ghost predicate Canonical(s: State) {
    forall k | k in s.instances && s.instances[k].capability == k ::
      k in s.capabilities && s.capabilities[k] in s.metas
      && s.metas[s.capabilities[k]].instance == Some(s.instances[k].proxy)
  }

  /** No two instances share a worker, and no worker is cleaned up under an instance. */
  ghost predicate OwnWorkers(s: State) {
    && (forall k | k in s.instances :: s.instances[k].proxy in s.workers)
    && (forall p | p in s.workers :: p < s.spawned)
    && (forall j, k | j in s.instances && k in s.instances && j != k :: s.instances[j].proxy != s.instances[k].proxy)
  }

  /** A hook is deferred only for an instance that counts as running. */
  ghost predicate Waiting(s: State) {
    s.deferred <= s.running <= s.instances.Keys
  }

  ghost predicate Sound(s: State) {
    Listed(s) && Canonical(s) && OwnWorkers(s) && Waiting(s)
  }

  lemma FreshIsSound(metas: map<MetaRef, Meta>, store: map<Id, Record>)
    ensures Sound(Fresh(metas, store))
  {
  }

  // ---- Each operation keeps the registry sound ---------------------------

  lemma LoadKeepsSound(s: State, m: MetaRef, q: LoadRequest, w: LoadWorld)
    requires Sound(s) && m in s.metas
    ensures Sound(Loaded(s, m, q, w).0)
  {
    var id := ResolvedId(s, s.metas[m].name, q, w.tokens);
    if id.Some? && id.value !in s.instances && w.launches {
      var found := Found(s, id.value, q, w);
      var config := Effective(q, found, w);
      if config.Some? && w.starts {
        RegisterKeepsSound(s, m, NewInstance(s, m, id.value, q, found, config.value), found);
      }
    }
  }

  lemma RegisterKeepsListed(s: State, m: MetaRef, inst: Instance, found: Option<Record>)
    requires Listed(s) && m in s.metas && inst.id !in s.instances && inst.capability == s.metas[m].name
    ensures Listed(Registered(Spawned(s), m, inst, found))
  {
    NamesAfterAdd(s.instances, inst);
    RegisterLists(s, m, inst, found);
  }

  lemma RegisterLists(s: State, m: MetaRef, inst: Instance, found: Option<Record>)
    requires m in s.metas && inst.capability == s.metas[m].name
    ensures var t := Registered(Spawned(s), m, inst, found);
            && t.instances == s.instances[inst.id := inst]
            && t.capabilities.Keys == s.capabilities.Keys + {inst.capability}
  {
  }

  lemma RegisterKeepsCanonical(s: State, m: MetaRef, inst: Instance, found: Option<Record>)
    requires Listed(s) && Canonical(s) && m in s.metas
    requires inst.id !in s.instances && inst.capability == s.metas[m].name
    ensures Canonical(Registered(Spawned(s), m, inst, found))
  {
    var t := Registered(Spawned(s), m, inst, found);
    forall k | k in t.instances && t.instances[k].capability == k
      ensures k in t.capabilities && t.capabilities[k] in t.metas
      ensures t.metas[t.capabilities[k]].instance == Some(t.instances[k].proxy)
    {
      if k != inst.id {
        assert k in s.instances && s.instances[k] == t.instances[k];
      }
    }
  }

  lemma RegisterKeepsSound(s: State, m: MetaRef, inst: Instance, found: Option<Record>)
    requires Sound(s) && m in s.metas && inst.id !in s.instances
    requires inst.capability == s.metas[m].name && inst.proxy == s.spawned
    ensures Sound(Registered(Spawned(s), m, inst, found))
  {
    RegisterKeepsListed(s, m, inst, found);
    RegisterKeepsCanonical(s, m, inst, found);
    RegisterKeepsWorkers(s, m, inst, found);
  }

  lemma RegisterKeepsWorkers(s: State, m: MetaRef, inst: Instance, found: Option<Record>)
    requires OwnWorkers(s) && Waiting(s) && m in s.metas && inst.proxy == s.spawned
    ensures OwnWorkers(Registered(Spawned(s), m, inst, found)) && Waiting(Registered(Spawned(s), m, inst, found))
  {
  }

  lemma NamesAfterAdd(instances: map<Id, Instance>, inst: Instance)
    requires inst.id !in instances
    ensures NamesLoaded(instances[inst.id := inst]) == NamesLoaded(instances) + {inst.capability}
  {
    var after := instances[inst.id := inst];
    assert after[inst.id] == inst && forall k | k in instances :: after[k] == instances[k];
  }

  lemma NamesAfterRemove(instances: map<Id, Instance>, k: Id)
    requires k in instances
    ensures var name := instances[k].capability; var rest := instances - {k};
            NamesLoaded(rest) == if HasInstances(rest, name) then NamesLoaded(instances) else NamesLoaded(instances) - {name}
  {
    var name := instances[k].capability;
    var rest := instances - {k};
    forall n | n in NamesLoaded(instances) && n != name
      ensures n in NamesLoaded(rest)
    {
      var j :| j in instances && instances[j].capability == n;
      assert j in rest && rest[j].capability == n;
    }
  }

  lemma UnloadKeepsListed(s: State, k: Id)
    requires Listed(s) && k in s.instances
    ensures Listed(Unloaded(s, k, true).0)
  {
    NamesAfterRemove(s.instances, k);
    var t := Unloaded(s, k, true).0;
    assert t.instances == s.instances - {k};
    assert t.capabilities.Keys == NamesLoaded(t.instances);
  }

  lemma UnloadKeepsCanonical(s: State, k: Id)
    requires Listed(s) && Canonical(s) && k in s.instances
    ensures Canonical(Unloaded(s, k, true).0)
  {
    var t := Unloaded(s, k, true).0;
    forall j | j in t.instances && t.instances[j].capability == j
      ensures j in t.capabilities && t.capabilities[j] in t.metas
      ensures t.metas[t.capabilities[j]].instance == Some(t.instances[j].proxy)
    {
      assert j in s.instances && s.instances[j] == t.instances[j] && j != k;
    }
  }

  lemma UnloadKeepsWorkers(s: State, k: Id)
    requires Listed(s) && OwnWorkers(s) && Waiting(s) && k in s.instances
    ensures OwnWorkers(Unloaded(s, k, true).0) && Waiting(Unloaded(s, k, true).0)
  {
  }

  lemma UnloadKeepsSound(s: State, k: Id, cleans: bool)
    requires Sound(s)
    ensures Sound(Unloaded(s, k, cleans).0)
  {
    if k in s.instances && cleans {
      UnloadKeepsListed(s, k);
      UnloadKeepsCanonical(s, k);
      UnloadKeepsWorkers(s, k);
    }
  }

  lemma ReloadKeepsSound(s: State, k: Id, config: Option<Config>, w: ReloadWorld)
    requires Sound(s)
    ensures Sound(Reloaded(s, k, config, w).0)
  {
    if k in s.instances {
      UnloadKeepsSound(s, k, w.cleans);
      var t := Unloaded(s, k, w.cleans).0;
      var m := s.capabilities[s.instances[k].capability];
      if config.Some? || w.fetched.Some? {
        var q := LoadRequest(if config.Some? then config.value else w.fetched.value, Some(k), false, None);
        LoadKeepsSound(t, m, q, w.load);
      }
    }
  }

  /** Operations that only touch flags, configs and the store leave the registry's shape alone. */
  ghost predicate SameShape(s: State, t: State) {
    && t.instances.Keys == s.instances.Keys && t.capabilities == s.capabilities && t.metas.Keys == s.metas.Keys
    && t.workers == s.workers && t.spawned == s.spawned
    && (forall k | k in s.instances ::
          && t.instances[k].id == s.instances[k].id && t.instances[k].capability == s.instances[k].capability
          && t.instances[k].proxy == s.instances[k].proxy)
    && (forall m | m in s.metas :: t.metas[m].name == s.metas[m].name && t.metas[m].instance == s.metas[m].instance)
  }

  lemma SameShapeKeepsSound(s: State, t: State)
    requires Sound(s) && SameShape(s, t) && Waiting(t)
    ensures Sound(t)
  {
    assert NamesLoaded(t.instances) == NamesLoaded(s.instances) by {
      forall n
        ensures n in NamesLoaded(t.instances) <==> n in NamesLoaded(s.instances)
      {
        if k :| k in s.instances && s.instances[k].capability == n { assert t.instances[k].capability == n; }
        if k :| k in t.instances && t.instances[k].capability == n { assert s.instances[k].capability == n; }
      }
    }
  }

  predicate Reshapes(op: Op) { op.Load? || op.Unload? || op.Reload? }

  lemma FlagKeepsShape(s: State, k: Id, on: bool)
    requires Listed(s) && k in s.instances
    ensures SameShape(s, Flagged(s, k, on))
  {
  }

  lemma PersistKeepsShape(s: State, t: State, k: Id, w: PersistWorld)
    requires SameShape(s, t)
    ensures SameShape(s, Persisted(t, k, w)) && Persisted(t, k, w) == t.(store := Persisted(t, k, w).store)
  {
  }

  lemma NotesKeepShape(s: State, t: State, u: State)
    requires SameShape(s, t)
    requires u == t.(running := u.running, deferred := u.deferred, inFlight := u.inFlight, signals := u.signals)
    ensures SameShape(s, u)
  {
  }

  lemma SetFlagKeepsShape(s: State, k: Id, on: bool, w: PersistWorld) returns (t: State)
    requires Listed(s) && k in s.instances
    ensures t == Persisted(Flagged(s, k, on), k, w) && SameShape(s, t)
    ensures t.running == s.running && t.deferred == s.deferred
  {
    t := Persisted(Flagged(s, k, on), k, w);
    FlagKeepsShape(s, k, on);
    PersistKeepsShape(s, Flagged(s, k, on), k, w);
  }

  lemma EnableKeepsShape(s: State, k: Id, w: PersistWorld)
    requires Sound(s)
    ensures SameShape(s, EnabledAgain(s, k, w)) && Waiting(EnabledAgain(s, k, w))
  {
    if k in s.instances {
      var t := SetFlagKeepsShape(s, k, true, w);
      NotesKeepShape(s, t, EnabledAgain(s, k, w));
    }
  }

  lemma DisableKeepsShape(s: State, k: Id, w: PersistWorld)
    requires Sound(s)
    ensures SameShape(s, Disabled(s, k, w)) && Waiting(Disabled(s, k, w))
  {
    if k in s.instances {
      var t := SetFlagKeepsShape(s, k, false, w);
      DisableNotes(s, k, w, t);
      NotesKeepShape(s, t, Disabled(s, k, w));
    }
  }

  lemma DisableNotes(s: State, k: Id, w: PersistWorld, t: State)
    requires k in s.instances && s.instances[k].id == k && t == Persisted(Flagged(s, k, false), k, w)
    ensures var u := Disabled(s, k, w);
            && u == t.(deferred := u.deferred, signals := u.signals)
            && (u.deferred == t.deferred || (u.deferred == t.deferred + {k} && k in s.running))
  {
  }

  lemma UpdateKeepsShape(s: State, k: Id, config: Config, w: UpdateWorld)
    requires Sound(s)
    ensures SameShape(s, Updated(s, k, config, w).0) && Waiting(Updated(s, k, config, w).0)
  {
    if k in s.instances && w.validates(config).Some? {
      PersistKeepsShape(s, Reconfigured(s, k, w.validates(config).value), k, w.persist);
    }
  }

  lemma BeginKeepsShape(s: State, k: Id)
    requires Waiting(s)
    ensures SameShape(s, Begun(s, k)) && Waiting(Begun(s, k))
    ensures SameShape(s, Retried(s, k)) && Waiting(Retried(s, k))
  {
    NotesKeepShape(s, s, Begun(s, k));
    NotesKeepShape(s, s, Retried(s, k));
  }

  lemma EndKeepsShape(s: State, k: Id)
    requires Waiting(s)
    ensures SameShape(s, Ended(s, k)) && Waiting(Ended(s, k))
  {
    NotesKeepShape(s, s, Ended(s, k));
  }

  lemma StepsKeepShape(s: State, op: Op)
    requires Sound(s) && !Reshapes(op)
    ensures SameShape(s, Step(s, op)) && Waiting(Step(s, op))
  {
    match op
    case Enable(k, w) => EnableKeepsShape(s, k, w);
    case Disable(k, w) => DisableKeepsShape(s, k, w);
    case Update(k, config, w) => UpdateKeepsShape(s, k, config, w);
    case Override(k, env, storeUp) =>
    case Begin(k) => BeginKeepsShape(s, k);
    case Attempt(k) => BeginKeepsShape(s, k);
    case End(k) => EndKeepsShape(s, k);
  }

  lemma StepKeepsSound(s: State, op: Op)
    requires Sound(s)
    ensures Sound(Step(s, op))
  {
    match op
    case Load(m, q, w) => if m in s.metas { LoadKeepsSound(s, m, q, w); }
    case Unload(k, cleans) => UnloadKeepsSound(s, k, cleans);
    case Reload(k, config, w) => ReloadKeepsSound(s, k, config, w);
    case _ =>
      StepsKeepShape(s, op);
      SameShapeKeepsSound(s, Step(s, op));
  }

  /** After any sequence of operations the registry is sound. */
  lemma {:induction false} RegistryStaysSound(s: State, ops: seq<Op>)
    requires Sound(s)
    ensures Sound(After(s, ops))
  {
    if ops != [] {
      RegistryStaysSound(s, ops[..|ops| - 1]);
      StepKeepsSound(After(s, ops[..|ops| - 1]), ops[|ops| - 1]);
    }
  }
}
