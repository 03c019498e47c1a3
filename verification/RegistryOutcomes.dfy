/** What the registry's operations intend, and exactly when they achieve it. Each intention is a
    predicate on states; a step keeps it if and only if it does not take the branch named beside it. */
module RegistryOutcomes {
  import opened Results
  import opened Registry
  import opened RegistryInvariants

  // ---- What a load does --------------------------------------------------

  /** The load gets past everything that can stop it before the instance is recorded. */
  predicate Registers(s: State, m: MetaRef, q: LoadRequest, w: LoadWorld)
    requires m in s.metas
  {
    var id := ResolvedId(s, s.metas[m].name, q, w.tokens);
    && id.Some? && id.value !in s.instances && w.launches && w.starts
    && Effective(q, Found(s, id.value, q, w), w).Some?
  }

  /** The worker is spawned and then the load gives up. */
  predicate GivesUpOnWorker(s: State, m: MetaRef, q: LoadRequest, w: LoadWorld)
    requires m in s.metas
  {
    var id := ResolvedId(s, s.metas[m].name, q, w.tokens);
    && id.Some? && id.value !in s.instances && w.launches
    && (!w.starts || Effective(q, Found(s, id.value, q, w), w).None?)
  }

  /** A generated id is the capability's name and the first token that gives one not yet loaded. */
  lemma {:induction false} GeneratedIdIsFirstFree(taken: set<Id>, name: Id, tokens: seq<string>)
    ensures var id := FirstFree(taken, name, tokens);
            if id.Some? then
              exists i :: 0 <= i < |tokens| && id.value == name + "-" + tokens[i] && id.value !in taken
                          && forall j | 0 <= j < i :: name + "-" + tokens[j] in taken
            else forall j | 0 <= j < |tokens| :: name + "-" + tokens[j] in taken
  {
    if tokens != [] && name + "-" + tokens[0] in taken {
      var rest := tokens[1..];
      GeneratedIdIsFirstFree(taken, name, rest);
      assert forall j | 0 < j < |tokens| :: tokens[j] == rest[j - 1];
      var id := FirstFree(taken, name, rest);
      if id.Some? {
        var i :| 0 <= i < |rest| && id.value == name + "-" + rest[i]
                 && forall j | 0 <= j < i :: name + "-" + rest[j] in taken;
        assert tokens[i + 1] == rest[i];
      }
    }
  }

  /** The four ends of a load: a bad id, an instance already there, a new one, or none. */
  lemma LoadEnds(s: State, m: MetaRef, q: LoadRequest, w: LoadWorld)
    requires m in s.metas
    ensures var (t, reply) := Loaded(s, m, q, w); var id := ResolvedId(s, s.metas[m].name, q, w.tokens);
            if id.None? then t == s && reply == Raised
            else if id.value in s.instances then t == s && reply == Returned(true)
            else if Registers(s, m, q, w) then
              t.instances.Keys == s.instances.Keys + {id.value} && t.spawned == s.spawned + 1
              && t.instances[id.value].proxy == s.spawned && reply == Returned(w.journals)
            else t.instances == s.instances && reply == Returned(false)
  {
  }

  /** A load that answers False has left nothing loaded, unless only its journal entry failed. */
  lemma LoadAnswersTruly(s: State, m: MetaRef, q: LoadRequest, w: LoadWorld)
    requires m in s.metas && ResolvedId(s, s.metas[m].name, q, w.tokens).Some?
    ensures var (t, reply) := Loaded(s, m, q, w); var id := ResolvedId(s, s.metas[m].name, q, w.tokens).value;
            reply == Returned(id in t.instances) <==> !(Registers(s, m, q, w) && !w.journals)
  {
    LoadEnds(s, m, q, w);
  }

  // ---- What a reload does ------------------------------------------------

  function ReloadRequest(config: Option<Config>, w: ReloadWorld, k: Id): LoadRequest
    requires config.Some? || w.fetched.Some?
  {
    LoadRequest(if config.Some? then config.value else w.fetched.value, Some(k), false, None)
  }

  predicate ReloadReaches(s: State, k: Id, config: Option<Config>, w: ReloadWorld) {
    && k in s.instances && (config.Some? || w.fetched.Some?)
    && s.instances[k].capability in s.capabilities && s.capabilities[s.instances[k].capability] in s.metas
  }

  /** A reload that gets as far as unloading is that unload and then a load under the same id. */
  lemma ReloadUnfolds(s: State, k: Id, config: Option<Config>, w: ReloadWorld)
    requires Listed(s)
    ensures if ReloadReaches(s, k, config, w) then
              var m := s.capabilities[s.instances[k].capability];
              var t := Unloaded(s, k, w.cleans).0;
              && m in t.metas
              && Reloaded(s, k, config, w) == (Loaded(t, m, ReloadRequest(config, w, k), w.load).0,
                                              Loaded(t, m, ReloadRequest(config, w, k), w.load).1 == Returned(true))
            else Reloaded(s, k, config, w) == (s, false)
  {
  }

  lemma UnloadLeaves(s: State, k: Id)
    requires Listed(s) && k in s.instances
    ensures var t := Unloaded(s, k, true).0;
            && t.instances == s.instances - {k} && t.workers == s.workers - {s.instances[k].proxy}
            && t.store == s.store && t.metas.Keys == s.metas.Keys && t.spawned == s.spawned
    ensures Unloaded(s, k, false).0 == s
  {
  }

  // ---- Pointers to workers that are gone ---------------------------------

  predicate CanonicalLoaded(s: State, n: Id) {
    n in s.instances && s.instances[n].capability == n
  }

  /** A metadata object points at no live worker but its own capability's default instance. */
  ghost predicate PointsHome(s: State) {
    forall m | m in s.metas && s.metas[m].instance.Some? ::
      var p := s.metas[m].instance.value;
      p < s.spawned && (p in s.workers ==> CanonicalLoaded(s, s.metas[m].name) && s.instances[s.metas[m].name].proxy == p)
  }

  /** A load leaves the state, spawns a worker, or registers an instance around a new worker. */
  lemma LoadForm(s: State, m: MetaRef, q: LoadRequest, w: LoadWorld) returns (inst: Instance, found: Option<Record>)
    requires m in s.metas
    ensures var t := Loaded(s, m, q, w).0; var id := ResolvedId(s, s.metas[m].name, q, w.tokens);
            if Registers(s, m, q, w) then
              && t == Registered(Spawned(s), m, inst, found)
              && inst.id == id.value && inst.capability == s.metas[m].name && inst.proxy == s.spawned
              && found == Found(s, inst.id, q, w)
              && inst.enabled == (found.None? || found.value.enabled) && inst.hashed == inst.config
              && inst.persistable == Persistable(q)
            else t == if GivesUpOnWorker(s, m, q, w) then Spawned(s) else s
  {
    var id := ResolvedId(s, s.metas[m].name, q, w.tokens);
    if Registers(s, m, q, w) {
      found := Found(s, id.value, q, w);
      inst := NewInstance(s, m, id.value, q, found, Effective(q, found, w).value);
    } else {
      inst, found := Instance("", "", map[], map[], 0, false, map[], None, false), None;
    }
  }

  lemma SpawnPointsHome(s: State)
    requires PointsHome(s)
    ensures PointsHome(Spawned(s))
  {
  }

  lemma RegisterPointsHome(s: State, m: MetaRef, inst: Instance, found: Option<Record>)
    requires OwnWorkers(s) && PointsHome(s) && m in s.metas
    requires inst.id !in s.instances && inst.capability == s.metas[m].name && inst.proxy == s.spawned
    ensures PointsHome(Registered(Spawned(s), m, inst, found))
  {
    var t := Registered(Spawned(s), m, inst, found);
    forall j | j in t.metas && t.metas[j].instance.Some?
      ensures var p := t.metas[j].instance.value;
              && p < t.spawned
              && (p in t.workers ==> CanonicalLoaded(t, t.metas[j].name) && t.instances[t.metas[j].name].proxy == p)
    {
      assert j in s.metas && t.metas[j].name == s.metas[j].name;
    }
  }

  lemma LoadPointsHome(s: State, m: MetaRef, q: LoadRequest, w: LoadWorld)
    requires OwnWorkers(s) && PointsHome(s) && m in s.metas
    ensures PointsHome(Loaded(s, m, q, w).0)
  {
    var inst, found := LoadForm(s, m, q, w);
    SpawnPointsHome(s);
    if Registers(s, m, q, w) {
      RegisterPointsHome(s, m, inst, found);
    }
  }

  lemma UnloadPointsHome(s: State, k: Id, cleans: bool)
    requires Listed(s) && OwnWorkers(s) && PointsHome(s)
    ensures PointsHome(Unloaded(s, k, cleans).0)
  {
    if k in s.instances && cleans {
      var t := Unloaded(s, k, cleans).0;
      assert t.instances == s.instances - {k} && t.workers == s.workers - {s.instances[k].proxy};
      forall j | j in t.metas && t.metas[j].instance.Some?
        ensures var p := t.metas[j].instance.value;
                && p < t.spawned
                && (p in t.workers ==> CanonicalLoaded(t, t.metas[j].name) && t.instances[t.metas[j].name].proxy == p)
      {
        assert j in s.metas && s.metas[j] == t.metas[j];
      }
    }
  }

  lemma ReloadPointsHome(s: State, k: Id, config: Option<Config>, w: ReloadWorld)
    requires Sound(s) && PointsHome(s)
    ensures PointsHome(Reloaded(s, k, config, w).0)
  {
    ReloadUnfolds(s, k, config, w);
    if ReloadReaches(s, k, config, w) {
      UnloadPointsHome(s, k, w.cleans);
      UnloadKeepsSound(s, k, w.cleans);
      LoadPointsHome(Unloaded(s, k, w.cleans).0,
                     s.capabilities[s.instances[k].capability], ReloadRequest(config, w, k), w.load);
    }
  }

  lemma StepPointsHome(s: State, op: Op)
    requires Sound(s) && PointsHome(s)
    ensures PointsHome(Step(s, op))
  {
    match op
    case Load(m, q, w) => if m in s.metas { LoadPointsHome(s, m, q, w); }
    case Unload(k, cleans) => UnloadPointsHome(s, k, cleans);
    case Reload(k, config, w) => ReloadPointsHome(s, k, config, w);
    case _ =>
      StepsKeepShape(s, op);
  }

  /** After any operations on freshly discovered metadata, pointers point home. */
  lemma {:induction false} PointersStayHome(metas: map<MetaRef, Meta>, store: map<Id, Record>, ops: seq<Op>)
    requires forall m | m in metas :: metas[m].instance.None?
    ensures Sound(After(Fresh(metas, store), ops)) && PointsHome(After(Fresh(metas, store), ops))
  {
    FreshIsSound(metas, store);
    if ops != [] {
      var before := After(Fresh(metas, store), ops[..|ops| - 1]);
      PointersStayHome(metas, store, ops[..|ops| - 1]);
      StepKeepsSound(before, ops[|ops| - 1]);
      StepPointsHome(before, ops[|ops| - 1]);
    }
  }

  /** The worker a caller is handed for a name or id. */
  function GetCapability(s: State, k: Id): Option<Proxy> {
    if k in s.instances then Some(s.instances[k].proxy)
    else if k in s.capabilities && s.capabilities[k] in s.metas then s.metas[s.capabilities[k]].instance
    else None
  }

  ghost predicate Stale(s: State, n: Id) {
    && n in s.capabilities && !CanonicalLoaded(s, n)
    && s.capabilities[n] in s.metas && s.metas[s.capabilities[n]].instance.Some?
  }

  /** A caller is handed a worker that has been cleaned up exactly for a stale pointer. */
  lemma CallersGetDeadWorkersIffStale(s: State, k: Id)
    requires Sound(s) && PointsHome(s)
    ensures (GetCapability(s, k).Some? && GetCapability(s, k).value !in s.workers) <==> k !in s.instances && Stale(s, k)
  {
  }

  ghost predicate NoneStale(s: State) {
    forall n | n in s.capabilities :: !Stale(s, n)
  }

  /** A load under another id lists a capability whose metadata still points at a past worker. */
  predicate ListsStalePointer(s: State, op: Op) {
    && op.Load? && op.meta in s.metas && s.metas[op.meta].instance.Some?
    && s.metas[op.meta].name !in s.capabilities
    && ResolvedId(s, s.metas[op.meta].name, op.request, op.load.tokens) != Some(s.metas[op.meta].name)
    && Registers(s, op.meta, op.request, op.load)
  }

  lemma RegisterStale(s: State, m: MetaRef, inst: Instance, found: Option<Record>)
    requires Listed(s) && NoneStale(s) && m in s.metas
    requires inst.id !in s.instances && inst.capability == s.metas[m].name
    ensures NoneStale(Registered(Spawned(s), m, inst, found)) <==>
            !(inst.id != inst.capability && inst.capability !in s.capabilities && s.metas[m].instance.Some?)
  {
    var t := Registered(Spawned(s), m, inst, found);
    if inst.id != inst.capability && inst.capability !in s.capabilities && s.metas[m].instance.Some? {
      assert Stale(t, inst.capability);
    } else {
      forall n | n in t.capabilities
        ensures !Stale(t, n)
      {
        assert n in s.capabilities ==> !Stale(s, n);
      }
    }
  }

  lemma SpawnStale(s: State)
    requires NoneStale(s)
    ensures NoneStale(Spawned(s))
  {
    forall n | n in s.capabilities
      ensures !Stale(Spawned(s), n)
    {
      assert !Stale(s, n);
    }
  }

  lemma LoadStale(s: State, m: MetaRef, q: LoadRequest, w: LoadWorld)
    requires Listed(s) && NoneStale(s) && m in s.metas
    ensures NoneStale(Loaded(s, m, q, w).0) <==> !ListsStalePointer(s, Load(m, q, w))
  {
    var inst, found := LoadForm(s, m, q, w);
    SpawnStale(s);
    if Registers(s, m, q, w) {
      RegisterStale(s, m, inst, found);
    }
  }

  lemma UnloadStale(s: State, k: Id, cleans: bool)
    requires Sound(s) && NoneStale(s)
    ensures NoneStale(Unloaded(s, k, cleans).0)
  {
    if k in s.instances && cleans {
      forall n | n in Unloaded(s, k, cleans).0.capabilities
        ensures !Stale(Unloaded(s, k, cleans).0, n)
      {
        UnloadStaleAt(s, k, n);
      }
    }
  }

  lemma UnloadedMetas(s: State, k: Id)
    requires Listed(s) && k in s.instances
    ensures var t := Unloaded(s, k, true).0; var name := s.instances[k].capability;
            && t.capabilities == (if HasInstances(t.instances, name) then s.capabilities else s.capabilities - {name})
            && t.metas == (if HasInstances(t.instances, name) && k == name
                           then s.metas[s.capabilities[name] := s.metas[s.capabilities[name]].(instance := None)]
                           else s.metas)
  {
  }

  lemma UnloadStaleAt(s: State, k: Id, n: Id)
    requires Listed(s) && NoneStale(s) && k in s.instances && n in Unloaded(s, k, true).0.capabilities
    ensures !Stale(Unloaded(s, k, true).0, n)
  {
    UnloadedMetas(s, k);
    UnloadLeaves(s, k);
    assert n in s.capabilities && !Stale(s, n);
  }

  lemma ReloadStale(s: State, k: Id, config: Option<Config>, w: ReloadWorld)
    requires Sound(s) && NoneStale(s)
    ensures NoneStale(Reloaded(s, k, config, w).0)
  {
    ReloadUnfolds(s, k, config, w);
    if ReloadReaches(s, k, config, w) {
      var m := s.capabilities[s.instances[k].capability];
      var t := Unloaded(s, k, w.cleans).0;
      UnloadStale(s, k, w.cleans);
      UnloadKeepsSound(s, k, w.cleans);
      assert !Stale(s, s.instances[k].capability);
      LoadStale(t, m, ReloadRequest(config, w, k), w.load);
    }
  }

  lemma ShapeStale(s: State, t: State)
    requires Sound(s) && SameShape(s, t)
    ensures NoneStale(t) <==> NoneStale(s)
  {
    forall n
      ensures Stale(t, n) <==> Stale(s, n)
    {
    }
  }

  /** No step but that load makes a pointer stale. */
  lemma PointersGoStaleIff(s: State, op: Op)
    requires Sound(s) && NoneStale(s)
    ensures NoneStale(Step(s, op)) <==> !ListsStalePointer(s, op)
  {
    match op
    case Load(m, q, w) => if m in s.metas { LoadStale(s, m, q, w); }
    case Unload(k, cleans) => UnloadStale(s, k, cleans);
    case Reload(k, config, w) => ReloadStale(s, k, config, w);
    case _ =>
      StepsKeepShape(s, op);
      ShapeStale(s, Step(s, op));
  }

  // ---- Workers that nobody owns ------------------------------------------

  ghost function Owned(s: State): set<Proxy> {
    set k | k in s.instances :: s.instances[k].proxy
  }

  /** Every live worker belongs to an instance. */
  ghost predicate AllOwned(s: State) {
    s.workers == Owned(s)
  }

  predicate Orphans(s: State, op: Op) {
    match op
    case Load(m, q, w) => m in s.metas && GivesUpOnWorker(s, m, q, w)
    case Reload(k, config, w) =>
      && ReloadReaches(s, k, config, w) && w.cleans
      && GivesUpOnWorker(Unloaded(s, k, true).0,
                         s.capabilities[s.instances[k].capability], ReloadRequest(config, w, k), w.load)
    case _ => false
  }

  lemma LoadOrphans(s: State, m: MetaRef, q: LoadRequest, w: LoadWorld)
    requires Sound(s) && AllOwned(s) && m in s.metas
    ensures AllOwned(Loaded(s, m, q, w).0) <==> !GivesUpOnWorker(s, m, q, w)
  {
    var inst, found := LoadForm(s, m, q, w);
    if Registers(s, m, q, w) {
      RegisterOwned(s, m, inst, found);
    } else if GivesUpOnWorker(s, m, q, w) {
      assert s.spawned in Spawned(s).workers && s.spawned !in s.workers && Owned(Spawned(s)) == Owned(s);
    }
  }

  lemma RegisterOwned(s: State, m: MetaRef, inst: Instance, found: Option<Record>)
    requires AllOwned(s) && m in s.metas && inst.id !in s.instances && inst.proxy == s.spawned
    ensures AllOwned(Registered(Spawned(s), m, inst, found))
  {
    OwnedAfterAdd(s, Registered(Spawned(s), m, inst, found), inst.id);
  }

  lemma OwnedAfterAdd(s: State, t: State, k: Id)
    requires k !in s.instances && k in t.instances && t.instances == s.instances[k := t.instances[k]]
    ensures Owned(t) == Owned(s) + {t.instances[k].proxy}
  {
    assert forall j | j in s.instances :: t.instances[j] == s.instances[j];
  }

  lemma OwnedAfterRemove(s: State, t: State, k: Id)
    requires k in s.instances && t.instances == s.instances - {k}
    requires forall j | j in s.instances && j != k :: s.instances[j].proxy != s.instances[k].proxy
    ensures Owned(t) == Owned(s) - {s.instances[k].proxy}
  {
    forall p | p in Owned(s) && p != s.instances[k].proxy
      ensures p in Owned(t)
    {
      var j :| j in s.instances && s.instances[j].proxy == p;
      assert j in t.instances && t.instances[j] == s.instances[j];
    }
    assert forall j | j in t.instances :: t.instances[j] == s.instances[j] && j != k;
  }

  lemma OwnedAfterUnload(s: State, k: Id, cleans: bool)
    requires Sound(s) && AllOwned(s)
    ensures AllOwned(Unloaded(s, k, cleans).0)
  {
    if k in s.instances && cleans {
      UnloadLeaves(s, k);
      OwnedAfterRemove(s, Unloaded(s, k, true).0, k);
    }
  }

  lemma UnloadKeepsOrphans(s: State, k: Id, cleans: bool)
    ensures !cleans ==> Unloaded(s, k, cleans).0 == s
  {
  }

  lemma ReloadOrphans(s: State, k: Id, config: Option<Config>, w: ReloadWorld)
    requires Sound(s) && AllOwned(s)
    ensures AllOwned(Reloaded(s, k, config, w).0) <==> !Orphans(s, Reload(k, config, w))
  {
    ReloadUnfolds(s, k, config, w);
    UnloadKeepsOrphans(s, k, w.cleans);
    if ReloadReaches(s, k, config, w) {
      OwnedAfterUnload(s, k, w.cleans);
      UnloadKeepsSound(s, k, w.cleans);
      LoadOrphans(Unloaded(s, k, w.cleans).0,
                  s.capabilities[s.instances[k].capability], ReloadRequest(config, w, k), w.load);
    }
  }

  /** A worker is orphaned exactly by a load or reload that spawns it and then gives up. */
  lemma WorkersAreOrphanedIff(s: State, op: Op)
    requires Sound(s) && AllOwned(s)
    ensures AllOwned(Step(s, op)) <==> !Orphans(s, op)
  {
    match op
    case Load(m, q, w) => if m in s.metas { LoadOrphans(s, m, q, w); }
    case Unload(k, cleans) => OwnedAfterUnload(s, k, cleans);
    case Reload(k, config, w) => ReloadOrphans(s, k, config, w);
    case _ =>
      StepsKeepShape(s, op);
      ShapeOwned(s, Step(s, op));
  }

  lemma ShapeOwned(s: State, t: State)
    requires SameShape(s, t)
    ensures Owned(t) == Owned(s)
  {
    forall p
      ensures p in Owned(t) <==> p in Owned(s)
    {
      if k :| k in s.instances && s.instances[k].proxy == p { assert t.instances[k].proxy == p; }
      if k :| k in t.instances && t.instances[k].proxy == p { assert s.instances[k].proxy == p; }
    }
  }
}
