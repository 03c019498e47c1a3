/** What a loaded instance keeps across reloads, restarts and executions. */
module InstanceState {
  import opened Results
  import opened Registry
  import opened RegistryInvariants
  import opened RegistryOutcomes

  // ---- Reloading ---------------------------------------------------------

  /** The old worker is gone and the load that should replace it succeeds. */
  predicate Restarts(s: State, k: Id, config: Option<Config>, w: ReloadWorld)
    requires ReloadReaches(s, k, config, w)
  {
    w.cleans && Registers(Unloaded(s, k, true).0,
                          s.capabilities[s.instances[k].capability], ReloadRequest(config, w, k), w.load)
  }

  /** A reload restarts the worker, leaves everything alone because the old worker would not be
      cleaned up, or loses the instance. */
  lemma ReloadEnds(s: State, k: Id, config: Option<Config>, w: ReloadWorld)
    requires Sound(s) && ReloadReaches(s, k, config, w)
    ensures var (t, ok) := Reloaded(s, k, config, w);
            if !w.cleans then t == s && ok == ValidId(k)
            else if Restarts(s, k, config, w) then
              k in t.instances && t.instances[k].proxy == s.spawned && ok == w.load.journals
            else k !in t.instances && !ok
    ensures Restarts(s, k, config, w) ==> ValidId(k)
  {
    ReloadUnfolds(s, k, config, w);
    UnloadLeaves(s, k);
    LoadEnds(Unloaded(s, k, w.cleans).0,
             s.capabilities[s.instances[k].capability], ReloadRequest(config, w, k), w.load);
  }

  /** Reload's answer says whether the worker was restarted, but for a cleanup that failed on a
      valid id and for a journal entry that failed on a restart. */
  lemma ReloadAnswersTruly(s: State, k: Id, config: Option<Config>, w: ReloadWorld)
    requires Sound(s) && ReloadReaches(s, k, config, w)
    ensures Reloaded(s, k, config, w).1 == Restarts(s, k, config, w)
            <==> !(if w.cleans then Restarts(s, k, config, w) && !w.load.journals else ValidId(k))
  {
    ReloadEnds(s, k, config, w);
  }

  /** A generated id outgrows what a reload accepts when the capability's own name is long, and
      then every reload that cleans up loses the instance. */
  lemma LongAutoIdsAreLost(s: State, k: Id, token: string, config: Option<Config>, w: ReloadWorld)
    requires Sound(s) && ReloadReaches(s, k, config, w)
    requires k == s.instances[k].capability + "-" + token && |token| == 6
    requires forall i | 0 <= i < |token| :: IdChar(token[i])
    ensures ValidId(k) <==> |s.instances[k].capability| <= 57 && forall c | c in s.instances[k].capability :: IdChar(c)
    ensures !ValidId(k) && w.cleans ==> k !in Reloaded(s, k, config, w).0.instances
  {
    var name := s.instances[k].capability;
    assert |k| == |name| + 7 && forall i | 0 <= i < |name| :: k[i] == name[i];
    assert k[|name|] == '-' && forall i | 0 <= i < 6 :: k[|name| + 1 + i] == token[i];
    if ValidId(k) {
      forall c | c in name
        ensures IdChar(c)
      {
        var i :| 0 <= i < |name| && name[i] == c;
        assert IdChar(k[i]);
      }
    }
    ReloadEnds(s, k, config, w);
  }

  // ---- Persistence -------------------------------------------------------

  /** Every persistable instance is enabled exactly as its record says, or enabled without one. */
  ghost predicate Durable(s: State) {
    forall k | k in s.instances && s.instances[k].persistable :: s.instances[k].enabled == RecordOf(s.store, k).enabled
  }

  /** The store answers and accepts throughout the operation. */
  predicate StoreUp(op: Op) {
    match op
    case Load(_, _, w) => w.storeUp
    case Reload(_, _, w) => w.load.storeUp
    case Enable(_, w) => w.storeUp
    case Disable(_, w) => w.storeUp
    case Update(_, _, w) => w.persist.storeUp
    case Override(_, _, up) => up
    case _ => true
  }

  lemma LoadKeepsDurable(s: State, m: MetaRef, q: LoadRequest, w: LoadWorld)
    requires Durable(s) && m in s.metas && w.storeUp
    ensures Durable(Loaded(s, m, q, w).0)
  {
    var inst, found := LoadForm(s, m, q, w);
    if Registers(s, m, q, w) { RegisterKeepsDurable(s, m, inst, found); }
  }

  lemma RegisterKeepsDurable(s: State, m: MetaRef, inst: Instance, found: Option<Record>)
    requires Durable(s) && m in s.metas
    requires inst.persistable ==> inst.enabled == RecordOf(s.store, inst.id).enabled
    ensures Durable(Registered(Spawned(s), m, inst, found))
  {
  }

  lemma UnloadKeepsDurable(s: State, k: Id, cleans: bool)
    requires Listed(s) && Durable(s)
    ensures Durable(Unloaded(s, k, cleans).0)
  {
    if k in s.instances { UnloadLeaves(s, k); }
  }

  lemma SetFlagKeepsDurable(s: State, k: Id, on: bool, w: PersistWorld)
    requires Listed(s) && Durable(s) && k in s.instances && w.storeUp
    ensures Durable(Persisted(Flagged(s, k, on), k, w))
  {
    var t := Flagged(s, k, on);
    assert t.instances == s.instances[k := t.instances[k]] && t.store == s.store;
  }

  lemma UpdateKeepsDurable(s: State, k: Id, config: Config, w: UpdateWorld)
    requires Listed(s) && Durable(s)
    ensures Durable(Updated(s, k, config, w).0)
  {
    if k in s.instances && w.validates(config).Some? {
      assert Durable(Reconfigured(s, k, w.validates(config).value));
    }
  }

  lemma OverrideKeepsDurable(s: State, k: Id, env: Config, storeUp: bool)
    requires Listed(s) && Durable(s)
    ensures Durable(Overridden(s, k, env, storeUp).0)
  {
  }

  lemma ReloadKeepsDurable(s: State, k: Id, config: Option<Config>, w: ReloadWorld)
    requires Listed(s) && Durable(s) && w.load.storeUp
    ensures Durable(Reloaded(s, k, config, w).0)
  {
    if ReloadReaches(s, k, config, w) {
      ReloadUnfolds(s, k, config, w);
      UnloadKeepsDurable(s, k, w.cleans);
      UnloadLeaves(s, k);
      LoadKeepsDurable(Unloaded(s, k, w.cleans).0,
                       s.capabilities[s.instances[k].capability], ReloadRequest(config, w, k), w.load);
    }
  }

  lemma EnableKeepsDurable(s: State, k: Id, w: PersistWorld)
    requires Listed(s) && Durable(s) && w.storeUp
    ensures Durable(EnabledAgain(s, k, w))
  {
    if k in s.instances { SetFlagKeepsDurable(s, k, true, w); }
  }

  lemma DisableKeepsDurable(s: State, k: Id, w: PersistWorld)
    requires Listed(s) && Durable(s) && w.storeUp
    ensures Durable(Disabled(s, k, w))
  {
    if k in s.instances { SetFlagKeepsDurable(s, k, false, w); }
  }

  lemma StepKeepsDurable(s: State, op: Op)
    requires Listed(s) && Durable(s) && StoreUp(op)
    ensures Durable(Step(s, op))
  {
    match op
    case Load(m, q, w) => if m in s.metas { LoadKeepsDurable(s, m, q, w); }
    case Unload(k, cleans) => UnloadKeepsDurable(s, k, cleans);
    case Reload(k, config, w) => ReloadKeepsDurable(s, k, config, w);
    case Enable(k, w) => EnableKeepsDurable(s, k, w);
    case Disable(k, w) => DisableKeepsDurable(s, k, w);
    case Update(k, config, w) => UpdateKeepsDurable(s, k, config, w);
    case Override(k, env, storeUp) => OverrideKeepsDurable(s, k, env, storeUp);
    case Begin(k) =>
    case Attempt(k) =>
    case End(k) =>
  }

  /** Over any run with a working store, an instance's enabled flag is its record's. */
  lemma {:induction false} FlagsStayDurable(s: State, ops: seq<Op>)
    requires Sound(s) && Durable(s) && forall i | 0 <= i < |ops| :: StoreUp(ops[i])
    ensures Durable(After(s, ops))
  {
    if ops != [] {
      var front := ops[..|ops| - 1];
      FlagsStayDurable(s, front);
      RegistryStaysSound(s, front);
      StepKeepsDurable(After(s, front), ops[|ops| - 1]);
    }
  }

  /** An override is taken whenever the store works, but not for a loaded auto-generated id. */
  predicate TakesOverride(s: State, k: Id, storeUp: bool) {
    storeUp && (k in s.instances ==> s.instances[k].persistable)
  }

  /** An override that is taken is stored, and nothing else of the store or the state changes; one
      that is refused changes nothing. */
  lemma OverrideEnds(s: State, k: Id, env: Config, storeUp: bool)
    requires Listed(s)
    ensures var (t, ok) := Overridden(s, k, env, storeUp);
            && ok == TakesOverride(s, k, storeUp) && t == s.(store := t.store)
            && (ok ==>
                  && k in t.store && t.store[k].env == env
                  && t.store[k].config == (if k in s.store then s.store[k].config else map[])
                  && t.store[k].enabled == (k in s.store ==> s.store[k].enabled)
                  && t.store - {k} == s.store - {k})
            && (!ok ==> t == s)
  {
  }

  /** The override in force for an id after a run: the last one taken for it. */
  ghost function LastOverride(s: State, ops: seq<Op>, k: Id): Config {
    if ops == [] then RecordOf(s.store, k).env
    else
      var op := ops[|ops| - 1];
      var before := After(s, ops[..|ops| - 1]);
      if op.Override? && op.id == k && TakesOverride(before, k, op.storeUp) then op.env
      else LastOverride(s, ops[..|ops| - 1], k)
  }

  lemma UnloadKeepsStore(s: State, k: Id, cleans: bool)
    ensures Unloaded(s, k, cleans).0.store == s.store
  {
  }

  lemma LoadKeepsStore(s: State, m: MetaRef, q: LoadRequest, w: LoadWorld)
    requires m in s.metas
    ensures Loaded(s, m, q, w).0.store == s.store
  {
    var inst, found := LoadForm(s, m, q, w);
  }

  lemma PersistKeepsEnv(s: State, k: Id, w: PersistWorld, j: Id)
    ensures RecordOf(Persisted(s, k, w).store, j).env == RecordOf(s.store, j).env
  {
  }

  lemma ReloadKeepsStore(s: State, k: Id, config: Option<Config>, w: ReloadWorld)
    requires Listed(s)
    ensures Reloaded(s, k, config, w).0.store == s.store
  {
    if ReloadReaches(s, k, config, w) {
      ReloadUnfolds(s, k, config, w);
      UnloadLeaves(s, k);
      LoadKeepsStore(Unloaded(s, k, w.cleans).0,
                     s.capabilities[s.instances[k].capability], ReloadRequest(config, w, k), w.load);
    }
  }

  lemma EnableKeepsEnv(s: State, k: Id, w: PersistWorld, j: Id)
    ensures RecordOf(EnabledAgain(s, k, w).store, j).env == RecordOf(s.store, j).env
  {
    if k in s.instances {
      PersistKeepsEnv(Flagged(s, k, true), k, w, j);
      assert Flagged(s, k, true).store == s.store;
    }
  }

  lemma DisableKeepsEnv(s: State, k: Id, w: PersistWorld, j: Id)
    ensures RecordOf(Disabled(s, k, w).store, j).env == RecordOf(s.store, j).env
  {
    if k in s.instances {
      PersistKeepsEnv(Flagged(s, k, false), k, w, j);
      assert Flagged(s, k, false).store == s.store;
    }
  }

  lemma UpdateKeepsEnv(s: State, k: Id, config: Config, w: UpdateWorld, j: Id)
    ensures RecordOf(Updated(s, k, config, w).0.store, j).env == RecordOf(s.store, j).env
  {
  }

  lemma OverrideSetsEnv(s: State, k: Id, env: Config, storeUp: bool, j: Id)
    requires Listed(s)
    ensures RecordOf(Overridden(s, k, env, storeUp).0.store, j).env ==
            if j == k && TakesOverride(s, k, storeUp) then env else RecordOf(s.store, j).env
  {
    OverrideEnds(s, k, env, storeUp);
    assert j != k ==> (j in s.store - {k} <==> j in s.store);
  }

  lemma ReshapingKeepsStore(s: State, op: Op)
    requires Listed(s) && Reshapes(op)
    ensures Step(s, op).store == s.store
  {
    match op
    case Load(m, q, w) => if m in s.metas { LoadKeepsStore(s, m, q, w); }
    case Unload(k, cleans) => UnloadKeepsStore(s, k, cleans);
    case Reload(k, config, w) => ReloadKeepsStore(s, k, config, w);
  }

  lemma ExecutionKeepsStore(s: State, k: Id)
    ensures Begun(s, k).store == s.store && Retried(s, k).store == s.store && Ended(s, k).store == s.store
  {
  }

  lemma StepKeepsEnv(s: State, op: Op, k: Id)
    requires Listed(s)
    ensures RecordOf(Step(s, op).store, k).env ==
            if op.Override? && op.id == k && TakesOverride(s, k, op.storeUp) then op.env else RecordOf(s.store, k).env
  {
    if Reshapes(op) {
      ReshapingKeepsStore(s, op);
    } else {
      match op
      case Enable(j, w) => EnableKeepsEnv(s, j, w, k);
      case Disable(j, w) => DisableKeepsEnv(s, j, w, k);
      case Update(j, config, w) => UpdateKeepsEnv(s, j, config, w, k);
      case Override(j, env, storeUp) => OverrideSetsEnv(s, j, env, storeUp, k);
      case Begin(j) => ExecutionKeepsStore(s, j);
      case Attempt(j) => ExecutionKeepsStore(s, j);
      case End(j) => ExecutionKeepsStore(s, j);
    }
  }

  /** Whatever else happens in between, and whatever fails, the store holds the last override. */
  lemma {:induction false} OverridesStick(s: State, ops: seq<Op>, k: Id)
    requires Sound(s)
    ensures RecordOf(After(s, ops).store, k).env == LastOverride(s, ops, k)
  {
    if ops != [] {
      var front := ops[..|ops| - 1];
      OverridesStick(s, front, k);
      RegistryStaysSound(s, front);
      StepKeepsEnv(After(s, front), ops[|ops| - 1], k);
    }
  }

  // ---- The config that is stored ------------------------------------------

  /** Storing an instance's state writes the worker's own config, or this one if it gives none. */
  function Stores(s: State, k: Id, own: Config, w: PersistWorld): Option<Config> {
    if k in s.instances && s.instances[k].persistable && w.storeUp
    then Some(if w.live.Some? then w.live.value else own) else None
  }

  /** The config that the operation puts into the record of k, if it does. */
  function Writes(s: State, op: Op, k: Id): Option<Config> {
    match op
    case Enable(j, w) => if j == k && k in s.instances then Stores(s, k, s.instances[k].config, w) else None
    case Disable(j, w) => if j == k && k in s.instances then Stores(s, k, s.instances[k].config, w) else None
    case Update(j, config, w) =>
      if j == k && w.validates(config).Some? && w.applies && w.journals
      then Stores(s, k, w.validates(config).value, w.persist) else None
    case _ => None
  }

  /** The config in the record of an id after a run: the last one written. */
  ghost function LastConfig(s: State, ops: seq<Op>, k: Id): Config {
    if ops == [] then RecordOf(s.store, k).config
    else
      var written := Writes(After(s, ops[..|ops| - 1]), ops[|ops| - 1], k);
      if written.Some? then written.value else LastConfig(s, ops[..|ops| - 1], k)
  }

  lemma FlagKeepsConfig(s: State, k: Id, on: bool)
    requires Listed(s) && k in s.instances
    ensures var t := Flagged(s, k, on);
            && t.store == s.store && t.instances == s.instances[k := s.instances[k].(enabled := on)]
  {
  }

  lemma EnablePersists(s: State, j: Id, w: PersistWorld)
    requires j in s.instances
    ensures EnabledAgain(s, j, w).store == Persisted(Flagged(s, j, true), j, w).store
  {
  }

  lemma DisablePersists(s: State, j: Id, w: PersistWorld)
    requires j in s.instances
    ensures Disabled(s, j, w).store == Persisted(Flagged(s, j, false), j, w).store
  {
  }

  lemma SwitchWritesConfig(s: State, j: Id, w: PersistWorld, k: Id)
    requires Listed(s)
    ensures var c := if j == k && k in s.instances then Stores(s, k, s.instances[k].config, w) else None;
            var config := if c.Some? then c.value else RecordOf(s.store, k).config;
            && RecordOf(EnabledAgain(s, j, w).store, k).config == config
            && RecordOf(Disabled(s, j, w).store, k).config == config
  {
    if j in s.instances {
      EnablePersists(s, j, w);
      DisablePersists(s, j, w);
      FlagWritesConfig(s, j, true, w, k);
      FlagWritesConfig(s, j, false, w, k);
    }
  }

  lemma FlagWritesConfig(s: State, j: Id, on: bool, w: PersistWorld, k: Id)
    requires Listed(s) && j in s.instances
    ensures var c := if j == k then Stores(s, k, s.instances[k].config, w) else None;
            RecordOf(Persisted(Flagged(s, j, on), j, w).store, k).config
            == if c.Some? then c.value else RecordOf(s.store, k).config
  {
    FlagKeepsConfig(s, j, on);
  }

  lemma UpdateWritesConfig(s: State, j: Id, config: Config, w: UpdateWorld, k: Id)
    requires Listed(s)
    ensures var c := Writes(s, Update(j, config, w), k);
            RecordOf(Updated(s, j, config, w).0.store, k).config == if c.Some? then c.value else RecordOf(s.store, k).config
  {
  }

  lemma OverrideKeepsConfig(s: State, j: Id, env: Config, storeUp: bool, k: Id)
    requires Listed(s)
    ensures RecordOf(Overridden(s, j, env, storeUp).0.store, k).config == RecordOf(s.store, k).config
  {
  }

  lemma StepWritesConfig(s: State, op: Op, k: Id)
    requires Listed(s)
    ensures var c := Writes(s, op, k);
            RecordOf(Step(s, op).store, k).config == if c.Some? then c.value else RecordOf(s.store, k).config
  {
    if Reshapes(op) {
      ReshapingKeepsStore(s, op);
    } else {
      match op
      case Enable(j, w) => SwitchWritesConfig(s, j, w, k);
      case Disable(j, w) => SwitchWritesConfig(s, j, w, k);
      case Update(j, config, w) => UpdateWritesConfig(s, j, config, w, k);
      case Override(j, env, storeUp) => OverrideKeepsConfig(s, j, env, storeUp, k);
      case Begin(j) => ExecutionKeepsStore(s, j);
      case Attempt(j) => ExecutionKeepsStore(s, j);
      case End(j) => ExecutionKeepsStore(s, j);
    }
  }

  /** Whatever happens and fails in between, a record holds the config of its last persist: the
      worker's answer, or the instance's own config when there was none. */
  lemma {:induction false} ConfigsStick(s: State, ops: seq<Op>, k: Id)
    requires Sound(s)
    ensures RecordOf(After(s, ops).store, k).config == LastConfig(s, ops, k)
  {
    if ops != [] {
      var front := ops[..|ops| - 1];
      ConfigsStick(s, front, k);
      RegistryStaysSound(s, front);
      StepWritesConfig(After(s, front), ops[|ops| - 1], k);
    }
  }

  // ---- Starting from a record ----------------------------------------------

  /** The record that a load goes by: none for a generated id or when the store cannot be read. */
  predicate GoesBy(s: State, k: Id, q: LoadRequest, w: LoadWorld) {
    k in s.store && w.storeUp && (q.explicit.Some? || !q.auto)
  }

  /** The instance that a load registers under the id k: flag and override come from its record;
      the config is the caller's if there is one, else the record's if there is one, and passes
      validation; only without both it is the default. */
  ghost predicate StartsAs(s: State, k: Id, q: LoadRequest, w: LoadWorld, inst: Instance) {
    && inst.limit == q.limit && (inst.persistable <==> q.explicit.Some? || !q.auto)
    && (if GoesBy(s, k, q, w) then inst.enabled == s.store[k].enabled && inst.env == s.store[k].env
        else inst.enabled && inst.env == map[])
    && (if q.config != map[] then w.validates(q.config) == Some(inst.config)
        else if GoesBy(s, k, q, w) && s.store[k].config != map[] then w.validates(s.store[k].config) == Some(inst.config)
        else inst.config == w.defaults)
  }

  lemma LoadRegisters(s: State, m: MetaRef, q: LoadRequest, w: LoadWorld)
    requires m in s.metas && Registers(s, m, q, w)
    ensures var k := ResolvedId(s, s.metas[m].name, q, w.tokens).value; var found := Found(s, k, q, w);
            Loaded(s, m, q, w).0.instances == s.instances[k := NewInstance(s, m, k, q, found, Effective(q, found, w).value)]
  {
  }

  lemma NewStartsAs(s: State, m: MetaRef, k: Id, q: LoadRequest, w: LoadWorld)
    requires m in s.metas && Effective(q, Found(s, k, q, w), w).Some?
    ensures var found := Found(s, k, q, w);
            StartsAs(s, k, q, w, NewInstance(s, m, k, q, found, Effective(q, found, w).value))
  {
  }

  lemma LoadStartsAs(s: State, m: MetaRef, q: LoadRequest, w: LoadWorld)
    requires m in s.metas && Registers(s, m, q, w)
    ensures var k := ResolvedId(s, s.metas[m].name, q, w.tokens).value; var t := Loaded(s, m, q, w).0;
            k in t.instances && t.instances[k].capability == s.metas[m].name && StartsAs(s, k, q, w, t.instances[k])
  {
    LoadRegisters(s, m, q, w);
    NewStartsAs(s, m, ResolvedId(s, s.metas[m].name, q, w.tokens).value, q, w);
  }

  /** A new manager over the store that a run has left, loading a persistable instance again,
      restores its flag, spawns its worker with the override last taken, and unless the caller
      gives a config, validates the config last stored. */
  lemma RestartRestores(s: State, ops: seq<Op>, k: Id, metas: map<MetaRef, Meta>, m: MetaRef, q: LoadRequest, w: LoadWorld)
    requires Sound(s) && Durable(s) && forall i | 0 <= i < |ops| :: StoreUp(ops[i])
    requires var u := After(s, ops); k in u.instances && u.instances[k].persistable
    requires m in metas && metas[m].name == After(s, ops).instances[k].capability && Persistable(q) && w.storeUp
    requires ResolvedId(Fresh(metas, After(s, ops).store), metas[m].name, q, w.tokens) == Some(k)
    requires Registers(Fresh(metas, After(s, ops).store), m, q, w)
    ensures var u := After(s, ops); var t := Loaded(Fresh(metas, u.store), m, q, w).0; var last := LastConfig(s, ops, k);
            && k in t.instances && t.instances[k].enabled == u.instances[k].enabled
            && t.instances[k].env == LastOverride(s, ops, k)
            && (q.config == map[] && last != map[] ==> w.validates(last) == Some(t.instances[k].config))
            && (k == metas[m].name && k in u.store ==> t.metas[m].enabled == u.instances[k].enabled)
  {
    FlagsStayDurable(s, ops);
    OverridesStick(s, ops, k);
    ConfigsStick(s, ops, k);
    LoadStartsAs(Fresh(metas, After(s, ops).store), m, q, w);
    DefaultFlagCopied(Fresh(metas, After(s, ops).store), m, q, w);
  }

  lemma DefaultFlagCopied(s: State, m: MetaRef, q: LoadRequest, w: LoadWorld)
    requires m in s.metas && Registers(s, m, q, w)
    ensures var k := ResolvedId(s, s.metas[m].name, q, w.tokens).value; var t := Loaded(s, m, q, w).0;
            k in t.instances && m in t.metas
            && (k == s.metas[m].name && GoesBy(s, k, q, w) ==> t.metas[m].enabled == t.instances[k].enabled)
  {
  }

  /** A restarted instance starts from the config that the reload was given, or that the old
      worker gave, as from a caller's. */
  lemma ReloadStartsAs(s: State, k: Id, config: Option<Config>, w: ReloadWorld)
    requires Listed(s) && ReloadReaches(s, k, config, w) && Restarts(s, k, config, w)
    ensures var given := if config.Some? then config.value else w.fetched.value;
            var after := Reloaded(s, k, config, w).0.instances;
            k in after && StartsAs(s, k, LoadRequest(given, Some(k), false, None), w.load, after[k])
  {
    ReloadUnfolds(s, k, config, w);
    UnloadLeaves(s, k);
    LoadStartsAs(Unloaded(s, k, true).0, s.capabilities[s.instances[k].capability], ReloadRequest(config, w, k), w.load);
  }

  /** What an update comes to: a rejected config raises; the worker's and the journal's failures
      answer False, the latter with the new config in force; else the config is in force and kept. */
  lemma UpdateEnds(s: State, k: Id, config: Config, w: UpdateWorld)
    requires Listed(s)
    ensures var (t, reply) := Updated(s, k, config, w);
            if k in s.instances && w.validates(config).Some? && w.applies then
              && k in t.instances && t.instances == s.instances[k := t.instances[k]]
              && t.instances[k].config == w.validates(config).value
              && t.instances[k] == s.instances[k].(config := t.instances[k].config, hashed := t.instances[k].config)
              && reply == Returned(w.journals) && (!w.journals ==> t.store == s.store)
            else t == s && reply == if k in s.instances && w.validates(config).None? then Raised else Returned(false)
  {
  }

  lemma RestartedInstance(s: State, k: Id, config: Option<Config>, w: ReloadWorld)
    requires Listed(s) && ReloadReaches(s, k, config, w) && Restarts(s, k, config, w) && w.load.storeUp
    ensures var after := Reloaded(s, k, config, w).0.instances;
            k in after && after[k].persistable && after[k].limit.None? && after[k].enabled == RecordOf(s.store, k).enabled
  {
    ReloadUnfolds(s, k, config, w);
    UnloadLeaves(s, k);
    var inst, found := LoadForm(Unloaded(s, k, true).0,
                                s.capabilities[s.instances[k].capability], ReloadRequest(config, w, k), w.load);
  }

  /** A restart keeps the flag, the persistability and the concurrency limit exactly for the
      persistable instances without a limit. */
  lemma RestartKeepsInstanceIff(s: State, k: Id, config: Option<Config>, w: ReloadWorld)
    requires Sound(s) && Durable(s) && ReloadReaches(s, k, config, w) && Restarts(s, k, config, w) && w.load.storeUp
    ensures var before, after := s.instances[k], Reloaded(s, k, config, w).0.instances;
            k in after
            && ((after[k].enabled == before.enabled && after[k].persistable == before.persistable
                 && after[k].limit == before.limit)
                <==> before.persistable && before.limit.None?)
    ensures Reloaded(s, k, config, w).0.instances[k].enabled == RecordOf(s.store, k).enabled
  {
    RestartedInstance(s, k, config, w);
  }

  // ---- The copy of the flag on the metadata ------------------------------

  /** A loaded default instance and its capability's metadata agree on whether it is enabled. */
  ghost predicate FlagsAgree(s: State) {
    forall k | k in s.instances && s.instances[k].capability == k ::
      k in s.capabilities && s.capabilities[k] in s.metas
      && s.metas[s.capabilities[k]].enabled == s.instances[k].enabled
  }

  /** A default instance is loaded without a record while its metadata still says disabled. */
  predicate LoadsOverDisabled(s: State, m: MetaRef, q: LoadRequest, w: LoadWorld)
    requires m in s.metas
  {
    && Registers(s, m, q, w) && ResolvedId(s, s.metas[m].name, q, w.tokens) == Some(s.metas[m].name)
    && Found(s, s.metas[m].name, q, w).None? && !s.metas[m].enabled
  }

  predicate ReloadsOverDisabled(s: State, k: Id, config: Option<Config>, w: ReloadWorld) {
    && ReloadReaches(s, k, config, w)
    && LoadsOverDisabled(Unloaded(s, k, w.cleans).0,
                         s.capabilities[s.instances[k].capability], ReloadRequest(config, w, k), w.load)
  }

  predicate SplitsFlags(s: State, op: Op) {
    match op
    case Load(m, q, w) => m in s.metas && LoadsOverDisabled(s, m, q, w)
    case Reload(k, config, w) => ReloadsOverDisabled(s, k, config, w)
    case _ => false
  }

  lemma RegisterFlags(s: State, m: MetaRef, inst: Instance, found: Option<Record>)
    requires Listed(s) && FlagsAgree(s) && m in s.metas && inst.id !in s.instances
    requires inst.capability == s.metas[m].name && inst.enabled == (found.None? || found.value.enabled)
    ensures FlagsAgree(Registered(Spawned(s), m, inst, found))
            <==> !(inst.id == inst.capability && found.None? && !s.metas[m].enabled)
  {
    var t := Registered(Spawned(s), m, inst, found);
    if inst.id == inst.capability {
      assert t.capabilities[inst.id] == m && t.instances[inst.id] == inst;
    }
    forall k | k in s.instances && s.instances[k].capability == k
      ensures k in t.capabilities && t.capabilities[k] in t.metas
      ensures t.metas[t.capabilities[k]].enabled == t.instances[k].enabled
    {
      assert k != inst.id && t.instances[k] == s.instances[k];
    }
  }

  lemma LoadFlags(s: State, m: MetaRef, q: LoadRequest, w: LoadWorld)
    requires Listed(s) && FlagsAgree(s) && m in s.metas
    ensures FlagsAgree(Loaded(s, m, q, w).0) <==> !LoadsOverDisabled(s, m, q, w)
  {
    var inst, found := LoadForm(s, m, q, w);
    if Registers(s, m, q, w) {
      RegisterFlags(s, m, inst, found);
    }
  }

  lemma UnloadFlags(s: State, k: Id, cleans: bool)
    requires Listed(s) && FlagsAgree(s)
    ensures FlagsAgree(Unloaded(s, k, cleans).0)
  {
    if k in s.instances && cleans {
      UnloadLeaves(s, k);
      UnloadedMetas(s, k);
    }
  }

  lemma UnloadStaysListed(s: State, k: Id, cleans: bool)
    requires Listed(s) && k in s.instances
    ensures Listed(Unloaded(s, k, cleans).0)
  {
    if cleans { UnloadKeepsListed(s, k); }
  }

  lemma ReloadFlags(s: State, k: Id, config: Option<Config>, w: ReloadWorld)
    requires Listed(s) && FlagsAgree(s)
    ensures FlagsAgree(Reloaded(s, k, config, w).0) <==> !ReloadsOverDisabled(s, k, config, w)
  {
    ReloadUnfolds(s, k, config, w);
    if ReloadReaches(s, k, config, w) {
      UnloadFlags(s, k, w.cleans);
      UnloadStaysListed(s, k, w.cleans);
      LoadFlags(Unloaded(s, k, w.cleans).0,
                s.capabilities[s.instances[k].capability], ReloadRequest(config, w, k), w.load);
    }
  }

  lemma SetFlagAgrees(s: State, k: Id, on: bool)
    requires Listed(s) && FlagsAgree(s) && k in s.instances
    ensures FlagsAgree(Flagged(s, k, on))
  {
    var t := Flagged(s, k, on);
    forall j | j in t.instances && t.instances[j].capability == j
      ensures j in t.capabilities && t.capabilities[j] in t.metas
      ensures t.metas[t.capabilities[j]].enabled == t.instances[j].enabled
    {
      assert j in s.instances && s.instances[j].capability == j;
      assert s.metas[s.capabilities[j]].name == j;
    }
  }

  lemma SameFlags(s: State, t: State)
    requires FlagsAgree(s) && t.instances == s.instances && t.metas == s.metas && t.capabilities == s.capabilities
    ensures FlagsAgree(t)
  {
  }

  lemma PersistForm(s: State, k: Id, w: PersistWorld)
    ensures Persisted(s, k, w) == s.(store := Persisted(s, k, w).store)
  {
  }

  lemma EnableFlags(s: State, k: Id, w: PersistWorld)
    requires Listed(s) && FlagsAgree(s)
    ensures FlagsAgree(EnabledAgain(s, k, w))
  {
    if k in s.instances {
      SetFlagAgrees(s, k, true);
      PersistForm(Flagged(s, k, true), k, w);
      SameFlags(Flagged(s, k, true), EnabledAgain(s, k, w));
    }
  }

  lemma DisableFlags(s: State, k: Id, w: PersistWorld)
    requires Listed(s) && FlagsAgree(s)
    ensures FlagsAgree(Disabled(s, k, w))
  {
    if k in s.instances {
      SetFlagAgrees(s, k, false);
      PersistForm(Flagged(s, k, false), k, w);
      SameFlags(Flagged(s, k, false), Disabled(s, k, w));
    }
  }

  lemma UpdateFlags(s: State, k: Id, config: Config, w: UpdateWorld)
    requires FlagsAgree(s)
    ensures FlagsAgree(Updated(s, k, config, w).0)
  {
  }

  /** Instance and metadata disagree after exactly such a load, or a reload that ends in one. */
  lemma FlagsAgreeIff(s: State, op: Op)
    requires Listed(s) && FlagsAgree(s)
    ensures FlagsAgree(Step(s, op)) <==> !SplitsFlags(s, op)
  {
    match op
    case Load(m, q, w) => if m in s.metas { LoadFlags(s, m, q, w); }
    case Unload(k, cleans) => UnloadFlags(s, k, cleans);
    case Reload(k, config, w) => ReloadFlags(s, k, config, w);
    case Enable(k, w) => EnableFlags(s, k, w);
    case Disable(k, w) => DisableFlags(s, k, w);
    case Update(k, config, w) => UpdateFlags(s, k, config, w);
    case Override(_, _, _) =>
    case Begin(_) =>
    case Attempt(_) =>
    case End(_) =>
  }

  // ---- The config hash ---------------------------------------------------

  /** Every instance's config hash is the hash of its live config. */
  ghost predicate HashesLive(s: State) {
    forall k | k in s.instances :: s.instances[k].hashed == s.instances[k].config
  }

  lemma LoadHashes(s: State, m: MetaRef, q: LoadRequest, w: LoadWorld)
    requires m in s.metas && HashesLive(s)
    ensures HashesLive(Loaded(s, m, q, w).0)
  {
    var inst, found := LoadForm(s, m, q, w);
    if Registers(s, m, q, w) { RegisterHashes(s, m, inst, found); }
  }

  lemma RegisterHashes(s: State, m: MetaRef, inst: Instance, found: Option<Record>)
    requires m in s.metas && HashesLive(s) && inst.hashed == inst.config
    ensures HashesLive(Registered(Spawned(s), m, inst, found))
  {
  }

  lemma UnloadHashes(s: State, k: Id, cleans: bool)
    requires Listed(s) && HashesLive(s)
    ensures HashesLive(Unloaded(s, k, cleans).0)
  {
    if k in s.instances { UnloadLeaves(s, k); }
  }

  lemma ReloadHashes(s: State, k: Id, config: Option<Config>, w: ReloadWorld)
    requires Listed(s) && HashesLive(s)
    ensures HashesLive(Reloaded(s, k, config, w).0)
  {
    ReloadUnfolds(s, k, config, w);
    if ReloadReaches(s, k, config, w) {
      UnloadHashes(s, k, w.cleans);
      LoadHashes(Unloaded(s, k, w.cleans).0,
                 s.capabilities[s.instances[k].capability], ReloadRequest(config, w, k), w.load);
    }
  }

  lemma EnableHashes(s: State, k: Id, w: PersistWorld)
    requires HashesLive(s)
    ensures HashesLive(EnabledAgain(s, k, w))
  {
    if k in s.instances {
      PersistForm(Flagged(s, k, true), k, w);
      assert HashesLive(Flagged(s, k, true));
    }
  }

  lemma DisableHashes(s: State, k: Id, w: PersistWorld)
    requires HashesLive(s)
    ensures HashesLive(Disabled(s, k, w))
  {
    if k in s.instances {
      PersistForm(Flagged(s, k, false), k, w);
      assert HashesLive(Flagged(s, k, false));
    }
  }

  lemma UpdateHashes(s: State, k: Id, config: Config, w: UpdateWorld)
    requires HashesLive(s)
    ensures HashesLive(Updated(s, k, config, w).0)
  {
    if k in s.instances && w.validates(config).Some? {
      PersistForm(Reconfigured(s, k, w.validates(config).value), k, w.persist);
    }
  }

  lemma StepKeepsHashes(s: State, op: Op)
    requires Listed(s) && HashesLive(s)
    ensures HashesLive(Step(s, op))
  {
    match op
    case Load(m, q, w) => if m in s.metas { LoadHashes(s, m, q, w); }
    case Unload(k, cleans) => UnloadHashes(s, k, cleans);
    case Reload(k, config, w) => ReloadHashes(s, k, config, w);
    case Enable(k, w) => EnableHashes(s, k, w);
    case Disable(k, w) => DisableHashes(s, k, w);
    case Update(k, config, w) => UpdateHashes(s, k, config, w);
    case Override(_, _, _) =>
    case Begin(_) =>
    case Attempt(_) =>
    case End(_) =>
  }

  /** After any operations every config hash is that of the live config. */
  lemma {:induction false} HashesStayLive(s: State, ops: seq<Op>)
    requires Sound(s) && HashesLive(s)
    ensures HashesLive(After(s, ops))
  {
    if ops != [] {
      var front := ops[..|ops| - 1];
      HashesStayLive(s, front);
      RegistryStaysSound(s, front);
      StepKeepsHashes(After(s, front), ops[|ops| - 1]);
    }
  }
}
