/** The capability manager's registry: loaded instances, capability metadata, the per-instance
    config store, and the workers behind them. Every answer that comes from outside (a worker,
    the store, the journal, the random id generator) is a parameter of the operation. */
module Registry {
  import opened Results

  type Id = string
  type Proxy = nat
  type MetaRef = nat
  type Config = map<string, string>

  /** A capability's metadata object, which callers keep and may pass in again. */
  datatype Meta = Meta(name: Id, instance: Option<Proxy>, enabled: bool)

  /** `hashed` is the config that the config hash was last computed from. */
  datatype Instance = Instance(id: Id, capability: Id, config: Config, hashed: Config, proxy: Proxy, enabled: bool,
                               env: Config, limit: Option<nat>, persistable: bool)

  /** A config-store row. */
  datatype Record = Record(config: Config, enabled: bool, env: Config)

  /** What a worker is told. */
  datatype Signal = OnEnable(proxy: Proxy) | OnDisable(proxy: Proxy, whileEnabled: bool)

  /** `workers` are the spawned and not yet cleaned-up workers; `inFlight` counts the
      executions that have started and not finished. */
  datatype State = State(
    instances: map<Id, Instance>, capabilities: map<Id, MetaRef>, metas: map<MetaRef, Meta>,
    running: set<Id>, deferred: set<Id>, store: map<Id, Record>,
    spawned: nat, workers: set<Proxy>, inFlight: multiset<Id>, signals: seq<Signal>)

  datatype Reply = Returned(ok: bool) | Raised

  // ---- Loading -----------------------------------------------------------

  datatype LoadRequest = LoadRequest(config: Config, explicit: Option<Id>, auto: bool, limit: Option<nat>)

  /** Outside answers during a load: generated id tokens; whether the store can be read; `launches`,
      whether a worker process exists after the attempt to spawn one (it does not when environment
      or adapters are refused before the spawn, or the spawn itself terminates it, and it does when
      the worker does not come up in time); `validates`, the schema's answer on each config, None a
      rejection; `starts`, whether the worker comes up and takes its config; and whether the
      journal takes the entry. */
  datatype LoadWorld = LoadWorld(tokens: seq<string>, storeUp: bool, launches: bool,
                                 validates: Config -> Option<Config>, defaults: Config, starts: bool, journals: bool)

  predicate IdChar(c: char) {
    'A' <= c <= 'Z' || 'a' <= c <= 'z' || '0' <= c <= '9' || c == '_' || c == '-'
  }

  predicate ValidId(id: Id) {
    1 <= |id| <= 64 && forall i | 0 <= i < |id| :: IdChar(id[i])
  }

  /** The first generated id that is not taken. */
  function FirstFree(taken: set<Id>, name: Id, tokens: seq<string>): (id: Option<Id>)
    ensures id.Some? ==> id.value !in taken
  {
    if tokens == [] then None
    else if name + "-" + tokens[0] !in taken then Some(name + "-" + tokens[0])
    else FirstFree(taken, name, tokens[1..])
  }

  function ResolvedId(s: State, name: Id, q: LoadRequest, tokens: seq<string>): Option<Id> {
    match q.explicit
    case Some(id) => if ValidId(id) then Some(id) else None
    case None => if q.auto then FirstFree(s.instances.Keys, name, tokens) else Some(name)
  }

  predicate Persistable(q: LoadRequest) { !(q.explicit.None? && q.auto) }

  function Found(s: State, k: Id, q: LoadRequest, w: LoadWorld): Option<Record> {
    if Persistable(q) && w.storeUp && k in s.store then Some(s.store[k]) else None
  }

  /** Caller over persisted over defaults; whatever is not a default is validated. */
  function Effective(q: LoadRequest, found: Option<Record>, w: LoadWorld): Option<Config> {
    var given := if q.config == map[] && found.Some? then found.value.config else q.config;
    if given == map[] then Some(w.defaults) else w.validates(given)
  }

  function NewInstance(s: State, m: MetaRef, k: Id, q: LoadRequest, found: Option<Record>, config: Config): Instance
    requires m in s.metas
  {
    Instance(k, s.metas[m].name, config, config, s.spawned, found.None? || found.value.enabled,
             if found.Some? then found.value.env else map[], q.limit, Persistable(q))
  }

  /** The default instance becomes the metadata's canonical one; another is only listed. */
  function Registered(s: State, m: MetaRef, inst: Instance, found: Option<Record>): State
    requires m in s.metas
  {
    var name := s.metas[m].name;
    var t := s.(instances := s.instances[inst.id := inst]);
    if inst.id == name then
      t.(metas := s.metas[m := Meta(name, Some(inst.proxy), if found.Some? then inst.enabled else s.metas[m].enabled)],
         capabilities := s.capabilities[name := m])
    else if name !in s.capabilities then t.(capabilities := s.capabilities[name := m])
    else t
  }

  function Spawned(s: State): State {
    s.(spawned := s.spawned + 1, workers := s.workers + {s.spawned})
  }

  /** A worker is launched under the id k, and registered if its config is accepted and it starts. */
  function Launched(s: State, m: MetaRef, k: Id, q: LoadRequest, w: LoadWorld): (State, Reply)
    requires m in s.metas
  {
    var found := Found(s, k, q, w);
    if !w.launches then (s, Returned(false))
    else
      match Effective(q, found, w)
      case None => (Spawned(s), Returned(false))
      case Some(config) =>
        if !w.starts then (Spawned(s), Returned(false))
        else (Registered(Spawned(s), m, NewInstance(s, m, k, q, found, config), found), Returned(w.journals))
  }

  function Loaded(s: State, m: MetaRef, q: LoadRequest, w: LoadWorld): (State, Reply)
    requires m in s.metas
  {
    match ResolvedId(s, s.metas[m].name, q, w.tokens)
    case None => (s, Raised)
    case Some(k) => if k in s.instances then (s, Returned(true)) else Launched(s, m, k, q, w)
  }

  // ---- Unloading and reloading -------------------------------------------

  predicate HasInstances(instances: map<Id, Instance>, name: Id) {
    exists k :: k in instances && instances[k].capability == name
  }

  function Unloaded(s: State, k: Id, cleans: bool): (State, bool) {
    if k !in s.instances || !cleans then (s, false)
    else
      var inst := s.instances[k];
      var name := inst.capability;
      var t := s.(instances := s.instances - {inst.id}, workers := s.workers - {inst.proxy},
                  running := s.running - {inst.id, name}, deferred := s.deferred - {inst.id, name});
      if !HasInstances(t.instances, name) then (t.(capabilities := s.capabilities - {name}), true)
      else if inst.id == name && name in s.capabilities && s.capabilities[name] in s.metas then
        (t.(metas := s.metas[s.capabilities[name] := s.metas[s.capabilities[name]].(instance := None)]), true)
      else (t, true)
  }

  /** `fetched` is the worker's answer when it is asked for its config; None is an exception. */
  datatype ReloadWorld = ReloadWorld(fetched: Option<Config>, cleans: bool, load: LoadWorld)

  function Reloaded(s: State, k: Id, config: Option<Config>, w: ReloadWorld): (State, bool) {
    if k !in s.instances then (s, false)
    else
      var inst := s.instances[k];
      if inst.capability !in s.capabilities || s.capabilities[inst.capability] !in s.metas then (s, false)
      else if config.None? && w.fetched.None? then (s, false)
      else
        var q := LoadRequest(if config.Some? then config.value else w.fetched.value, Some(inst.id), false, None);
        var t := Unloaded(s, inst.id, w.cleans).0;
        var (u, reply) := Loaded(t, s.capabilities[inst.capability], q, w.load);
        (u, reply == Returned(true))
  }

  // ---- Per-instance state ------------------------------------------------

  function RecordOf(store: map<Id, Record>, k: Id): Record {
    if k in store then store[k] else Record(map[], true, map[])
  }

  /** `live` is the worker's own config if it answers; `storeUp` whether the store works. */
  datatype PersistWorld = PersistWorld(live: Option<Config>, storeUp: bool)

  function Persisted(s: State, k: Id, w: PersistWorld): State {
    if k !in s.instances || !s.instances[k].persistable || !w.storeUp then s
    else
      var inst := s.instances[k];
      var config := if w.live.Some? then w.live.value else inst.config;
      s.(store := s.store[inst.id := Record(config, inst.enabled, RecordOf(s.store, inst.id).env)])
  }

  function Flagged(s: State, k: Id, on: bool): State
    requires k in s.instances
  {
    var inst := s.instances[k];
    var t := s.(instances := s.instances[k := inst.(enabled := on)]);
    if inst.id == inst.capability && inst.capability in s.capabilities && s.capabilities[inst.capability] in s.metas then
      var m := s.capabilities[inst.capability];
      t.(metas := s.metas[m := s.metas[m].(enabled := on)])
    else t
  }

  function EnabledAgain(s: State, k: Id, w: PersistWorld): State {
    if k !in s.instances then s
    else
      var t := Persisted(Flagged(s, k, true), k, w);
      if s.instances[k].enabled then t else t.(signals := s.signals + [OnEnable(s.instances[k].proxy)])
  }

  function Disabled(s: State, k: Id, w: PersistWorld): State {
    if k !in s.instances then s
    else
      var t := Persisted(Flagged(s, k, false), k, w);
      if !s.instances[k].enabled then t
      else if s.instances[k].id in s.running then t.(deferred := s.deferred + {s.instances[k].id})
      else t.(signals := s.signals + [OnDisable(s.instances[k].proxy, false)])
  }

  datatype UpdateWorld = UpdateWorld(validates: Config -> Option<Config>, applies: bool, journals: bool,
                                     persist: PersistWorld)

  /** The hash follows the config. */
  function Reconfigured(s: State, k: Id, config: Config): State
    requires k in s.instances
  {
    s.(instances := s.instances[k := s.instances[k].(config := config, hashed := config)])
  }

  /** A rejected config raises; the worker's and the journal's failures return False. */
  function Updated(s: State, k: Id, config: Config, w: UpdateWorld): (State, Reply) {
    if k !in s.instances then (s, Returned(false))
    else if w.validates(config).None? then (s, Raised)
    else if !w.applies then (s, Returned(false))
    else
      var t := Reconfigured(s, k, w.validates(config).value);
      if !w.journals then (t, Returned(false)) else (Persisted(t, k, w.persist), Returned(true))
  }

  function Overridden(s: State, k: Id, env: Config, storeUp: bool): (State, bool) {
    if (k in s.instances && !s.instances[k].persistable) || !storeUp then (s, false)
    else
      var id := if k in s.instances then s.instances[k].id else k;
      (s.(store := s.store[id := RecordOf(s.store, id).(env := env)]), true)
  }

  // ---- Executions --------------------------------------------------------

  function Attempted(s: State, k: Id): State {
    s.(running := s.running + {k}, inFlight := s.inFlight + multiset{k})
  }

  /** An execution of an enabled instance reaches its worker. */
  function Begun(s: State, k: Id): State {
    if k !in s.instances || !s.instances[k].enabled then s else Attempted(s, k)
  }

  /** A retry reaches the worker of an instance whether or not it is enabled by then. */
  function Retried(s: State, k: Id): State {
    if k !in s.instances then s else Attempted(s, k)
  }

  /** The deferred hook goes to the instance, or to the capability's canonical worker. */
  function HookTarget(s: State, k: Id): Option<Proxy> {
    if k in s.instances then Some(s.instances[k].proxy)
    else if k in s.capabilities && s.capabilities[k] in s.metas then s.metas[s.capabilities[k]].instance
    else None
  }

  function HookFired(s: State, k: Id): State {
    if k !in s.deferred then s
    else
      var t := s.(deferred := s.deferred - {k});
      match HookTarget(s, k)
      case None => t
      case Some(p) => t.(signals := s.signals + [OnDisable(p, k in s.instances && s.instances[k].enabled)])
  }

  function Ended(s: State, k: Id): State {
    if k !in s.inFlight then s
    else HookFired(s.(running := s.running - {k}, inFlight := s.inFlight - multiset{k}), k)
  }

  // ---- Runs --------------------------------------------------------------

  datatype Op =
    | Load(meta: MetaRef, request: LoadRequest, load: LoadWorld)
    | Unload(id: Id, cleans: bool)
    | Reload(id: Id, config: Option<Config>, reload: ReloadWorld)
    | Enable(id: Id, persist: PersistWorld)
    | Disable(id: Id, persist: PersistWorld)
    | Update(id: Id, changes: Config, update: UpdateWorld)
    | Override(id: Id, env: Config, storeUp: bool)
    | Begin(id: Id)
    | Attempt(id: Id)
    | End(id: Id)

  function Step(s: State, op: Op): State {
    match op
    case Load(m, q, w) => if m in s.metas then Loaded(s, m, q, w).0 else s
    case Unload(k, cleans) => Unloaded(s, k, cleans).0
    case Reload(k, config, w) => Reloaded(s, k, config, w).0
    case Enable(k, w) => EnabledAgain(s, k, w)
    case Disable(k, w) => Disabled(s, k, w)
    case Update(k, config, w) => Updated(s, k, config, w).0
    case Override(k, env, storeUp) => Overridden(s, k, env, storeUp).0
    case Begin(k) => Begun(s, k)
    case Attempt(k) => Retried(s, k)
    case End(k) => Ended(s, k)
  }

  function After(s: State, ops: seq<Op>): State {
    if ops == [] then s else Step(After(s, ops[..|ops| - 1]), ops[|ops| - 1])
  }

  /** A manager that has loaded nothing yet, over the given store. */
  function Fresh(metas: map<MetaRef, Meta>, store: map<Id, Record>): State {
    State(map[], map[], metas, {}, {}, store, 0, {}, multiset{}, [])
  }
}
