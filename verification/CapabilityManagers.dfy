/** The capability manager, method by method, against the registry operations. */
module CapabilityManagers {
  import opened Results
  import opened Registry
  import opened RegistryInvariants
  import opened RegistryOutcomes
  import opened InstanceState
  import CompositionRuns
  import Evictions
  import Graphs

  // ---- Executing with retries: the vocabulary ----------------------------

  datatype CallOutcome = Value(value: int) | Resource | Other

  datatype ExecuteReply =
    | NotLoaded | DisabledError | Blocked | Answer(value: int) | ResourceFailure | OtherFailure | NoAnswer

  /** What a manager does while it executes: operations on the registry and calls to workers. */
  datatype Event = Did(op: Op) | Called(id: Id, outcome: CallOutcome)

  /** Outside answers during one attempt: whether the scheduler admits it, what the worker says,
      and for the attempt after a resource error what the eviction and the reload meet. */
  datatype AttemptWorld = AttemptWorld(admits: bool, outcome: CallOutcome, gpu: Evictions.Gpu, peak: real,
                                       succeeded: bool, available: real, reported: real, reloads: Id -> ReloadWorld)

  function Ops(events: seq<Event>): seq<Op> {
    if events == [] then []
    else
      var last := events[|events| - 1];
      Ops(events[..|events| - 1]) + if last.Did? then [last.op] else []
  }

  lemma {:induction false} OpsConcat(a: seq<Event>, b: seq<Event>)
    ensures Ops(a + b) == Ops(a) + Ops(b)
  {
    if b == [] {
      assert a + b == a;
    } else {
      assert (a + b)[..|a + b| - 1] == a + b[..|b| - 1];
      OpsConcat(a, b[..|b| - 1]);
    }
  }

  lemma {:induction false} AfterConcat(s: State, a: seq<Op>, b: seq<Op>)
    ensures After(s, a + b) == After(After(s, a), b)
  {
    if b == [] {
      assert a + b == a;
    } else {
      assert (a + b)[..|a + b| - 1] == a + b[..|b| - 1];
      AfterConcat(s, a, b[..|b| - 1]);
    }
  }

  /** From s, these events lead to t. */
  ghost predicate Leads(s: State, events: seq<Event>, t: State) {
    After(s, Ops(events)) == t
  }

  lemma LeadsOn(s: State, a: seq<Event>, t: State, b: seq<Event>, u: State)
    requires Leads(s, a, t) && Leads(t, b, u)
    ensures Leads(s, a + b, u)
  {
    OpsConcat(a, b);
    AfterConcat(s, Ops(a), Ops(b));
  }

  lemma LeadsOnce(s: State, op: Op)
    ensures Leads(s, [Did(op)], Step(s, op))
  {
    assert [Did(op)][..0] == [] && Ops([Did(op)]) == [op] && [op][..0] == [];
    assert After(s, [op]) == Step(After(s, []), op);
  }

  lemma LeadsNowhere(s: State, k: Id, outcome: CallOutcome)
    ensures Leads(s, [], s) && Leads(s, [Called(k, outcome)], s)
  {
    assert [Called(k, outcome)][..0] == [];
    assert Ops([Called(k, outcome)]) == [];
  }

  // ---- What an execution's events look like ------------------------------

  /** The instances chosen to make room, and then the needy instance k itself, are reloaded with
      the configs they have. */
  function RoomEvents(s: State, k: Id, chosen: seq<Id>, reloads: Id -> ReloadWorld): seq<Event>
    requires k in s.instances
  {
    ReloadEvents(s, chosen, reloads) + [Did(Reload(k, Some(s.instances[k].config), reloads(k)))]
  }

  /** In the state s room is made for k: those are evicted that the needy instance requires. */
  ghost predicate IsRoom(s: State, k: Id, w: AttemptWorld, room: seq<Event>) {
    && k in s.instances
    && exists chosen :: MakesRoom(s.instances, s.running + {k}, w, chosen) && room == RoomEvents(s, k, chosen, w.reloads)
  }

  /** Before its first attempt an execution makes no room; before every other it makes the room
      that is called for in the state that the attempts so far have led to. */
  ghost predicate AreRooms(start: State, k: Id, worlds: seq<AttemptWorld>, rooms: seq<seq<Event>>) {
    |rooms| <= |worlds| && forall i | 0 <= i < |rooms| :: RoomAt(start, k, worlds, rooms, i)
  }

  ghost predicate RoomAt(start: State, k: Id, worlds: seq<AttemptWorld>, rooms: seq<seq<Event>>, i: nat)
    requires i < |rooms| <= |worlds|
  {
    if i == 0 then rooms[i] == []
    else IsRoom(After(start, Ops(Tried(k, worlds, rooms, i))), k, worlds[i], rooms[i])
  }

  /** A call to the worker, marked as running before and as finished after. */
  function CallEvents(k: Id, outcome: CallOutcome): seq<Event> {
    [Did(Attempt(k)), Called(k, outcome), Did(End(k))]
  }

  /** The first n attempts. */
  function Tried(k: Id, worlds: seq<AttemptWorld>, rooms: seq<seq<Event>>, n: nat): seq<Event>
    requires n <= |worlds| && n <= |rooms|
  {
    if n == 0 then []
    else Tried(k, worlds, rooms, n - 1) + rooms[n - 1] + CallEvents(k, worlds[n - 1].outcome)
  }

  lemma {:induction false} TriedPrefix(k: Id, worlds: seq<AttemptWorld>, rooms: seq<seq<Event>>, room: seq<Event>, n: nat)
    requires n <= |worlds| && n <= |rooms|
    ensures Tried(k, worlds, rooms + [room], n) == Tried(k, worlds, rooms, n)
  {
    if n > 0 { TriedPrefix(k, worlds, rooms, room, n - 1); }
  }

  /** What an execution has done after these attempts, of which the last may not have come to its call. */
  function Done(k: Id, worlds: seq<AttemptWorld>, rooms: seq<seq<Event>>, calls: nat): seq<Event>
    requires calls <= |worlds| && calls <= |rooms|
  {
    if |rooms| > calls then Tried(k, worlds, rooms, calls) + rooms[calls] else Tried(k, worlds, rooms, calls)
  }

  /** The events grew by `done`, and the state followed them. */
  ghost predicate Logged(log: seq<Event>, s: State, done: seq<Event>, now: seq<Event>, t: State) {
    now == log + done && Leads(s, done, t)
  }

  /** After these rooms and calls, the execution has made the rooms that were called for, the events
      tell just what it did, and the state is what these operations make of the one it started in. */
  ghost predicate Follows(log: seq<Event>, start: State, k: Id, worlds: seq<AttemptWorld>, rooms: seq<seq<Event>>,
                          calls: nat, now: seq<Event>, t: State) {
    && calls <= |worlds| && calls <= |rooms| <= calls + 1
    && AreRooms(start, k, worlds, rooms) && Logged(log, start, Done(k, worlds, rooms, calls), now, t)
  }

  lemma FollowsNothing(log: seq<Event>, s: State, k: Id, worlds: seq<AttemptWorld>)
    ensures Follows(log, s, k, worlds, [], 0, log, s)
  {
    LeadsNowhere(s, k, Other);
  }

  lemma LoggedOn(log: seq<Event>, s: State, a: seq<Event>, mid: seq<Event>, t: State, b: seq<Event>,
                 now: seq<Event>, u: State)
    requires Logged(log, s, a, mid, t) && Logged(mid, t, b, now, u)
    ensures Logged(log, s, a + b, now, u)
  {
    LeadsOn(s, a, t, b, u);
    Associates(log, a, b);
  }

  lemma LoggedOnce(log: seq<Event>, s: State, a: seq<Event>, mid: seq<Event>, t: State, op: Op)
    requires Logged(log, s, a, mid, t)
    ensures Logged(log, s, a + [Did(op)], mid + [Did(op)], Step(t, op))
  {
    LeadsOnce(t, op);
    LoggedOn(log, s, a, mid, t, [Did(op)], mid + [Did(op)], Step(t, op));
  }

  lemma Associates(a: seq<Event>, b: seq<Event>, c: seq<Event>)
    ensures a + b + c == a + (b + c)
  {
  }

  /** The first n calls all ran out of resources. */
  predicate OutOfResource(worlds: seq<AttemptWorld>, n: nat) {
    n <= |worlds| && forall i | 0 <= i < n :: worlds[i].outcome.Resource?
  }

  /** A call's answer, or the exception that it ends in. */
  function ReplyTo(outcome: CallOutcome): ExecuteReply {
    match outcome
    case Value(v) => Answer(v)
    case Resource => ResourceFailure
    case Other => OtherFailure
  }

  /** What the reply has to do with the calls: at most maxRetries + 1, every one but the last out
      of resources, the last one giving the reply unless a retry gave up before its call. */
  predicate Explains(worlds: seq<AttemptWorld>, maxRetries: int, reply: ExecuteReply, attempts: nat, calls: nat) {
    && calls <= attempts <= |worlds| && (if maxRetries < 0 then attempts == 0 else attempts <= maxRetries + 1)
    && (forall i | 0 <= i < calls - 1 :: worlds[i].outcome.Resource?)
    && match reply
       case Answer(_) => attempts == calls > 0 && reply == ReplyTo(worlds[calls - 1].outcome)
       case OtherFailure => attempts == calls > 0 && reply == ReplyTo(worlds[calls - 1].outcome)
       case ResourceFailure =>
         calls > 0 && reply == ReplyTo(worlds[calls - 1].outcome) && (attempts == calls ==> calls == maxRetries + 1)
       case Blocked => attempts == calls + 1 && OutOfResource(worlds, calls) && !worlds[calls].admits
       case NoAnswer => maxRetries < 0
       case _ => false
  }

  // ---- Evicting by reloading ---------------------------------------------

  function KeptConfig(s: State, k: Id): Option<Config> {
    if k in s.instances && s.instances[k].config != map[] then Some(s.instances[k].config) else None
  }

  /** The chosen residents are reloaded one after the other, each with the config it had at the start. */
  function ReloadEvents(start: State, chosen: seq<Id>, reloads: Id -> ReloadWorld): seq<Event> {
    seq(|chosen|, i requires 0 <= i < |chosen| => Did(Reload(chosen[i], KeptConfig(start, chosen[i]), reloads(chosen[i]))))
  }

  lemma ReloadEventsSnoc(start: State, chosen: seq<Id>, reloads: Id -> ReloadWorld, k: Id)
    ensures ReloadEvents(start, chosen + [k], reloads)
            == ReloadEvents(start, chosen, reloads) + [Did(Reload(k, KeptConfig(start, k), reloads(k)))]
  {
  }

  lemma UnloadLeavesOthers(s: State, k: Id, cleans: bool, j: Id)
    requires Listed(s) && j != k && j in s.instances
    ensures var t := Unloaded(s, k, cleans).0;
            j in t.instances && t.instances[j] == s.instances[j] && t.inFlight == s.inFlight && t.running <= s.running
  {
  }

  lemma LoadLeavesOthers(s: State, m: MetaRef, q: LoadRequest, w: LoadWorld, j: Id)
    requires m in s.metas && j in s.instances
    ensures var t := Loaded(s, m, q, w).0;
            j in t.instances && t.instances[j] == s.instances[j] && t.inFlight == s.inFlight && t.running == s.running
  {
    var inst, found := LoadForm(s, m, q, w);
  }

  lemma ReloadLeavesOthers(s: State, k: Id, config: Option<Config>, w: ReloadWorld, j: Id)
    requires Sound(s) && j != k && j in s.instances
    ensures var t := Reloaded(s, k, config, w).0;
            j in t.instances && t.instances[j] == s.instances[j] && t.inFlight == s.inFlight && t.running <= s.running
  {
    if ReloadReaches(s, k, config, w) {
      ReloadUnfolds(s, k, config, w);
      UnloadLeavesOthers(s, k, w.cleans, j);
      UnloadKeepsSound(s, k, w.cleans);
      LoadLeavesOthers(Unloaded(s, k, w.cleans).0,
                       s.capabilities[s.instances[k].capability], ReloadRequest(config, w, k), w.load, j);
    }
  }

  /** Reloading the chosen leaves every other instance as it was. */
  lemma {:induction false} EvictionsLeaveOthers(s: State, start: State, chosen: seq<Id>, reloads: Id -> ReloadWorld, j: Id)
    requires Sound(s) && j in s.instances && j !in chosen
    ensures var t := After(s, Ops(ReloadEvents(start, chosen, reloads)));
            && Sound(t) && j in t.instances && t.instances[j] == s.instances[j]
            && t.inFlight == s.inFlight && t.running <= s.running
  {
    if chosen != [] {
      var k := chosen[|chosen| - 1];
      var front := chosen[..|chosen| - 1];
      assert chosen == front + [k];
      EvictionsLeaveOthers(s, start, front, reloads, j);
      var t := After(s, Ops(ReloadEvents(start, front, reloads)));
      var op := Reload(k, KeptConfig(start, k), reloads(k));
      ReloadEventsSnoc(start, front, reloads, k);
      LeadsOnce(t, op);
      LeadsOn(s, ReloadEvents(start, front, reloads), t, [Did(op)], Step(t, op));
      ReloadKeepsSound(t, k, KeptConfig(start, k), reloads(k));
      ReloadLeavesOthers(t, k, KeptConfig(start, k), reloads(k), j);
    }
  }

  /** The state before the i-th of the chosen is reloaded. */
  ghost function BeforeReload(start: State, chosen: seq<Id>, reloads: Id -> ReloadWorld, i: nat): State
    requires i <= |chosen|
  {
    After(start, Ops(ReloadEvents(start, chosen[..i], reloads)))
  }

  lemma ReloadsOnce(start: State, chosen: seq<Id>, reloads: Id -> ReloadWorld, i: nat)
    requires i < |chosen|
    ensures BeforeReload(start, chosen, reloads, i + 1) ==
            Reloaded(BeforeReload(start, chosen, reloads, i), chosen[i], KeptConfig(start, chosen[i]), reloads(chosen[i])).0
  {
    var log: seq<Event> := [];
    OneMoreReload(log, start, chosen, reloads, i, ReloadEvents(start, chosen[..i], reloads),
                  BeforeReload(start, chosen, reloads, i));
  }

  /** Each of the chosen is as it was when its turn comes, and if its worker is restarted it gets
      its own config back. */
  lemma EvictedKeepTheirConfig(start: State, chosen: seq<Id>, reloads: Id -> ReloadWorld, i: nat)
    requires Sound(start) && Graphs.Distinct(chosen) && i < |chosen| && chosen[i] in start.instances
    requires start.instances[chosen[i]].config != map[]
    ensures var k := chosen[i]; var before := BeforeReload(start, chosen, reloads, i);
            var after := BeforeReload(start, chosen, reloads, i + 1);
            && k in before.instances && before.instances[k] == start.instances[k]
            && (k in after.instances && after.instances[k].proxy != start.instances[k].proxy ==>
                  reloads(k).load.validates(start.instances[k].config) == Some(after.instances[k].config))
  {
    var k := chosen[i];
    var before := BeforeReload(start, chosen, reloads, i);
    assert k !in chosen[..i];
    EvictionsLeaveOthers(start, start, chosen[..i], reloads, k);
    ReloadsOnce(start, chosen, reloads, i);
    ReloadKeepsOwnConfig(before, k, start.instances[k].config, reloads(k));
  }

  lemma ReloadKeepsOwnConfig(s: State, k: Id, config: Config, w: ReloadWorld)
    requires Sound(s) && k in s.instances && config != map[]
    ensures var t := Reloaded(s, k, Some(config), w).0;
            k in t.instances && t.instances[k].proxy != s.instances[k].proxy ==>
              w.load.validates(config) == Some(t.instances[k].config)
  {
    if ReloadReaches(s, k, Some(config), w) {
      ReloadEnds(s, k, Some(config), w);
      if Restarts(s, k, Some(config), w) { ReloadStartsAs(s, k, Some(config), w); }
    }
  }

  lemma NothingReloaded(log: seq<Event>, start: State, chosen: seq<Id>, reloads: Id -> ReloadWorld)
    ensures Logged(log, start, ReloadEvents(start, chosen[..0], reloads), log, start)
  {
    LeadsNowhere(start, "", Other);
    assert ReloadEvents(start, chosen[..0], reloads) == [];
  }

  lemma OneMoreReload(log: seq<Event>, start: State, chosen: seq<Id>, reloads: Id -> ReloadWorld, i: nat,
                      mid: seq<Event>, before: State)
    requires i < |chosen| && Logged(log, start, ReloadEvents(start, chosen[..i], reloads), mid, before)
    ensures var op := Reload(chosen[i], KeptConfig(start, chosen[i]), reloads(chosen[i]));
            Logged(log, start, ReloadEvents(start, chosen[..i + 1], reloads), mid + [Did(op)], Step(before, op))
  {
    LoggedOnce(log, start, ReloadEvents(start, chosen[..i], reloads), mid, before,
               Reload(chosen[i], KeptConfig(start, chosen[i]), reloads(chosen[i])));
    ReloadEventsNext(start, chosen, reloads, i);
  }

  lemma ReloadEventsNext(start: State, chosen: seq<Id>, reloads: Id -> ReloadWorld, i: nat)
    requires i < |chosen|
    ensures ReloadEvents(start, chosen[..i + 1], reloads) ==
            ReloadEvents(start, chosen[..i], reloads)
            + [Did(Reload(chosen[i], KeptConfig(start, chosen[i]), reloads(chosen[i])))]
  {
    assert chosen[..i + 1] == chosen[..i] + [chosen[i]];
    ReloadEventsSnoc(start, chosen[..i], reloads, chosen[i]);
  }

  /** After the chosen, the needy instance: its config is still the one it started with. */
  lemma RoomMade(log: seq<Event>, start: State, k: Id, w: AttemptWorld, chosen: seq<Id>, mid: seq<Event>, before: State)
    requires Sound(start) && k in start.instances && MakesRoom(start.instances, start.running + {k}, w, chosen)
    requires Logged(log, start, ReloadEvents(start, chosen, w.reloads), mid, before)
    ensures k in before.instances
    ensures var op := Reload(k, Some(before.instances[k].config), w.reloads(k));
            var after := Step(before, op); var room := RoomEvents(start, k, chosen, w.reloads);
            && IsRoom(start, k, w, room) && Logged(log, start, room, mid + [Did(op)], after) && Sound(after)
            && after.inFlight == start.inFlight && after.running <= start.running
  {
    EvictionsLeaveOthers(start, start, chosen, w.reloads, k);
    var config := Some(before.instances[k].config);
    LoggedOnce(log, start, ReloadEvents(start, chosen, w.reloads), mid, before, Reload(k, config, w.reloads(k)));
    ReloadKeepsSound(before, k, config, w.reloads(k));
    ReloadKeepsFlights(before, k, config, w.reloads(k));
  }

  /** An attempt's events: the room it makes, and its call if it comes to one. */
  function AttemptEvents(k: Id, room: seq<Event>, outcome: Option<CallOutcome>): seq<Event> {
    if outcome.Some? then room + CallEvents(k, outcome.value) else room
  }

  lemma CallLeads(s: State, k: Id, outcome: CallOutcome)
    requires k in s.instances
    ensures Leads(s, CallEvents(k, outcome), Ended(Attempted(s, k), k))
  {
    var t := Attempted(s, k);
    LeadsOnce(s, Attempt(k));
    LeadsNowhere(t, k, outcome);
    LeadsOn(s, [Did(Attempt(k))], t, [Called(k, outcome)], t);
    LeadsOnce(t, End(k));
    LeadsOn(s, [Did(Attempt(k))] + [Called(k, outcome)], t, [Did(End(k))], Ended(t, k));
    assert CallEvents(k, outcome) == [Did(Attempt(k))] + [Called(k, outcome)] + [Did(End(k))];
  }

  lemma RoomsGrow(start: State, k: Id, worlds: seq<AttemptWorld>, rooms: seq<seq<Event>>, room: seq<Event>)
    requires AreRooms(start, k, worlds, rooms) && |rooms| < |worlds|
    requires if rooms == [] then room == []
             else IsRoom(After(start, Ops(Tried(k, worlds, rooms, |rooms|))), k, worlds[|rooms|], room)
    ensures AreRooms(start, k, worlds, rooms + [room])
  {
    var all := rooms + [room];
    forall i | 0 <= i < |all|
      ensures RoomAt(start, k, worlds, all, i)
    {
      if i < |rooms| { RoomStays(start, k, worlds, rooms, room, i); } else { TriedPrefix(k, worlds, rooms, room, i); }
    }
  }

  lemma RoomStays(start: State, k: Id, worlds: seq<AttemptWorld>, rooms: seq<seq<Event>>, room: seq<Event>, i: nat)
    requires i < |rooms| < |worlds| && RoomAt(start, k, worlds, rooms, i)
    ensures RoomAt(start, k, worlds, rooms + [room], i)
  {
    TriedPrefix(k, worlds, rooms, room, i);
  }

  lemma GaveUp(worlds: seq<AttemptWorld>, maxRetries: int, reply: ExecuteReply, calls: nat)
    requires OutOfResource(worlds, calls) && calls <= maxRetries < |worlds|
    requires if reply.Blocked? then !worlds[calls].admits else calls > 0 && reply.ResourceFailure?
    ensures Explains(worlds, maxRetries, reply, calls + 1, calls)
  {
  }

  lemma Concluded(worlds: seq<AttemptWorld>, maxRetries: int, reply: ExecuteReply, calls: nat)
    requires 1 <= calls <= |worlds| && OutOfResource(worlds, calls - 1) && calls <= maxRetries + 1
    requires reply == ReplyTo(worlds[calls - 1].outcome)
    requires worlds[calls - 1].outcome.Resource? ==> calls == maxRetries + 1
    ensures Explains(worlds, maxRetries, reply, calls, calls)
  {
  }

  /** One more attempt, which came to a call or not. */
  lemma OneMoreRoom(k: Id, worlds: seq<AttemptWorld>, rooms: seq<seq<Event>>, room: seq<Event>, n: nat,
                    outcome: Option<CallOutcome>)
    requires n == |rooms| < |worlds| && (outcome.Some? ==> outcome.value == worlds[n].outcome)
    ensures var all := rooms + [room]; var done := Tried(k, worlds, rooms, n) + AttemptEvents(k, room, outcome);
            if outcome.Some? then Tried(k, worlds, all, n + 1) == done else Done(k, worlds, all, n) == done
  {
    var all := rooms + [room];
    TriedPrefix(k, worlds, rooms, room, n);
    assert all[n] == room;
    if outcome.Some? {
      assert Tried(k, worlds, rooms, n) + room + CallEvents(k, outcome.value)
             == Tried(k, worlds, rooms, n) + (room + CallEvents(k, outcome.value));
    }
  }

  lemma OneMoreLogged(k: Id, worlds: seq<AttemptWorld>, rooms: seq<seq<Event>>, room: seq<Event>, n: nat,
                      outcome: Option<CallOutcome>, log: seq<Event>, start: State, mid: seq<Event>, before: State,
                      now: seq<Event>, after: State)
    returns (all: seq<seq<Event>>)
    requires n == |rooms| < |worlds| && (outcome.Some? ==> outcome.value == worlds[n].outcome)
    requires Follows(log, start, k, worlds, rooms, n, mid, before)
    requires if rooms == [] then room == [] else IsRoom(before, k, worlds[n], room)
    requires Logged(mid, before, AttemptEvents(k, room, outcome), now, after)
    ensures |all| == n + 1 && Follows(log, start, k, worlds, all, if outcome.Some? then n + 1 else n, now, after)
  {
    all := rooms + [room];
    LoggedOn(log, start, Tried(k, worlds, rooms, n), mid, before, AttemptEvents(k, room, outcome), now, after);
    OneMoreRoom(k, worlds, rooms, room, n, outcome);
    RoomsGrow(start, k, worlds, rooms, room);
  }

  lemma AttemptPasses(s: State, k: Id)
    requires Sound(s) && k in s.instances
    ensures var t := Ended(Attempted(s, k), k);
            Sound(t) && t.inFlight == s.inFlight && k !in t.running && t.instances == s.instances
  {
    AttemptKeepsSound(s, k);
    StepKeepsSound(Attempted(s, k), End(k));
    AttemptUndone(s, k);
  }

  lemma AttemptUndone(s: State, k: Id)
    ensures var t := Ended(Attempted(s, k), k);
            t.inFlight == s.inFlight && k !in t.running && t.instances == s.instances
  {
    assert (s.inFlight + multiset{k}) - multiset{k} == s.inFlight;
  }

  lemma ReloadKeepsFlights(s: State, k: Id, config: Option<Config>, w: ReloadWorld)
    requires Sound(s)
    ensures Reloaded(s, k, config, w).0.inFlight == s.inFlight && Reloaded(s, k, config, w).0.running <= s.running
  {
    if ReloadReaches(s, k, config, w) {
      ReloadUnfolds(s, k, config, w);
      UnloadKeepsFlights(s, k, w.cleans);
      LoadKeepsFlights(Unloaded(s, k, w.cleans).0,
                       s.capabilities[s.instances[k].capability], ReloadRequest(config, w, k), w.load);
    }
  }

  lemma UnloadKeepsFlights(s: State, k: Id, cleans: bool)
    requires Listed(s)
    ensures var t := Unloaded(s, k, cleans).0;
            t.inFlight == s.inFlight && t.running <= s.running && t.metas.Keys == s.metas.Keys
  {
  }

  lemma LoadKeepsFlights(s: State, m: MetaRef, q: LoadRequest, w: LoadWorld)
    requires m in s.metas
    ensures Loaded(s, m, q, w).0.inFlight == s.inFlight && Loaded(s, m, q, w).0.running == s.running
  {
    var inst, found := LoadForm(s, m, q, w);
  }

  /** The freed memory makes room for the needy peak with its margin and covers the shortfall. */
  predicate Covers(w: AttemptWorld, freed: real) {
    w.available + freed >= Evictions.MARGIN * w.peak && freed >= w.reported && freed >= 1.0
  }

  /** The needy instance's peak is known from a run that succeeded. */
  predicate Profiled(w: AttemptWorld) { w.succeeded && w.peak > 0.0 }

  /** What is evicted to make room: eligible instances, each once and the largest first. All of
      them go when the needy peak is not known; otherwise enough to cover it if all together
      can, and never more than needed. */
  ghost predicate MakesRoom(instances: map<Id, Instance>, spared: set<Id>, w: AttemptWorld, chosen: seq<Id>) {
    && Graphs.Distinct(chosen) && AreEligible(instances, spared, w.gpu, chosen)
    && LargestTaken(instances, spared, w.gpu, chosen)
    && (AllChosen(instances, spared, w.gpu, chosen)
        || (Profiled(w) && Covers(w, Evictions.Total(Evictions.Residents(chosen, w.gpu)))))
    && (Profiled(w) ==> NoFewerCover(instances, spared, w, |chosen|))
  }

  /** The chosen come by falling footprint, and no eligible instance left out has a larger one. */
  ghost predicate LargestTaken(instances: map<Id, Instance>, spared: set<Id>, gpu: Evictions.Gpu, chosen: seq<Id>) {
    && Evictions.LargestFirst(Evictions.Residents(chosen, gpu))
    && forall id, taken | id in instances && Evictions.Eligible(spared, gpu, id) && id !in chosen && taken in chosen ::
         Evictions.Footprint(gpu.live(id), gpu.peak(id)) <= Evictions.Footprint(gpu.live(taken), gpu.peak(taken))
  }

  /** The candidates, in whatever order, are the eligible loaded instances with their footprints. */
  ghost predicate AreCandidates(instances: map<Id, Instance>, spared: set<Id>, gpu: Evictions.Gpu,
                                rs: seq<Evictions.Resident>) {
    && Evictions.DistinctIds(rs)
    && forall r :: r in rs <==> (&& r.id in instances && Evictions.Eligible(spared, gpu, r.id)
                                 && r.footprint == Evictions.Footprint(gpu.live(r.id), gpu.peak(r.id)))
  }

  ghost predicate AreEligible(instances: map<Id, Instance>, spared: set<Id>, gpu: Evictions.Gpu, ids: seq<Id>) {
    forall id | id in ids :: id in instances && Evictions.Eligible(spared, gpu, id)
  }

  ghost predicate AllChosen(instances: map<Id, Instance>, spared: set<Id>, gpu: Evictions.Gpu, ids: seq<Id>) {
    forall id | id in instances && Evictions.Eligible(spared, gpu, id) :: id in ids
  }

  /** No fewer eligible instances would free enough. */
  ghost predicate NoFewerCover(instances: map<Id, Instance>, spared: set<Id>, w: AttemptWorld, n: nat) {
    forall other: seq<Id> | Graphs.Distinct(other) && AreEligible(instances, spared, w.gpu, other) && |other| < n ::
      !Covers(w, Evictions.Total(Evictions.Residents(other, w.gpu)))
  }

  lemma NoFewerThanChosen(instances: map<Id, Instance>, spared: set<Id>, w: AttemptWorld,
                          candidates: seq<Evictions.Resident>, n: nat)
    requires AreCandidates(instances, spared, w.gpu, candidates)
    requires forall other: seq<Evictions.Resident> | multiset(other) <= multiset(candidates) && |other| < n ::
               !Covers(w, Evictions.Total(other))
    ensures NoFewerCover(instances, spared, w, n)
  {
    forall other: seq<Id> | Graphs.Distinct(other) && AreEligible(instances, spared, w.gpu, other) && |other| < n
      ensures !Covers(w, Evictions.Total(Evictions.Residents(other, w.gpu)))
    {
      OthersAreCandidates(instances, spared, w.gpu, candidates, other);
    }
  }

  lemma SortedCandidates(instances: map<Id, Instance>, spared: set<Id>, gpu: Evictions.Gpu,
                         candidates: seq<Evictions.Resident>, sorted: seq<Evictions.Resident>)
    requires AreCandidates(instances, spared, gpu, candidates) && multiset(sorted) == multiset(candidates)
    ensures AreCandidates(instances, spared, gpu, sorted)
  {
    Evictions.StaysDistinct(candidates, sorted);
    forall r
      ensures r in sorted <==> r in candidates
    {
      assert r in sorted <==> r in multiset(sorted);
      assert r in candidates <==> r in multiset(candidates);
    }
  }

  function IdsOf(rs: seq<Evictions.Resident>): (ids: seq<Id>)
    ensures |ids| == |rs| && forall i | 0 <= i < |rs| :: ids[i] == rs[i].id
  {
    seq(|rs|, i requires 0 <= i < |rs| => rs[i].id)
  }

  /** A largest-first prefix of the candidates, read off its ids. */
  lemma PrefixReadsOff(instances: map<Id, Instance>, spared: set<Id>, gpu: Evictions.Gpu,
                       sorted: seq<Evictions.Resident>, n: nat)
    requires AreCandidates(instances, spared, gpu, sorted) && n <= |sorted|
    ensures var chosen := IdsOf(sorted[..n]);
            && Graphs.Distinct(chosen) && Evictions.Residents(chosen, gpu) == sorted[..n]
            && AreEligible(instances, spared, gpu, chosen) && (n == |sorted| ==> AllChosen(instances, spared, gpu, chosen))
  {
    var chosen := IdsOf(sorted[..n]);
    forall i | 0 <= i < n
      ensures Evictions.Residents(chosen, gpu)[i] == sorted[i]
    {
      assert sorted[i] in sorted;
    }
    forall id | id in chosen
      ensures id in instances && Evictions.Eligible(spared, gpu, id)
    {
      var i :| 0 <= i < n && chosen[i] == id;
      assert sorted[i] in sorted;
    }
    if n == |sorted| {
      forall id | id in instances && Evictions.Eligible(spared, gpu, id)
        ensures id in chosen
      {
        var r := Evictions.Resident(id, Evictions.Footprint(gpu.live(id), gpu.peak(id)));
        assert r in sorted;
        var i :| 0 <= i < |sorted| && sorted[i] == r;
        assert chosen[i] == id;
      }
    }
  }

  /** A largest-first prefix takes the largest. */
  lemma PrefixTakesLargest(instances: map<Id, Instance>, spared: set<Id>, gpu: Evictions.Gpu,
                           sorted: seq<Evictions.Resident>, n: nat)
    requires AreCandidates(instances, spared, gpu, sorted) && Evictions.LargestFirst(sorted) && n <= |sorted|
    requires Evictions.Residents(IdsOf(sorted[..n]), gpu) == sorted[..n]
    ensures LargestTaken(instances, spared, gpu, IdsOf(sorted[..n]))
  {
    var chosen := IdsOf(sorted[..n]);
    assert forall i | 0 <= i < n :: chosen[i] == sorted[i].id && chosen[i] in chosen;
    forall id, taken | id in instances && Evictions.Eligible(spared, gpu, id) && id !in chosen && taken in chosen
      ensures Evictions.Footprint(gpu.live(id), gpu.peak(id)) <= Evictions.Footprint(gpu.live(taken), gpu.peak(taken))
    {
      var r := Evictions.Resident(id, Evictions.Footprint(gpu.live(id), gpu.peak(id)));
      assert r in sorted;
      var i :| 0 <= i < |sorted| && sorted[i] == r;
      var j :| 0 <= j < n && chosen[j] == taken;
      assert Evictions.Residents(chosen, gpu)[j] == sorted[j];
    }
  }

  /** Any eligible instances, each once, are a choice among the candidates. */
  lemma OthersAreCandidates(instances: map<Id, Instance>, spared: set<Id>, gpu: Evictions.Gpu,
                            candidates: seq<Evictions.Resident>, other: seq<Id>)
    requires AreCandidates(instances, spared, gpu, candidates) && Graphs.Distinct(other)
    requires AreEligible(instances, spared, gpu, other)
    ensures multiset(Evictions.Residents(other, gpu)) <= multiset(candidates)
  {
    var rs := Evictions.Residents(other, gpu);
    forall r | r in rs
      ensures r in candidates
    {
      var i :| 0 <= i < |rs| && rs[i] == r;
      assert other[i] in other;
    }
    Evictions.DistinctWithin(rs, candidates);
  }

  lemma UnloadKeys(s: State, k: Id, cleans: bool)
    requires Listed(s)
    ensures Unloaded(s, k, cleans).0.instances == if cleans then s.instances - {k} else s.instances
  {
    if k in s.instances { UnloadLeaves(s, k); }
  }

  function Cleaned(ids: set<Id>, cleans: Id -> bool): set<Id> {
    set k | k in ids && cleans(k)
  }

  lemma CleanedOneMore(m: map<Id, Instance>, ids: set<Id>, todo: set<Id>, k: Id, cleans: Id -> bool)
    requires k in todo && todo <= ids
    ensures m - Cleaned(ids - (todo - {k}), cleans) ==
            if cleans(k) then (m - Cleaned(ids - todo, cleans)) - {k} else m - Cleaned(ids - todo, cleans)
  {
    assert ids - (todo - {k}) == (ids - todo) + {k};
  }

  /** The instances whose first cleanup raises. */
  function Stubborn(instances: map<Id, Instance>, cleans: Id -> bool): map<Id, Instance> {
    map k | k in instances && !cleans(k) :: instances[k]
  }

  /** Of these, the default instances of capabilities that still have an instance are tried again. */
  function LeftAfter(instances: map<Id, Instance>, first: Id -> bool, second: Id -> bool): set<Id> {
    var left := Stubborn(instances, first);
    left.Keys - Cleaned(NamesLoaded(left), second)
  }

  lemma LeftFirst(before: map<Id, Instance>, after: map<Id, Instance>, first: Id -> bool)
    requires after == before - Cleaned(before.Keys, first)
    ensures after == Stubborn(before, first)
  {
  }

  lemma NothingLoaded(s: State)
    requires Sound(s) && s.instances.Keys == {}
    ensures s.instances == map[] && s.capabilities == map[] && s.running == {} && s.deferred == {}
  {
    assert NamesLoaded(s.instances) == {};
  }

  lemma AttemptKeepsSound(s: State, k: Id)
    requires Sound(s) && k in s.instances
    ensures Sound(Attempted(s, k))
  {
    NotesKeepShape(s, s, Attempted(s, k));
    SameShapeKeepsSound(s, Attempted(s, k));
  }

  // ---- The manager -------------------------------------------------------

  class CapabilityManager {
    var instances: map<Id, Instance>
    var capabilities: map<Id, MetaRef>
    var metas: map<MetaRef, Meta>
    var running: set<Id>
    var deferred: set<Id>
    var store: map<Id, Record>
    var spawned: nat
    var workers: set<Proxy>
    var inFlight: multiset<Id>
    var signals: seq<Signal>

    /** What executions have done so far, in order. */
    ghost var events: seq<Event>

    ghost function View(): State
      reads this
    {
      State(instances, capabilities, metas, running, deferred, store, spawned, workers, inFlight, signals)
    }

    ghost predicate Valid()
      reads this
    {
      Sound(View())
    }

    constructor (discovered: map<MetaRef, Meta>, configs: map<Id, Record>)
      ensures View() == Fresh(discovered, configs) && events == []
    {
      instances, capabilities, metas, running, deferred := map[], map[], discovered, {}, {};
      store, spawned, workers, inFlight, signals := configs, 0, {}, multiset{}, [];
      events := [];
    }

    method GenerateInstanceId(name: Id, tokens: seq<string>) returns (id: Option<Id>)
      ensures id == FirstFree(instances.Keys, name, tokens)
    {
      for i := 0 to |tokens|
        invariant FirstFree(instances.Keys, name, tokens) == FirstFree(instances.Keys, name, tokens[i..])
      {
        var candidate := name + "-" + tokens[i];
        if candidate !in instances { return Some(candidate); }
      }
      return None;
    }

    method ResolveInstanceId(name: Id, q: LoadRequest, tokens: seq<string>) returns (id: Option<Id>)
      ensures id == ResolvedId(View(), name, q, tokens)
    {
      id := q.explicit;
      if id.None? {
        if q.auto { id := GenerateInstanceId(name, tokens); } else { id := Some(name); }
      } else if !ValidId(id.value) {
        id := None;
      }
    }

    method LoadCapability(m: MetaRef, q: LoadRequest, w: LoadWorld) returns (reply: Reply)
      requires m in metas
      modifies this`instances, this`capabilities, this`metas, this`spawned, this`workers
      ensures (View(), reply) == Loaded(old(View()), m, q, w)
    {
      var name := metas[m].name;
      var id := ResolveInstanceId(name, q, w.tokens);
      if id.None? { return Raised; }
      var k := id.value;
      if k in instances { return Returned(true); }
      var persistable := !(q.explicit.None? && q.auto);
      var persisted: Option<Record> := None;
      if persistable && w.storeUp && k in store { persisted := Some(store[k]); }
      if !w.launches { return Returned(false); }
      var proxy := spawned;
      spawned, workers := spawned + 1, workers + {proxy};
      var config := q.config;
      if config == map[] && persisted.Some? && persisted.value.config != map[] { config := persisted.value.config; }
      if config == map[] {
        config := w.defaults;
      } else {
        var validated := w.validates(config);
        if validated.None? { return Returned(false); }
        config := validated.value;
      }
      if !w.starts { return Returned(false); }
      var enabled := persisted.None? || persisted.value.enabled;
      var env := if persisted.Some? then persisted.value.env else map[];
      RecordInstance(m, Instance(k, name, config, config, proxy, enabled, env, q.limit, persistable), persisted);
      return Returned(w.journals);
    }

    /** The per-instance state, and for the default instance the capability-wide references. */
    method RecordInstance(m: MetaRef, inst: Instance, persisted: Option<Record>)
      requires m in metas && metas[m].name == inst.capability
      modifies this`instances, this`metas, this`capabilities
      ensures View() == Registered(old(View()), m, inst, persisted)
    {
      var name := inst.capability;
      if persisted.Some? && inst.id == name {
        metas := metas[m := metas[m].(enabled := inst.enabled)];
      }
      instances := instances[inst.id := inst];
      if inst.id == name {
        metas := metas[m := metas[m].(instance := Some(inst.proxy))];
        capabilities := capabilities[name := m];
        assert metas == old(metas)[m := metas[m]];
      } else if name !in capabilities {
        capabilities := capabilities[name := m];
      }
    }

    method UnloadCapability(k: Id, cleans: bool) returns (ok: bool)
      modifies this`instances, this`capabilities, this`metas, this`running, this`deferred, this`workers
      ensures (View(), ok) == Unloaded(old(View()), k, cleans)
    {
      if k !in instances { return false; }
      if !cleans { return false; }
      var inst := instances[k];
      var name := inst.capability;
      workers := workers - {inst.proxy};
      instances := instances - {inst.id};
      deferred := deferred - {inst.id};
      running := running - {inst.id};
      deferred := deferred - {name};
      running := running - {name};
      assert running == old(running) - {inst.id, name} && deferred == old(deferred) - {inst.id, name};
      assert View() == old(View()).(instances := instances, workers := workers, running := running, deferred := deferred);
      if !HasInstances(instances, name) {
        capabilities := capabilities - {name};
      } else if inst.id == name && name in capabilities && capabilities[name] in metas {
        var m := capabilities[name];
        metas := metas[m := metas[m].(instance := None)];
      }
      return true;
    }

    /** Unloads these, in any order. */
    method UnloadEach(ids: set<Id>, cleans: Id -> bool)
      requires Valid()
      modifies this
      ensures Valid() && instances == old(instances) - Cleaned(ids, cleans)
    {
      var todo := ids;
      assert old(instances) - Cleaned({}, cleans) == old(instances);
      while todo != {}
        invariant Valid() && todo <= ids && instances == old(instances) - Cleaned(ids - todo, cleans)
      {
        var k :| k in todo;
        ghost var before := View();
        var _ := UnloadCapability(k, cleans(k));
        UnloadKeepsSound(before, k, cleans(k));
        UnloadKeys(before, k, cleans(k));
        CleanedOneMore(old(instances), ids, todo, k, cleans);
        todo := todo - {k};
      }
      assert ids - todo == ids;
    }

    /** Unloads every instance, and then tries the listed capabilities' default instances again:
        `first` and `second` say whose cleanup succeeds. */
    method UnloadAll(first: Id -> bool, second: Id -> bool)
      requires Valid()
      modifies this
      ensures Valid() && instances.Keys == LeftAfter(old(instances), first, second)
      ensures (forall k :: first(k)) ==> instances == map[] && capabilities == map[] && running == {} && deferred == {}
    {
      UnloadEach(instances.Keys, first);
      LeftFirst(old(instances), instances, first);
      UnloadEach(capabilities.Keys, second);
      if forall k :: first(k) { NothingLoaded(View()); }
    }

    method ReloadCapability(k: Id, config: Option<Config>, w: ReloadWorld) returns (ok: bool)
      modifies this
      ensures (View(), ok) == Reloaded(old(View()), k, config, w)
      ensures events == old(events) + [Did(Reload(k, config, w))]
    {
      events := events + [Did(Reload(k, config, w))];
      if k !in instances { return false; }
      var inst := instances[k];
      if inst.capability !in capabilities || capabilities[inst.capability] !in metas { return false; }
      var m := capabilities[inst.capability];
      var effective := config;
      if effective.None? {
        if w.fetched.None? { return false; }
        effective := w.fetched;
      }
      var target := inst.id;
      var _ := UnloadCapability(target, w.cleans);
      var reply := LoadCapability(m, LoadRequest(effective.value, Some(target), false, None), w.load);
      return reply == Returned(true);
    }

    method PersistConfig(k: Id, w: PersistWorld)
      modifies this`store
      ensures View() == Persisted(old(View()), k, w)
    {
      if k !in instances || !instances[k].persistable { return; }
      var inst := instances[k];
      var current := inst.config;
      if w.live.Some? { current := w.live.value; }
      if w.storeUp {
        var env := if inst.id in store then store[inst.id].env else map[];
        store := store[inst.id := Record(current, inst.enabled, env)];
      }
    }

    /** What enabling and disabling share: the flag, its copy on the metadata, the record. */
    method SetEnabled(k: Id, on: bool, w: PersistWorld)
      requires k in instances && instances[k].id == k
      modifies this`instances, this`metas, this`store
      ensures View() == Persisted(Flagged(old(View()), k, on), k, w)
    {
      var inst := instances[k];
      instances := instances[k := inst.(enabled := on)];
      if inst.id == inst.capability && inst.capability in capabilities && capabilities[inst.capability] in metas {
        var m := capabilities[inst.capability];
        metas := metas[m := metas[m].(enabled := on)];
      }
      PersistConfig(inst.id, w);
    }

    method EnableCapability(k: Id, w: PersistWorld) returns (ok: bool)
      requires Valid()
      modifies this`instances, this`metas, this`store, this`signals
      ensures ok == (k in old(instances)) && View() == EnabledAgain(old(View()), k, w)
    {
      if k !in instances { return false; }
      var inst := instances[k];
      SetEnabled(k, true, w);
      if !inst.enabled { signals := signals + [OnEnable(inst.proxy)]; }
      return true;
    }

    method DisableCapability(k: Id, w: PersistWorld) returns (ok: bool)
      requires Valid()
      modifies this`instances, this`metas, this`store, this`signals, this`deferred
      ensures ok == (k in old(instances)) && View() == Disabled(old(View()), k, w)
    {
      if k !in instances { return false; }
      var inst := instances[k];
      SetEnabled(k, false, w);
      if inst.enabled {
        if inst.id in running {
          deferred := deferred + {inst.id};
        } else {
          signals := signals + [OnDisable(inst.proxy, false)];
        }
      }
      return true;
    }

    method UpdateCapabilityConfig(k: Id, config: Config, w: UpdateWorld) returns (reply: Reply)
      modifies this
      ensures (View(), reply) == Updated(old(View()), k, config, w)
    {
      if k !in instances { return Returned(false); }
      var validated := w.validates(config);
      if validated.None? { return Raised; }
      if !w.applies { return Returned(false); }
      instances := instances[k := instances[k].(config := validated.value, hashed := validated.value)];
      if !w.journals { return Returned(false); }
      PersistConfig(k, w.persist);
      return Returned(true);
    }

    method SetWorkerEnvOverride(k: Id, env: Config, storeUp: bool) returns (ok: bool)
      modifies this`store
      ensures (View(), ok) == Overridden(old(View()), k, env, storeUp)
    {
      if k in instances && !instances[k].persistable { return false; }
      var id := if k in instances then instances[k].id else k;
      if !storeUp { return false; }
      var record := if id in store then store[id] else Record(map[], true, map[]);
      store := store[id := record.(env := env)];
      return true;
    }

    method MaybeFireDisableHook(k: Id)
      modifies this`deferred, this`signals
      ensures View() == HookFired(old(View()), k)
    {
      if k !in deferred { return; }
      deferred := deferred - {k};
      var proxy: Option<Proxy> := None;
      if k in instances {
        proxy := Some(instances[k].proxy);
      } else if k in capabilities && capabilities[k] in metas {
        proxy := metas[capabilities[k]].instance;
      }
      if proxy.None? { return; }
      signals := signals + [OnDisable(proxy.value, k in instances && instances[k].enabled)];
    }

    method StartAttempt(k: Id)
      requires k in instances
      modifies this`running, this`inFlight, this`events
      ensures View() == Attempted(old(View()), k) && events == old(events) + [Did(Attempt(k))]
    {
      events := events + [Did(Attempt(k))];
      running := running + {k};
      inFlight := inFlight + multiset{k};
    }

    method FinishAttempt(k: Id)
      requires k in inFlight
      modifies this`running, this`inFlight, this`deferred, this`signals, this`events
      ensures View() == Ended(old(View()), k) && events == old(events) + [Did(End(k))]
    {
      running := running - {k};
      inFlight := inFlight - multiset{k};
      assert View() == old(View()).(running := running, inFlight := inFlight);
      MaybeFireDisableHook(k);
      events := events + [Did(End(k))];
    }

    // ---- Evicting and retrying ---------------------------------------------

    /** The idle GPU residents to reload for the instance k: all of them, or the fewest that make
        room for its peak with the margin and cover the reported shortfall. */
    method ChooseResidents(k: Id, w: AttemptWorld) returns (chosen: seq<Id>, freed: real)
      ensures freed == Evictions.Total(Evictions.Residents(chosen, w.gpu))
      ensures MakesRoom(instances, running + {k}, w, chosen)
    {
      var candidates := GpuCandidates(running + {k}, w.gpu);
      var sorted, evicted;
      sorted, freed, evicted := Evictions.ReactiveChoice(candidates, w.peak, w.succeeded, w.available, w.reported);
      SortedCandidates(instances, running + {k}, w.gpu, candidates, sorted);
      chosen := IdsOf(sorted[..evicted]);
      PrefixReadsOff(instances, running + {k}, w.gpu, sorted, evicted);
      PrefixTakesLargest(instances, running + {k}, w.gpu, sorted, evicted);
      if Profiled(w) {
        NoFewerThanChosen(instances, running + {k}, w, candidates, evicted);
      }
    }

    method GpuCandidates(spared: set<Id>, gpu: Evictions.Gpu) returns (candidates: seq<Evictions.Resident>)
      ensures AreCandidates(instances, spared, gpu, candidates)
    {
      var loaded := CompositionRuns.SetToSeq(instances.Keys);
      candidates := Evictions.Candidates(loaded, spared, gpu);
      assert forall id :: id in loaded <==> id in Graphs.Elements(loaded);
    }

    /** Each resident is reloaded with the config it had when it was chosen. */
    method ReloadResidents(chosen: seq<Id>, reloads: Id -> ReloadWorld)
      modifies this
      ensures Logged(old(events), old(View()), ReloadEvents(old(View()), chosen, reloads), events, View())
    {
      var captured := instances;
      ghost var log, start := events, View();
      NothingReloaded(log, start, chosen, reloads);
      for i := 0 to |chosen|
        invariant Logged(log, start, ReloadEvents(start, chosen[..i], reloads), events, View())
      {
        var id := chosen[i];
        var config := if id in captured && captured[id].config != map[] then Some(captured[id].config) else None;
        ghost var mid, before := events, View();
        var _ := ReloadCapability(id, config, reloads(id));
        OneMoreReload(log, start, chosen, reloads, i, mid, before);
      }
      assert chosen[..|chosen|] == chosen;
    }

    /** Between attempts: evict for the failing instance, then always reload it. */
    method MakeRoom(k: Id, w: AttemptWorld) returns (ghost room: seq<Event>)
      requires Valid() && k in instances
      modifies this
      ensures IsRoom(old(View()), k, w, room) && Logged(old(events), old(View()), room, events, View())
      ensures Valid() && inFlight == old(inFlight) && running <= old(running)
    {
      var chosen, _ := ChooseResidents(k, w);
      ghost var log, start := events, View();
      ReloadResidents(chosen, w.reloads);
      RoomMade(log, start, k, w, chosen, events, View());
      var config := instances[k].config;
      var _ := ReloadCapability(k, Some(config), w.reloads(k));
      room := RoomEvents(start, k, chosen, w.reloads);
    }

    /** Runs the instance, retrying after resource errors: each retry first evicts, then reloads.
        `calls` counts the calls to the worker, `rooms` holds what each attempt did before its call. */
    method Execute(k: Id, maxRetries: int, worlds: seq<AttemptWorld>)
      returns (reply: ExecuteReply, ghost rooms: seq<seq<Event>>, ghost calls: nat)
      requires Valid() && |worlds| > maxRetries
      modifies this
      ensures Valid() && inFlight == old(inFlight) && (calls > 0 ==> k !in running)
      ensures reply.NotLoaded? <==> k !in old(instances)
      ensures reply.DisabledError? <==> k in old(instances) && !old(instances)[k].enabled
      ensures reply.NotLoaded? || reply.DisabledError? ==> rooms == [] && calls == 0
      ensures !reply.NotLoaded? && !reply.DisabledError? ==> Explains(worlds, maxRetries, reply, |rooms|, calls)
      ensures Follows(old(events), old(View()), k, worlds, rooms, calls, events, View())
      ensures reply.ResourceFailure? && |rooms| > calls ==> k !in instances
    {
      rooms, calls := [], 0;
      FollowsNothing(events, View(), k, worlds);
      if k !in instances {
        reply := NotLoaded;
      } else if !instances[k].enabled {
        reply := DisabledError;
      } else {
        reply, rooms, calls := Attempts(k, maxRetries, worlds);
      }
    }

    /** The retry loop of an execution. */
    method Attempts(k: Id, maxRetries: int, worlds: seq<AttemptWorld>)
      returns (reply: ExecuteReply, ghost rooms: seq<seq<Event>>, ghost calls: nat)
      requires Valid() && |worlds| > maxRetries && k in instances
      modifies this
      ensures Valid() && inFlight == old(inFlight) && (calls > 0 ==> k !in running)
      ensures Explains(worlds, maxRetries, reply, |rooms|, calls)
      ensures Follows(old(events), old(View()), k, worlds, rooms, calls, events, View())
      ensures reply.ResourceFailure? && |rooms| > calls ==> k !in instances
    {
      reply, rooms, calls := NoAnswer, [], 0;
      ghost var start, log := View(), events;
      FollowsNothing(events, start, k, worlds);
      for attempt := 0 to if maxRetries < 0 then 0 else maxRetries + 1
        invariant maxRetries >= 0 ==> attempt <= maxRetries
        invariant Valid() && k in instances && inFlight == old(inFlight) && (calls > 0 ==> k !in running)
        invariant attempt == calls == |rooms| && OutOfResource(worlds, calls) && reply.NoAnswer?
        invariant Follows(log, start, k, worlds, rooms, calls, events, View())
      {
        var outcome;
        outcome, rooms := NextAttempt(k, worlds, rooms, attempt, log, start);
        if outcome.None? {
          reply := if k in instances then Blocked else ResourceFailure;
          GaveUp(worlds, maxRetries, reply, calls);
          break;
        }
        calls := calls + 1;
        if !outcome.value.Resource? || attempt == maxRetries {
          reply := ReplyTo(outcome.value);
          Concluded(worlds, maxRetries, reply, calls);
          break;
        }
      }
    }

    /** The next attempt, added to what the execution has done. */
    method NextAttempt(k: Id, worlds: seq<AttemptWorld>, ghost rooms: seq<seq<Event>>, attempt: nat,
                       ghost log: seq<Event>, ghost start: State)
      returns (outcome: Option<CallOutcome>, ghost all: seq<seq<Event>>)
      requires Valid() && k in instances && attempt == |rooms| < |worlds|
      requires Follows(log, start, k, worlds, rooms, attempt, events, View())
      modifies this
      ensures Valid() && inFlight == old(inFlight) && (outcome.None? ==> running <= old(running))
      ensures outcome.Some? ==> k in instances && k !in running && outcome.value == worlds[attempt].outcome
      ensures outcome.None? && k in instances ==> !worlds[attempt].admits
      ensures outcome.None? && k !in instances ==> attempt > 0
      ensures |all| == attempt + 1
      ensures Follows(log, start, k, worlds, all, if outcome.Some? then attempt + 1 else attempt, events, View())
    {
      ghost var before, mid := View(), events;
      ghost var room;
      outcome, room := TryOnce(k, worlds[attempt], attempt > 0);
      all := OneMoreLogged(k, worlds, rooms, room, attempt, outcome, log, start, mid, before, events, View());
    }

    /** One attempt, a retry with its eviction and reload first. None when there was no call:
        the reload lost the instance, or the scheduler did not admit it. */
    method TryOnce(k: Id, w: AttemptWorld, retry: bool) returns (outcome: Option<CallOutcome>, ghost room: seq<Event>)
      requires Valid() && k in instances
      modifies this
      ensures Valid() && inFlight == old(inFlight) && (outcome.None? ==> running <= old(running))
      ensures outcome.Some? ==> k in instances && k !in running && outcome.value == w.outcome
      ensures outcome.None? && k in instances ==> !w.admits
      ensures outcome.None? && k !in instances ==> retry
      ensures if retry then IsRoom(old(View()), k, w, room) else room == []
      ensures Logged(old(events), old(View()), AttemptEvents(k, room, outcome), events, View())
    {
      room := [];
      LeadsNowhere(View(), k, Other);
      if retry {
        room := MakeRoom(k, w);
        if k !in instances { return None, room; }
      }
      if !w.admits { return None, room; }
      ghost var before, mid := View(), events;
      var said := CallWorker(k, w);
      LoggedOn(old(events), old(View()), room, mid, before, CallEvents(k, said), events, View());
      return Some(said), room;
    }

    /** One call to the worker, counted as running around it. */
    method CallWorker(k: Id, w: AttemptWorld) returns (outcome: CallOutcome)
      requires Valid() && k in instances
      modifies this`running, this`inFlight, this`deferred, this`signals, this`events
      ensures Valid() && inFlight == old(inFlight) && k !in running && k in instances && outcome == w.outcome
      ensures Logged(old(events), old(View()), CallEvents(k, outcome), events, View())
    {
      StartAttempt(k);
      outcome := w.outcome;
      events := events + [Called(k, outcome)];
      FinishAttempt(k);
      AttemptPasses(old(View()), k);
      CallLeads(old(View()), k, outcome);
    }
  }
}
