/** Short runs of the registry that miss what its operations intend. */
module RegistryExamples {
  import opened Results
  import opened Registry
  import opened RegistryInvariants
  import opened RegistryOutcomes
  import opened ExecutionState
  import opened WorkerSignals

  const DISCOVERED: map<MetaRef, Meta> := map[0 := Meta("asr", None, true)]

  function Well(): LoadWorld { LoadWorld(["00beef"], true, true, c => Some(c), map[], true, true) }

  function Default(): LoadRequest { LoadRequest(map[], None, false, None) }

  function Named(): LoadRequest { LoadRequest(map[], Some("asr-b"), false, None) }

  function Up(): PersistWorld { PersistWorld(None, true) }

  lemma NamedIsValid()
    ensures ValidId("asr-b") && ValidId("asr") && "asr-b" != "asr"
  {
    assert "asr-b"[0] == 'a' && "asr-b"[1] == 's' && "asr-b"[2] == 'r' && "asr-b"[3] == '-' && "asr-b"[4] == 'b';
    assert |"asr-b"| != |"asr"|;
  }

  /** The default instance has just been loaded. */
  function OneLoaded(): State { Loaded(Fresh(DISCOVERED, map[]), 0, Default(), Well()).0 }

  lemma OneLoadedIs()
    ensures OneLoaded().instances == map["asr" := Instance("asr", "asr", map[], map[], 0, true, map[], None, true)]
    ensures OneLoaded().capabilities == map["asr" := 0] && OneLoaded().metas == map[0 := Meta("asr", Some(0), true)]
    ensures OneLoaded().workers == {0} && OneLoaded().spawned == 1
  {
  }

  /** Unloading the only instance and then loading a named one hands out the dead worker. */
  lemma DeadWorkerIsHandedOut()
    ensures var s := Loaded(Unloaded(OneLoaded(), "asr", true).0, 0, Named(), Well()).0;
            GetCapability(s, "asr") == Some(0) && 0 !in s.workers
  {
    OneLoadedIs();
    NamedIsValid();
    var t := Unloaded(OneLoaded(), "asr", true).0;
    assert t.instances == map[] && t.capabilities == map[] && t.workers == {};
  }

  /** A rejected configuration leaves a worker running that no instance owns. */
  lemma RejectedConfigOrphansItsWorker()
    ensures var q := LoadRequest(map["model" := "?"], None, false, None);
            var (s, reply) := Loaded(Fresh(DISCOVERED, map[]), 0, q, Well().(validates := c => None));
            s.workers == {0} && s.instances == map[] && reply == Returned(false)
  {
    var q := LoadRequest(map["model" := "?"], None, false, None);
    assert "model" in q.config;
  }

  /** The journal fails after the instance is recorded: the load answers False, the instance is there. */
  lemma UnjournaledLoadIsLoaded()
    ensures var (s, reply) := Loaded(Fresh(DISCOVERED, map[]), 0, Default(), Well().(journals := false));
            "asr" in s.instances && reply == Returned(false)
  {
  }

  /** The old worker would not be cleaned up: the reload answers True and nothing was reloaded. */
  lemma ReloadOfNothingAnswersTrue()
    ensures Reloaded(OneLoaded(), "asr", None, ReloadWorld(Some(map[]), false, Well())) == (OneLoaded(), true)
  {
    OneLoadedIs();
    NamedIsValid();
  }

  /** A disabled auto-generated instance is enabled and persistable after a reload. */
  lemma ReloadEnablesAutoInstance()
    ensures var auto := Loaded(Fresh(DISCOVERED, map[]), 0, LoadRequest(map[], None, true, None), Well()).0;
            var off := Disabled(auto, "asr-00beef", Up());
            var on := Reloaded(off, "asr-00beef", None, ReloadWorld(Some(map[]), true, Well())).0;
            && "asr-00beef" in off.instances && !off.instances["asr-00beef"].enabled
            && !off.instances["asr-00beef"].persistable
            && "asr-00beef" in on.instances && on.instances["asr-00beef"].enabled && on.instances["asr-00beef"].persistable
  {
    AutoLoadedIs();
    AutoOffIs();
    var off := AutoOff();
    var t := Unloaded(off, "asr-00beef", true).0;
    assert t.instances == map[] && t.store == map[];
  }

  function AutoLoaded(): State { Loaded(Fresh(DISCOVERED, map[]), 0, LoadRequest(map[], None, true, None), Well()).0 }

  function AutoOff(): State { Disabled(AutoLoaded(), "asr-00beef", Up()) }

  lemma AutoLoadedIs()
    ensures "asr" + "-" + "00beef" == "asr-00beef" && "asr-00beef" != "asr" && ValidId("asr-00beef")
    ensures AutoLoaded().instances ==
            map["asr-00beef" := Instance("asr-00beef", "asr", map[], map[], 0, true, map[], None, false)]
    ensures AutoLoaded().capabilities == map["asr" := 0] && AutoLoaded().metas == DISCOVERED && AutoLoaded().store == map[]
  {
    assert "asr" + "-" + "00beef" == "asr-00beef";
    assert |"asr-00beef"| != |"asr"|;
    assert forall i | 0 <= i < 10 :: IdChar("asr-00beef"[i]);
  }

  lemma AutoOffIs()
    ensures AutoOff().instances ==
            map["asr-00beef" := Instance("asr-00beef", "asr", map[], map[], 0, false, map[], None, false)]
    ensures AutoOff().capabilities == map["asr" := 0] && AutoOff().metas == DISCOVERED && AutoOff().store == map[]
  {
    AutoLoadedIs();
  }

  /** Disabled while the store is down and then reloaded, an instance is enabled and its
      capability's metadata still says disabled. */
  lemma ReloadSplitsFlags()
    ensures var off := Disabled(OneLoaded(), "asr", PersistWorld(None, false));
            var s := Reloaded(off, "asr", None, ReloadWorld(Some(map[]), true, Well())).0;
            "asr" in s.instances && s.instances["asr"].enabled && 0 in s.metas && !s.metas[0].enabled
  {
    OneLoadedIs();
    NamedIsValid();
    var off := Disabled(OneLoaded(), "asr", PersistWorld(None, false));
    assert off.instances == map["asr" := Instance("asr", "asr", map[], map[], 0, false, map[], None, true)];
    assert off.metas == map[0 := Meta("asr", Some(0), false)] && off.capabilities == map["asr" := 0] && off.store == map[];
    assert Unloaded(off, "asr", true).0.instances == map[];
  }

  /** Unloading a named sibling takes the executing default instance out of the running set. */
  lemma SiblingUnloadHidesExecution()
    ensures var both := Loaded(OneLoaded(), 0, Named(), Well()).0;
            var s := Unloaded(Begun(both, "asr"), "asr-b", true).0;
            "asr" in s.instances && "asr" in s.inFlight && "asr" !in s.running
  {
    BothLoadedAre();
    BegunIsSound();
    LoadKeepsSound(OneLoaded(), 0, Named(), Well());
    var both := Loaded(OneLoaded(), 0, Named(), Well()).0;
    SiblingUnloadHides(Begun(both, "asr"), "asr-b");
  }

  lemma BothLoadedAre()
    ensures var both := Loaded(OneLoaded(), 0, Named(), Well()).0;
            && both.instances.Keys == {"asr", "asr-b"} && both.instances["asr"].enabled
            && both.instances["asr"].capability == "asr" && both.instances["asr-b"].capability == "asr" && "asr-b" != "asr"
  {
    OneLoadedIs();
    NamedIsValid();
  }

  /** The first of two overlapping executions to end takes the instance out of the running set. */
  lemma OverlapHidesExecution()
    ensures var s := Ended(Begun(Begun(OneLoaded(), "asr"), "asr"), "asr");
            "asr" in s.instances && "asr" in s.inFlight && "asr" !in s.running
  {
    OneLoadedIs();
    var two := Begun(Begun(OneLoaded(), "asr"), "asr");
    assert two.inFlight["asr"] >= 2;
  }

  /** Disabled while it executes and enabled again before it ends, the worker is told that it is
      disabled, and stays enabled. */
  lemma LateHookReachesEnabledWorker()
    ensures var s := Begun(OneLoaded(), "asr");
            var t := Ended(EnabledAgain(Disabled(s, "asr", Up()), "asr", Up()), "asr");
            && "asr" in t.instances && t.instances["asr"].enabled
            && t.signals != [] && t.signals[|t.signals| - 1] == OnDisable(0, true)
  {
    OneLoadedIs();
    var s := Begun(OneLoaded(), "asr");
    BegunIsSound();
    DisableForm(s, "asr", Up());
    var d := Disabled(s, "asr", Up());
    assert "asr" in d.deferred;
    EnableForm(d, "asr", Up());
    EndFires(EnabledAgain(d, "asr", Up()), "asr");
  }

  /** The default instance is disabled while it executes, and its sibling is unloaded: the worker is
      never told, and nothing is left waiting to tell it. */
  lemma SiblingUnloadDropsHook()
    ensures var both := Loaded(OneLoaded(), 0, Named(), Well()).0;
            var off := Disabled(Begun(both, "asr"), "asr", Up());
            var t := Ended(Unloaded(off, "asr-b", true).0, "asr");
            && "asr" in t.instances && !t.instances["asr"].enabled && t.signals == [] && "asr" !in t.deferred
  {
    var both := Loaded(OneLoaded(), 0, Named(), Well()).0;
    BothLoadedAre();
    BegunIsSound();
    LoadKeepsSound(OneLoaded(), 0, Named(), Well());
    HookDropped(both);
  }

  lemma HookDropped(s: State)
    requires Sound(s) && s.instances.Keys == {"asr", "asr-b"} && s.instances["asr"].enabled && s.signals == []
    requires s.instances["asr-b"].capability == "asr" && "asr-b" != "asr"
    ensures var t := Ended(Unloaded(Disabled(Begun(s, "asr"), "asr", Up()), "asr-b", true).0, "asr");
            && "asr" in t.instances && !t.instances["asr"].enabled && t.signals == [] && "asr" !in t.deferred
  {
    BegunThenDisabled(s);
    SiblingDropsHook(Disabled(Begun(s, "asr"), "asr", Up()), "asr", "asr-b");
  }

  lemma BegunIs(s: State, k: Id)
    requires Sound(s) && k in s.instances && s.instances[k].enabled
    ensures var t := Begun(s, k); Sound(t) && t.instances == s.instances && k in t.running && t.signals == s.signals
  {
    StepKeepsSound(s, Begin(k));
  }

  lemma BegunThenDisabled(s: State)
    requires Sound(s) && s.instances.Keys == {"asr", "asr-b"} && s.instances["asr"].enabled && s.signals == []
    ensures var off := Disabled(Begun(s, "asr"), "asr", Up());
            && Sound(off) && "asr" in off.deferred && off.signals == []
            && off.instances == s.instances["asr" := s.instances["asr"].(enabled := false)]
  {
    BegunIs(s, "asr");
    DisableWaits(Begun(s, "asr"), "asr", Up());
  }

  lemma BegunIsSound()
    ensures Sound(OneLoaded()) && Sound(Begun(OneLoaded(), "asr"))
  {
    FreshIsSound(DISCOVERED, map[]);
    LoadKeepsSound(Fresh(DISCOVERED, map[]), 0, Default(), Well());
    StepKeepsSound(OneLoaded(), Begin("asr"));
  }
}
