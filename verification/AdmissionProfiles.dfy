/** The samples that executions record, and what an admission profile therefore describes. */
module AdmissionProfiles {
  import opened Results
  import opened Registry
  import opened RegistryInvariants
  import opened InstanceState
  import E = EmpiricalStores

  /** An operation, and the sample that is taken if it ends an execution. */
  datatype Event = Event(op: Op, sample: E.Sample)

  function Ops(events: seq<Event>): seq<Op> {
    if events == [] then [] else Ops(events[..|events| - 1]) + [events[|events| - 1].op]
  }

  /** The event ends an execution of an instance that is still loaded. */
  predicate Measures(s: State, e: Event) {
    e.op.End? && e.op.id in s.inFlight && e.op.id in s.instances
  }

  /** What is recorded: the key holds the instance's stored config hash. */
  function Recorded(s: State, events: seq<Event>, hash: Config -> E.Hash): seq<E.Recording> {
    if events == [] then []
    else
      var front, e := events[..|events| - 1], events[|events| - 1];
      var before := After(s, Ops(front));
      if Measures(before, e) then
        var inst := before.instances[e.op.id];
        Recorded(s, front, hash) + [E.Recording((inst.id, hash(inst.hashed)), inst.capability, e.sample)]
      else Recorded(s, front, hash)
  }

  /** What was measured: each sample under the config that its instance had at the time. */
  function Measured(s: State, events: seq<Event>): seq<E.Measured> {
    if events == [] then []
    else
      var front, e := events[..|events| - 1], events[|events| - 1];
      var before := After(s, Ops(front));
      if Measures(before, e) then
        var inst := before.instances[e.op.id];
        Measured(s, front) + [E.Measured(inst.id, inst.config, inst.capability, e.sample)]
      else Measured(s, front)
  }

  lemma KeyedSnoc(runs: seq<E.Measured>, r: E.Measured, hash: Config -> E.Hash)
    ensures E.Keyed(runs + [r], hash) == E.Keyed(runs, hash) + [E.Recording((r.id, hash(r.config)), r.capability, r.sample)]
  {
    assert (runs + [r])[..|runs|] == runs;
  }

  /** Whatever happens to the instances, each sample is recorded under the hash of the config it
      was measured under. */
  lemma {:induction false} RecordedUnderTheLiveConfig(s: State, events: seq<Event>, hash: Config -> E.Hash)
    requires Sound(s) && HashesLive(s)
    ensures Recorded(s, events, hash) == E.Keyed(Measured(s, events), hash)
  {
    if events != [] {
      var front, e := events[..|events| - 1], events[|events| - 1];
      RecordedUnderTheLiveConfig(s, front, hash);
      HashesStayLive(s, Ops(front));
      var before := After(s, Ops(front));
      if Measures(before, e) {
        var inst := before.instances[e.op.id];
        KeyedSnoc(Measured(s, front), E.Measured(inst.id, inst.config, inst.capability, e.sample), hash);
      }
    }
  }

  /** So the rows under an instance's stored hash describe exactly the samples measured under its
      live config, or nothing was measured under it. */
  lemma ProfilesDescribeTheLiveConfig(s: State, events: seq<Event>, hash: Config -> E.Hash, k: Id)
    requires Sound(s) && HashesLive(s) && E.Injective(hash) && k in After(s, Ops(events)).instances
    ensures var inst := After(s, Ops(events)).instances[k];
            var rows := E.AllFolded(Recorded(s, events, hash));
            var samples := E.MeasuredUnder(Measured(s, events), k, inst.config);
            if (k, hash(inst.hashed)) in rows then E.Describes(rows[(k, hash(inst.hashed))], samples) else samples == []
  {
    HashesStayLive(s, Ops(events));
    RecordedUnderTheLiveConfig(s, events, hash);
    var inst := After(s, Ops(events)).instances[k];
    E.RowsFollowHistory(Recorded(s, events, hash));
    E.ProfileIsOfTheLiveConfig(Measured(s, events), hash, k, inst.config);
  }
}
