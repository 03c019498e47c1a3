/** What every run of a composition satisfies, whatever the schedule: safety of bindings and
    results, progress, termination, and agreement with evaluating the graph recursively. */
module RunTheorems {
  import opened Results
  import opened Graphs
  import opened Compositions
  import opened CompositionRuns
  import opened Executor
  import opened RunInvariants

  /** The state after a schedule, or nothing if a step of it was not enabled. Every state that
      some schedule reaches satisfies the invariant. */
  ghost function RunTo(p: Plan, work: Work, schedule: seq<Action>): (r: Option<State>)
    requires ValidPlan(p)
    ensures r.Some? ==> Inv(p, work, r.value)
  {
    if schedule == [] then SubmittedInv(p, work); Some(Submitted(p))
    else
      var last := schedule[|schedule| - 1];
      match RunTo(p, work, schedule[..|schedule| - 1])
      case None => None
      case Some(s) =>
        if Enabled(s, last) then StepKeepsInv(p, work, s, last); Some(Step(p, work, s, last)) else None
  }

  /** Some schedule leads to s. */
  ghost predicate Reachable(p: Plan, work: Work, s: State)
    requires ValidPlan(p)
    ensures Reachable(p, work, s) ==> Inv(p, work, s)
  {
    exists schedule :: RunTo(p, work, schedule) == Some(s)
  }

  // ---- The recursive evaluation --------------------------------------------

  datatype Verdict = Yields(value: Value) | Breaks | NeverRuns

  function Conclude(work: Work, n: Id, bound: Result<map<string, Value>, BindingError>): Verdict {
    if bound.Err? then Breaks
    else
      var result := work(n, bound.value);
      if result.Some? then Yields(result.value) else Breaks
  }

  /** A plan whose dependencies fall in rank: what acyclicity gives the evaluation. */
  ghost predicate Levelled(p: Plan) {
    WellFormed(p) && Derived(p) && forall n, d | n in p.deps && d in p.deps[n] :: Rank(p.deps, d) < Rank(p.deps, n)
  }

  lemma ValidIsLevelled(p: Plan)
    requires ValidPlan(p)
    ensures Levelled(p)
  {
    AcyclicRanks(p.deps);
  }

  /** What a node comes to when the graph is evaluated from its inputs upward. */
  ghost function Eval(p: Plan, work: Work, n: Id): Verdict
    requires Levelled(p) && n in p.nodes
    decreases Rank(p.deps, n), 1
  {
    if exists d :: d in p.deps[n] && !Eval(p, work, d).Yields? then NeverRuns
    else Conclude(work, n, Bind(p.nodes[n].kwargs, Inputs(p, work, n)))
  }

  /** The evaluated results a node's references read. */
  ghost function Inputs(p: Plan, work: Work, n: Id): map<Id, Value>
    requires Levelled(p) && n in p.nodes && forall d | d in p.deps[n] :: Eval(p, work, d).Yields?
    decreases Rank(p.deps, n), 0
  {
    map d | d in p.deps[n] :: Eval(p, work, d).value
  }

  /** Every dependency has completed, with its evaluated result. */
  ghost predicate DepsEvaluated(p: Plan, work: Work, s: State, n: Id)
    requires Levelled(p) && n in p.nodes
  {
    forall d | d in p.deps[n] :: d in ResultsByNode(s.runs) && Eval(p, work, d) == Yields(ResultsByNode(s.runs)[d])
  }

  lemma EvaluatedInputs(p: Plan, work: Work, s: State, n: Id)
    requires Levelled(p) && n in p.nodes && DepsEvaluated(p, work, s, n)
    ensures forall d | d in p.deps[n] :: Eval(p, work, d).Yields?
    ensures Bind(p.nodes[n].kwargs, Inputs(p, work, n)) == Bind(p.nodes[n].kwargs, ResultsByNode(s.runs))
    ensures Eval(p, work, n) == Conclude(work, n, Bind(p.nodes[n].kwargs, ResultsByNode(s.runs)))
  {
    BindAgrees(p.nodes[n], Inputs(p, work, n), ResultsByNode(s.runs));
  }

  lemma BindAgrees(n: Node, a: map<Id, Value>, b: map<Id, Value>)
    requires forall d | d in NodeDependencies(n) :: d in a && d in b && a[d] == b[d]
    ensures Bind(n.kwargs, a) == Bind(n.kwargs, b)
    ensures Bind(n.kwargs, a).Err? ==> Bind(n.kwargs, a).error.MissingField?
  {
    forall i | 0 <= i < |n.kwargs| && n.kwargs[i].1.OutputRef?
      ensures var d := n.kwargs[i].1.node; d in a && d in b && a[d] == b[d]
    {
      RefIsDependency(n, i);
    }
    BindReadsDependencies(n.kwargs, a, b);
  }

  lemma {:induction false} CompletedAsEvaluated(p: Plan, work: Work, s: State, n: Id)
    requires Levelled(p) && Base(p, work, s) && n in s.runs && s.runs[n].state.Completed?
    ensures s.runs[n].result.Some? && Eval(p, work, n) == Yields(s.runs[n].result.value)
    decreases Rank(p.deps, n), 1
  {
    CompletedHaveResults(p, work, s, n);
    assert JobOk(p, work, s, n);
    CompletedDepsEvaluated(p, work, s, n);
    EvaluatedInputs(p, work, s, n);
  }

  lemma {:induction false} CompletedDepsEvaluated(p: Plan, work: Work, s: State, n: Id)
    requires Levelled(p) && Base(p, work, s) && n in p.nodes && AllCompleted(s.runs, p.deps[n])
    ensures DepsEvaluated(p, work, s, n)
    decreases Rank(p.deps, n), 0
  {
    forall d | d in p.deps[n]
      ensures d in ResultsByNode(s.runs) && Eval(p, work, d) == Yields(ResultsByNode(s.runs)[d])
    {
      CompletedAsEvaluated(p, work, s, d);
    }
  }

  /** In every reachable state a member that runs or completed has all its dependencies
      completed, a completed one holds its evaluated result, and what a job was given is what
      the evaluation would give it. */
  lemma RunsAreSafe(p: Plan, work: Work, s: State, n: Id)
    requires ValidPlan(p) && Reachable(p, work, s) && n in p.nodes
    ensures Levelled(p) && n in s.runs
    ensures s.runs[n].state.Running? || s.runs[n].state.Completed? ==> n in s.jobs && AllCompleted(s.runs, p.deps[n])
    ensures s.runs[n].state.Completed? ==> s.runs[n].result.Some? && Eval(p, work, n) == Yields(s.runs[n].result.value)
    ensures n in s.jobs ==>
              && (forall d | d in p.deps[n] :: Eval(p, work, d).Yields?)
              && Bind(p.nodes[n].kwargs, Inputs(p, work, n)) == Ok(s.jobs[n].kwargs)
  {
    ValidIsLevelled(p);
    assert NodeOk(s, n);
    if n in s.jobs {
      assert JobOk(p, work, s, n);
      CompletedDepsEvaluated(p, work, s, n);
      EvaluatedInputs(p, work, s, n);
    }
    if s.runs[n].state.Completed? {
      CompletedAsEvaluated(p, work, s, n);
    }
  }

  /** Whenever a report makes the executor bind arguments, at every point of its loop, the
      producers' results are recorded: only a missing key or attribute can fail a binding. */
  lemma BindingsFindTheirProducers(p: Plan, work: Work, s: State, n: Id, i: nat)
    requires ValidPlan(p) && Reachable(p, work, s)
    requires Enabled(s, Report(n)) && s.jobs[n].status.Completed? && i < |Ready(p, Completion(s, n).runs)|
    ensures var done := Completion(s, n);
            var ready := Ready(p, done.runs);
            && ReadyBatchStarts(p, done)
            && var bound := Bind(p.nodes[ready[i]].kwargs, ResultsByNode(StartAll(p, done, ready[..i]).runs));
               bound.Ok? || bound.error.MissingField?
  {
    var done := Completion(s, n);
    var ready := Ready(p, done.runs);
    CompletionKeepsCore(p, work, s, n);
    ReadyBatch(p, work, done);
    assert ready[i] in ready && IsReady(p, done.runs, ready[i]) by { ReadyMeaning(p, done.runs); }
    assert Batch(p, done, ready[..i]);
    StartAllKeepsCore(p, work, done, ready[..i]);
    var results := ResultsByNode(done.runs);
    forall d | d in p.deps[ready[i]]
      ensures d in results
    {
      CompletedHaveResults(p, work, done, d);
    }
    BindAgrees(p.nodes[ready[i]], results, results);
  }
}
