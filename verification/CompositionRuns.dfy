/** The record of one composition run: per-node states and results, the ready scan, the
    transitive skip, and the terminal status derived from the members. */
module CompositionRuns {
  import opened Results
  import opened Graphs
  import opened Compositions
  import opened Validation

  datatype NodeState = Pending | Running | Completed | Failed | Cancelled | Skipped {
    predicate Terminal() { Completed? || Failed? || Cancelled? || Skipped? }
  }

  datatype NodeRun = NodeRun(state: NodeState, jobId: Option<Id>, result: Option<Value>)

  type NodeRuns = map<Id, NodeRun>

  /** The part of a run record that submission fixes. */
  datatype Plan = Plan(order: seq<Id>, failFast: bool, deps: Graph, dependents: Graph, nodes: map<Id, Node>)

  /** Order, maps and reverse map speak of the same nodes and edges. */
  ghost predicate WellFormed(p: Plan) {
    && Distinct(p.order) && Elements(p.order) == p.deps.Keys && p.nodes.Keys == p.deps.Keys
    && Closed(p.deps) && p.dependents == Reverse(p.deps)
  }

  /** The dependency map is the one the nodes' references derive. */
  ghost predicate Derived(p: Plan) {
    forall n | n in p.nodes :: n in p.deps && p.nodes[n].id == n && p.deps[n] == NodeDependencies(p.nodes[n])
  }

  /** What submission accepts. */
  ghost predicate ValidPlan(p: Plan) {
    WellFormed(p) && Derived(p) && Acyclic(p.deps)
  }

  // ---- Reading a run -----------------------------------------------------

  predicate AllCompleted(runs: NodeRuns, ids: set<Id>) {
    forall d | d in ids :: d in runs && runs[d].state.Completed?
  }

  predicate IsReady(p: Plan, runs: NodeRuns, n: Id) {
    n in runs && n in p.deps && runs[n].state.Pending? && AllCompleted(runs, p.deps[n])
  }

  /** The ready nodes among `order`, in that order. */
  function ReadyAmong(p: Plan, runs: NodeRuns, order: seq<Id>): seq<Id> {
    if order == [] then []
    else
      var last := order[|order| - 1];
      ReadyAmong(p, runs, order[..|order| - 1]) + if IsReady(p, runs, last) then [last] else []
  }

  function Ready(p: Plan, runs: NodeRuns): seq<Id> {
    ReadyAmong(p, runs, p.order)
  }

  lemma {:induction false} ReadyAmongMeaning(p: Plan, runs: NodeRuns, order: seq<Id>)
    requires Distinct(order)
    ensures var r := ReadyAmong(p, runs, order);
            && (forall n :: n in r <==> n in order && IsReady(p, runs, n))
            && Distinct(r)
  {
    if order != [] {
      var front := order[..|order| - 1];
      ReadyAmongMeaning(p, runs, front);
      assert order == front + [order[|order| - 1]];
    }
  }

  lemma ReadyNext(p: Plan, runs: NodeRuns, order: seq<Id>, i: nat)
    requires i < |order|
    ensures ReadyAmong(p, runs, order[..i + 1]) ==
            ReadyAmong(p, runs, order[..i]) + if IsReady(p, runs, order[i]) then [order[i]] else []
  {
    assert order[..i + 1][..i] == order[..i];
  }

  lemma OrderedIsKnown(p: Plan, n: Id)
    requires WellFormed(p) && n in p.order
    ensures n in p.deps && p.deps[n] <= p.deps.Keys
  {
    assert n in Elements(p.order);
  }

  /** What is listed earlier is started earlier. */
  lemma {:induction false} ReadyKeepsOrder(p: Plan, runs: NodeRuns, order: seq<Id>, i: nat, j: nat)
    requires Distinct(order) && i < j < |ReadyAmong(p, runs, order)|
    ensures var r := ReadyAmong(p, runs, order);
            exists a, b :: 0 <= a < b < |order| && order[a] == r[i] && order[b] == r[j]
  {
    var r, front := ReadyAmong(p, runs, order), order[..|order| - 1];
    var before := ReadyAmong(p, runs, front);
    if j < |before| {
      ReadyKeepsOrder(p, runs, front, i, j);
      var a, b :| 0 <= a < b < |front| && front[a] == before[i] && front[b] == before[j];
      assert order[a] == r[i] && order[b] == r[j];
    } else {
      ReadyAmongMeaning(p, runs, front);
      assert before[i] in before;
      var a :| 0 <= a < |front| && front[a] == before[i];
      assert order[a] == r[i] && order[|order| - 1] == r[j];
    }
  }

  lemma ReadyMeaning(p: Plan, runs: NodeRuns)
    requires WellFormed(p)
    ensures forall n :: n in Ready(p, runs) <==> IsReady(p, runs, n)
    ensures Distinct(Ready(p, runs))
  {
    ReadyAmongMeaning(p, runs, p.order);
    assert forall n :: n in p.order <==> n in Elements(p.order);
  }

  predicate AllTerminal(runs: NodeRuns) {
    forall n | n in runs :: runs[n].state.Terminal()
  }

  predicate SomeIn(runs: NodeRuns, s: NodeState) {
    exists n | n in runs :: runs[n].state == s
  }

  /** User intent first, then a member failure under fail-fast, then a cancelled member. */
  function DeriveTerminalStatus(failFast: bool, cancelRequested: bool, runs: NodeRuns): NodeState {
    if cancelRequested then Cancelled
    else if SomeIn(runs, Failed) then
      if failFast then Failed else if SomeIn(runs, Cancelled) then Cancelled else Completed
    else if SomeIn(runs, Cancelled) then Cancelled
    else Completed
  }

  predicate SomeFailed(runs: NodeRuns) {
    exists n | n in runs :: runs[n].state.Failed?
  }

  predicate SomeCancelled(runs: NodeRuns) {
    exists n | n in runs :: runs[n].state.Cancelled?
  }

  /** What the status of a finished run is to say. User intent comes first; of two losses under
      fail-fast a failure does. A best-effort run has attempted everything: its failures do not
      count, only cancels do. */
  predicate SaysWhatHappened(failFast: bool, cancelRequested: bool, runs: NodeRuns, status: NodeState) {
    if cancelRequested then status.Cancelled?
    else if failFast then
      && (status.Failed? <==> SomeFailed(runs))
      && (status.Cancelled? <==> SomeCancelled(runs) && !SomeFailed(runs))
      && (status.Completed? <==> !SomeCancelled(runs) && !SomeFailed(runs))
    else
      && (status.Cancelled? <==> SomeCancelled(runs))
      && (status.Completed? <==> !SomeCancelled(runs))
  }

  lemma DerivedStatusSays(failFast: bool, cancelRequested: bool, runs: NodeRuns)
    ensures SaysWhatHappened(failFast, cancelRequested, runs, DeriveTerminalStatus(failFast, cancelRequested, runs))
  {
    if n :| n in runs && runs[n].state.Failed? { assert runs[n].state == Failed; }
    if n :| n in runs && runs[n].state.Cancelled? { assert runs[n].state == Cancelled; }
  }

  /** Completed members' results: what bindings read. */
  function ResultsByNode(runs: NodeRuns): map<Id, Value> {
    map n | n in runs && runs[n].state.Completed? && runs[n].result.Some? :: runs[n].result.value
  }

  // ---- What the updates do to the record ----------------------------------

  function Started(runs: NodeRuns, n: Id, job: Id): NodeRuns
    requires n in runs
  {
    runs[n := runs[n].(state := Running, jobId := Some(job))]
  }

  function Recorded(runs: NodeRuns, n: Id, state: NodeState, result: Option<Value>): NodeRuns
    requires n in runs
  {
    runs[n := runs[n].(state := state, result := result)]
  }

  /** Every pending node that depends on n, directly or not, is skipped; nothing else moves. */
  ghost function SkippedFrom(deps: Graph, runs: NodeRuns, n: Id): NodeRuns {
    map m | m in runs :: if runs[m].state.Pending? && DependsOn(deps, m, n) then runs[m].(state := Skipped) else runs[m]
  }

  method SetToSeq(s: set<Id>) returns (q: seq<Id>)
    ensures Elements(q) == s && |q| == |s| && Distinct(q)
  {
    q := [];
    var todo := s;
    while todo != {}
      invariant todo <= s && Elements(q) == s - todo && |q| + |todo| == |s| && Distinct(q)
    {
      var x :| x in todo;
      DistinctSnoc(q, x);
      q, todo := q + [x], todo - {x};
    }
  }

  /** A set that holds the direct dependents of n and of each of its members holds every
      transitive dependent of n. */
  lemma {:induction false} ClosedUnderDependents(deps: Graph, seen: set<Id>, n: Id, p: seq<Id>)
    requires Closed(deps) && IsPath(deps, p) && |p| >= 2 && p[|p| - 1] == n
    requires Reverse(deps)[n] <= seen
    requires forall m | m in seen && m in deps :: Reverse(deps)[m] <= seen
    ensures p[0] in seen
  {
    if |p| == 2 {
      assert p[1] in deps[p[0]];
    } else {
      ClosedUnderDependents(deps, seen, n, p[1..]);
      assert p[1] in deps[p[0]];
      assert p[0] in Reverse(deps)[p[1]];
    }
  }

  // ---- Building the record -----------------------------------------------

  function IdOrder(nodes: seq<Node>): seq<Id> {
    seq(|nodes|, i requires 0 <= i < |nodes| => nodes[i].id)
  }

  /** Later nodes win, as in the source's dict comprehension. */
  function NodesById(nodes: seq<Node>): (m: map<Id, Node>)
    ensures m.Keys == IdsOf(nodes)
  {
    if nodes == [] then map[]
    else
      var last := nodes[|nodes| - 1];
      NodesById(nodes[..|nodes| - 1])[last.id := last]
  }

  function PlanOf(comp: Composition): Plan {
    var deps := GraphOf(comp.nodes);
    Plan(IdOrder(comp.nodes), comp.failFast, deps, Reverse(deps), NodesById(comp.nodes))
  }

  lemma {:induction false} NodesByIdNode(nodes: seq<Node>, i: nat)
    requires UniqueIds(nodes) && i < |nodes|
    ensures NodesById(nodes)[nodes[i].id] == nodes[i]
  {
    if i < |nodes| - 1 {
      NodesByIdNode(nodes[..|nodes| - 1], i);
    }
  }

  /** Whatever validation accepts makes a valid plan. */
  lemma AcceptedPlanValid(comp: Composition)
    requires UniqueIds(comp.nodes) && KnownRefs(comp.nodes) && Acyclic(GraphOf(comp.nodes))
    ensures ValidPlan(PlanOf(comp))
  {
    var p := PlanOf(comp);
    GraphOfClosed(comp.nodes);
    assert Elements(p.order) == p.deps.Keys by {
      assert forall i | 0 <= i < |comp.nodes| :: p.order[i] == comp.nodes[i].id;
    }
    forall n | n in p.nodes
      ensures p.nodes[n].id == n && p.deps[n] == NodeDependencies(p.nodes[n])
    {
      var i :| 0 <= i < |comp.nodes| && comp.nodes[i].id == n;
      NodesByIdNode(comp.nodes, i);
      GraphOfNode(comp.nodes, i);
    }
  }

  function FreshRuns(p: Plan): NodeRuns {
    map n | n in p.deps :: NodeRun(Pending, None, None)
  }

  /** Validates a composition and builds its run record. */
  method NewCompositionRun(comp: Composition) returns (r: Result<CompositionRun, ValidationError>)
    ensures r.Ok? <==> UniqueIds(comp.nodes) && KnownRefs(comp.nodes) && Acyclic(GraphOf(comp.nodes))
    ensures r.Ok? ==>
              && fresh(r.value) && r.value.Valid() && ValidPlan(r.value.plan) && r.value.plan == PlanOf(comp)
              && r.value.nodeRuns == FreshRuns(r.value.plan)
              && r.value.status == Running && !r.value.cancelRequested
  {
    var v := ValidateComposition(comp);
    if v.Err? {
      return Err(v.error);
    }
    GraphOfClosed(comp.nodes);
    AcceptedPlanValid(comp);
    var dependents := ReverseOf(v.value);
    var run := new CompositionRun(Plan(IdOrder(comp.nodes), comp.failFast, v.value, dependents, NodesById(comp.nodes)));
    return Ok(run);
  }

  class CompositionRun {
    const plan: Plan
    var nodeRuns: NodeRuns
    var status: NodeState
    var cancelRequested: bool

    ghost predicate Valid()
      reads this
    {
      WellFormed(plan) && nodeRuns.Keys == plan.deps.Keys
    }

    constructor (plan: Plan)
      requires WellFormed(plan)
      ensures Valid() && this.plan == plan && nodeRuns == FreshRuns(plan)
      ensures status == Running && !cancelRequested
    {
      this.plan := plan;
      nodeRuns := FreshRuns(plan);
      status := Running;
      cancelRequested := false;
    }

    /** Pending nodes whose dependencies have all completed, in composition order. */
    method ReadyNodes() returns (out: seq<Id>)
      requires Valid()
      ensures out == Ready(plan, nodeRuns)
      ensures forall n :: n in out <==> IsReady(plan, nodeRuns, n)
    {
      var p, runs := plan, nodeRuns;
      out := [];
      for i := 0 to |p.order|
        invariant out == ReadyAmong(p, runs, p.order[..i])
      {
        var n := p.order[i];
        ReadyNext(p, runs, p.order, i);
        OrderedIsKnown(p, n);
        if runs[n].state.Pending? && forall d | d in p.deps[n] :: runs[d].state.Completed? {
          out := out + [n];
        }
      }
      assert p.order[..|p.order|] == p.order;
      ReadyMeaning(p, runs);
    }

    method RecordStarted(n: Id, job: Id)
      requires Valid() && n in nodeRuns
      modifies this`nodeRuns
      ensures Valid() && nodeRuns == Started(old(nodeRuns), n, job)
    {
      nodeRuns := nodeRuns[n := nodeRuns[n].(state := Running, jobId := Some(job))];
    }

    /** Refuses anything but a terminal state, and then changes nothing. */
    method RecordResult(n: Id, state: NodeState, result: Option<Value>) returns (accepted: bool)
      requires Valid() && n in nodeRuns
      modifies this`nodeRuns
      ensures accepted == state.Terminal()
      ensures Valid() && nodeRuns == if accepted then Recorded(old(nodeRuns), n, state, result) else old(nodeRuns)
    {
      accepted := state.Terminal();
      if accepted {
        nodeRuns := nodeRuns[n := nodeRuns[n].(state := state, result := result)];
      }
    }

    /** Marks exactly the pending transitive dependents of n, each once, and nothing else. */
    method SkipDependents(n: Id) returns (skipped: seq<Id>)
      requires Valid() && n in nodeRuns
      modifies this`nodeRuns
      ensures Valid() && nodeRuns == SkippedFrom(plan.deps, old(nodeRuns), n)
      ensures Distinct(skipped) && forall m :: m in Elements(skipped) <==>
                m in nodeRuns && old(nodeRuns)[m].state.Pending? && DependsOn(plan.deps, m, n)
    {
      skipped := [];
      var frontier := SetToSeq(plan.dependents[n]);
      var seen: set<Id> := {};
      ghost var before := nodeRuns;
      SweepStart(plan.deps, n);
      SkippedInNone(before);
      while frontier != []
        invariant Sweep(plan.deps, n, seen, Elements(frontier))
        invariant nodeRuns == SkippedIn(before, seen)
        invariant Elements(skipped) == PendingAmong(before, seen) && Distinct(skipped)
        decreases plan.deps.Keys - seen, |frontier|
      {
        var m := frontier[0];
        ElementsUncons(frontier);
        frontier := frontier[1..];
        if m in seen {
          SweepSeen(plan.deps, n, seen, Elements(frontier), m);
        } else {
          SweepStep(plan.deps, n, seen, Elements(frontier), m);
          SkippedInStep(before, seen, m);
          if nodeRuns[m].state.Pending? {
            nodeRuns := nodeRuns[m := nodeRuns[m].(state := Skipped)];
            DistinctSnoc(skipped, m);
            skipped := skipped + [m];
          }
          seen := seen + {m};
          var next := SetToSeq(plan.dependents[m]);
          ElementsConcat(frontier, next);
          frontier := frontier + next;
        }
      }
      SweepDone(plan.deps, n, seen);
    }
  }

  // ---- The breadth-first sweep of SkipDependents --------------------------

  function SkippedIn(runs: NodeRuns, seen: set<Id>): NodeRuns {
    map m | m in runs :: if runs[m].state.Pending? && m in seen then runs[m].(state := Skipped) else runs[m]
  }

  function PendingAmong(runs: NodeRuns, seen: set<Id>): set<Id> {
    set m | m in seen && m in runs && runs[m].state.Pending?
  }

  lemma SkippedInNone(runs: NodeRuns)
    ensures SkippedIn(runs, {}) == runs
  {
  }

  lemma SkippedInStep(runs: NodeRuns, seen: set<Id>, m: Id)
    requires m in runs && m !in seen
    ensures SkippedIn(runs, seen)[m] == runs[m] && m !in PendingAmong(runs, seen)
    ensures PendingAmong(runs, seen + {m}) ==
            if runs[m].state.Pending? then PendingAmong(runs, seen) + {m} else PendingAmong(runs, seen)
    ensures SkippedIn(runs, seen + {m}) ==
            if runs[m].state.Pending? then SkippedIn(runs, seen)[m := runs[m].(state := Skipped)] else SkippedIn(runs, seen)
  {
  }

  /** Everything seen or queued depends on n, and nothing seen has an unqueued dependent. */
  ghost predicate Sweep(deps: Graph, n: Id, seen: set<Id>, queued: set<Id>) {
    && n in deps && seen + queued <= deps.Keys
    && (forall m | m in seen + queued :: DependsOn(deps, m, n))
    && Reverse(deps)[n] <= seen + queued
    && forall m | m in seen :: Reverse(deps)[m] <= seen + queued
  }

  lemma SweepStart(deps: Graph, n: Id)
    requires Closed(deps) && n in deps
    ensures Sweep(deps, n, {}, Reverse(deps)[n])
  {
    forall m | m in Reverse(deps)[n]
      ensures DependsOn(deps, m, n)
    {
      EdgeIsDependency(deps, m, n);
    }
  }

  lemma SweepSeen(deps: Graph, n: Id, seen: set<Id>, queued: set<Id>, m: Id)
    requires Sweep(deps, n, seen, {m} + queued) && m in seen
    ensures Sweep(deps, n, seen, queued)
  {
    assert seen + ({m} + queued) == seen + queued;
  }

  lemma SweepStep(deps: Graph, n: Id, seen: set<Id>, queued: set<Id>, m: Id)
    requires Closed(deps) && Sweep(deps, n, seen, {m} + queued)
    ensures Sweep(deps, n, seen + {m}, queued + Reverse(deps)[m])
  {
    forall k | k in Reverse(deps)[m]
      ensures DependsOn(deps, k, n)
    {
      DependsOnStep(deps, k, m, n);
    }
  }

  lemma SweepDone(deps: Graph, n: Id, seen: set<Id>)
    requires Closed(deps) && Sweep(deps, n, seen, {})
    ensures forall m :: m in seen <==> DependsOn(deps, m, n)
    ensures forall runs: NodeRuns :: SkippedIn(runs, seen) == SkippedFrom(deps, runs, n)
  {
    forall m | DependsOn(deps, m, n)
      ensures m in seen
    {
      var p :| IsPath(deps, p) && |p| >= 2 && p[0] == m && p[|p| - 1] == n;
      ClosedUnderDependents(deps, seen, n, p);
    }
  }
}
