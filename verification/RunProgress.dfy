/** No run gets stuck and none goes on for ever. */
module RunProgress {
  import opened Results
  import opened Graphs
  import opened Compositions
  import opened CompositionRuns
  import opened Executor
  import opened RunInvariants
  import opened RunTheorems

  // ---- Progress -----------------------------------------------------------

  /** A step the queue takes by itself, without anyone cancelling or refusing a member. */
  predicate OfTheQueue(a: Action) {
    a.Pop? || a.Begin? || a.Settle? || a.Report?
  }

  /** Below every node that is not terminal there is a running one. */
  lemma {:induction false} SomeRunning(p: Plan, work: Work, s: State, n: Id) returns (m: Id)
    requires Levelled(p) && Inv(p, work, s) && n in s.runs && !s.runs[n].state.Terminal()
    ensures m in s.runs && s.runs[m].state.Running?
    decreases Rank(p.deps, n)
  {
    if s.runs[n].state.Running? {
      m := n;
    } else {
      assert Hopeful(s.runs, p.deps[n]) && !IsReady(p, s.runs, n);
      var d :| d in p.deps[n] && !s.runs[d].state.Completed?;
      m := SomeRunning(p, work, s, d);
    }
  }

  lemma RunningMoves(p: Plan, work: Work, s: State, m: Id) returns (a: Action)
    requires Base(p, work, s) && m in s.runs && s.runs[m].state.Running?
    ensures OfTheQueue(a) && Enabled(s, a)
  {
    assert NodeOk(s, m) && JobOk(p, work, s, m);
    match s.jobs[m].place
    case InHeap => a := Pop(m);
    case Popped => a := Begin(m);
    case Executing => a := Settle(m, Ran);
    case Settled => a := Report(m);
  }

  /** In every reachable state either the run is over, all nodes terminal and the status
      final, or the queue itself has a step to take. */
  lemma NoDeadlock(p: Plan, work: Work, s: State)
    requires ValidPlan(p) && Reachable(p, work, s)
    ensures if AllTerminal(s.runs) then !s.status.Running? else exists a :: OfTheQueue(a) && Enabled(s, a)
  {
    if !AllTerminal(s.runs) {
      ValidIsLevelled(p);
      var n :| n in s.runs && !s.runs[n].state.Terminal();
      var m := SomeRunning(p, work, s, n);
      var a := RunningMoves(p, work, s, m);
    }
  }

  // ---- Termination ----------------------------------------------------------

  /** How many steps a node can still take part in. */
  function Weight(s: State, n: Id): nat
    requires n in s.runs
  {
    if n !in s.jobs then (if s.runs[n].state.Pending? then 6 else 0)
    else
      match s.jobs[n].place
      case InHeap => 5
      case Popped => if s.jobs[n].status.Pending? then 4 else 3
      case Executing => 2
      case Settled => 1
      case Done => 0
  }

  function Total(s: State, order: seq<Id>): nat
    requires forall n | n in order :: n in s.runs
  {
    if order == [] then 0 else Weight(s, order[0]) + Total(s, order[1..])
  }

  function StepsLeft(p: Plan, s: State): nat
    requires forall n | n in p.order :: n in s.runs
  {
    Total(s, p.order) + if s.cancelRequested then 0 else 1
  }

  /** No node gets heavier. */
  predicate Lighter(s: State, t: State) {
    t.runs.Keys == s.runs.Keys && forall n | n in s.runs :: Weight(t, n) <= Weight(s, n)
  }

  lemma {:induction false} LighterTotal(s: State, t: State, order: seq<Id>, n: Id)
    requires Lighter(s, t) && forall m | m in order :: m in s.runs
    ensures Total(t, order) <= Total(s, order)
    ensures n in order && Weight(t, n) < Weight(s, n) ==> Total(t, order) < Total(s, order)
  {
    if order != [] {
      LighterTotal(s, t, order[1..], n);
      assert order[0] in s.runs;
    }
  }

  lemma {:induction false} TotalBound(s: State, order: seq<Id>)
    requires forall m | m in order :: m in s.runs
    ensures Total(s, order) <= 6 * |order|
  {
    if order != [] {
      TotalBound(s, order[1..]);
    }
  }

  lemma LighterChain(s: State, t: State, u: State)
    requires Lighter(s, t) && Lighter(t, u)
    ensures Lighter(s, u)
  {
  }

  lemma HousekeepingIsLighter(p: Plan, s: State)
    ensures Lighter(s, Housekept(p, s)) && Housekept(p, s).jobs.Keys == s.jobs.Keys
    ensures Housekept(p, s).cancelRequested == s.cancelRequested
  {
    var stopped := s.(runs := CancelUnstarted(s.runs));
    CancellingIsLighter(stopped);
    assert Lighter(s, stopped);
    assert Lighter(CancelQueued(stopped), Finalized(p, CancelQueued(stopped)));
    LighterChain(s, stopped, CancelQueued(stopped));
  }

  lemma CancellingIsLighter(s: State)
    ensures Lighter(s, CancelQueued(s)) && CancelQueued(s).jobs.Keys == s.jobs.Keys
    ensures Lighter(s, s.(runs := CancelUnstarted(s.runs)))
  {
  }

  lemma SkippingIsLighter(p: Plan, s: State, n: Id, outcome: NodeState)
    requires n in s.runs && outcome.Terminal()
    ensures Lighter(s, s.(runs := SkippedFrom(p.deps, Recorded(s.runs, n, outcome, None), n)))
  {
    var recorded := s.(runs := Recorded(s.runs, n, outcome, None));
    var skipped := recorded.(runs := SkippedFrom(p.deps, recorded.runs, n));
    assert Lighter(s, recorded) && Lighter(recorded, skipped);
    LighterChain(s, recorded, skipped);
  }

  lemma LosingIsLighter(p: Plan, s: State, n: Id, outcome: NodeState)
    requires n in s.runs && outcome.Terminal()
    ensures var t := MemberLost(p, s, n, outcome);
            && Lighter(s, t) && t.jobs.Keys == s.jobs.Keys && t.cancelRequested == s.cancelRequested
            && (n !in s.jobs ==> Weight(t, n) == 0)
  {
    var skipped := s.(runs := SkippedFrom(p.deps, Recorded(s.runs, n, outcome, None), n));
    SkippingIsLighter(p, s, n, outcome);
    if p.failFast && !s.cancelRequested {
      HousekeepingIsLighter(p, skipped);
      LighterChain(s, skipped, Housekept(p, skipped));
    }
    if n !in s.jobs {
      LostIsWeightless(p, s, n, outcome);
    }
  }

  lemma LostIsWeightless(p: Plan, s: State, n: Id, outcome: NodeState)
    requires n in s.runs && outcome.Terminal() && n !in s.jobs
    ensures n in MemberLost(p, s, n, outcome).runs && Weight(MemberLost(p, s, n, outcome), n) == 0
  {
    LostStays(p, s, n, outcome);
  }

  lemma StartingOneIsLighter(p: Plan, s: State, n: Id)
    requires n in s.runs && n in p.nodes && n !in s.jobs
    ensures var t := StartOne(p, s, n);
            && t.runs.Keys == s.runs.Keys && t.cancelRequested == s.cancelRequested
            && t.jobs.Keys <= s.jobs.Keys + {n} && Weight(t, n) <= 5
            && (forall m | m in s.runs && m != n :: Weight(t, m) <= Weight(s, m))
  {
    if Bind(p.nodes[n].kwargs, ResultsByNode(s.runs)).Err? {
      LosingIsLighter(p, s, n, Failed);
    }
  }

  /** Starting a ready list makes its own nodes at most as heavy as a queued job, and no other
      node heavier. */
  lemma {:induction false} StartingIsLighter(p: Plan, s: State, ready: seq<Id>)
    requires Distinct(ready) && forall n | n in ready :: n in s.runs && n in p.nodes && n !in s.jobs
    ensures var t := StartAll(p, s, ready);
            && t.runs.Keys == s.runs.Keys && t.cancelRequested == s.cancelRequested
            && forall n | n in s.runs :: Weight(t, n) <= if n in ready then 5 else Weight(s, n)
    decreases |ready|
  {
    if ready != [] {
      var n, rest := ready[0], ready[1..];
      assert n in ready && forall m | m in rest :: m in ready && m != n;
      assert forall m | m in ready :: m == n || m in rest;
      StartingOneIsLighter(p, s, n);
      StartingIsLighter(p, StartOne(p, s, n), rest);
    }
  }

  /** One step uses up at least one of the steps left to the node it is about. */
  ghost predicate Spends(s: State, t: State, n: Id) {
    && Lighter(s, t) && t.cancelRequested == s.cancelRequested
    && n in s.runs && Weight(t, n) < Weight(s, n)
  }

  lemma QuietStepSpends(p: Plan, work: Work, s: State, n: Id, j: Job)
    requires n in s.runs && n in s.jobs && Weight(WithJob(s, n, j), n) < Weight(s, n)
    ensures Spends(s, WithJob(s, n, j), n)
  {
  }

  lemma FinalizingWeighsNothing(p: Plan, s: State, t: State, n: Id)
    requires Spends(s, t, n)
    ensures Spends(s, Finalized(p, t), n)
  {
  }

  lemma LighterStillSpends(s: State, w: State, t: State, n: Id)
    requires Spends(s, w, n) && Lighter(w, t) && t.cancelRequested == w.cancelRequested
    ensures Spends(s, t, n)
  {
  }

  lemma LossSpends(p: Plan, s: State, n: Id, j: Job)
    requires Sized(p, s) && n in s.jobs && j.status.Terminal() && !j.status.Completed?
    requires Weight(WithJob(s, n, j), n) < Weight(s, n)
    ensures Spends(s, Advanced(p, WithJob(s, n, j), n), n)
  {
    var w := WithJob(s, n, j);
    var lost := MemberLost(p, w, n, j.status);
    assert Spends(s, w, n);
    LosingIsLighter(p, w, n, j.status);
    LighterStillSpends(s, w, lost, n);
    FinalizingWeighsNothing(p, s, lost, n);
  }

  lemma ReadyNodesIdle(p: Plan, work: Work, s: State)
    requires Base(p, work, s)
    ensures var ready := Ready(p, s.runs);
            Distinct(ready)
            && forall n | n in ready :: n in s.runs && n in p.nodes && n !in s.jobs && s.runs[n].state.Pending?
  {
    ReadyBatch(p, work, s);
    ReadyMeaning(p, s.runs);
    forall n | n in Ready(p, s.runs)
      ensures n in p.nodes && n !in s.jobs
    {
      assert Startable(p, s, n);
    }
  }

  lemma CompletionSpends(p: Plan, work: Work, s: State, n: Id) returns (t: State)
    requires Inv(p, work, s) && Derived(p)
    requires n in s.jobs && s.jobs[n].place.Settled? && s.jobs[n].status.Completed?
    ensures t == Step(p, work, s, Report(n)) && Spends(s, t, n)
  {
    var done, started := ReportOfCompletion(p, work, s, n);
    ReadyNodesIdle(p, work, done);
    StartingIsLighter(p, done, Ready(p, done.runs));
    CompletionWeights(s, done, started, Ready(p, done.runs), n);
    FinalizingWeighsNothing(p, s, started, n);
    t := Finalized(p, started);
  }

  lemma CompletionWeights(s: State, done: State, t: State, ready: seq<Id>, n: Id)
    requires n in s.runs && n in s.jobs && s.jobs[n].place.Settled? && done == Completion(s, n)
    requires t.runs.Keys == done.runs.Keys && t.cancelRequested == done.cancelRequested
    requires forall m | m in done.runs :: Weight(t, m) <= if m in ready then 5 else Weight(done, m)
    requires forall m | m in ready :: m in done.runs && done.runs[m].state.Pending? && m !in done.jobs
    ensures Spends(s, t, n)
  {
    forall m | m in s.runs
      ensures Weight(t, m) <= Weight(s, m)
    {
      assert m in done.runs;
    }
  }

  lemma CancelRunIsLighter(p: Plan, s: State)
    requires s.status.Running?
    ensures Lighter(s, RunCancelled(p, s)) && RunCancelled(p, s).cancelRequested
  {
    var asked := s.(cancelRequested := true);
    var stopped := asked.(runs := CancelUnstarted(asked.runs));
    CancellingIsLighter(asked);
    CancellingIsLighter(stopped);
    assert Lighter(s, asked);
    LighterChain(s, asked, stopped);
    LighterChain(s, stopped, CancelQueued(stopped));
    assert Lighter(CancelQueued(stopped), Finalized(p, CancelQueued(stopped)));
    LighterChain(s, CancelQueued(stopped), Finalized(p, CancelQueued(stopped)));
  }

  lemma QuietSteps(p: Plan, work: Work, s: State, a: Action)
    requires Inv(p, work, s) && Enabled(s, a) && (a.Pop? || a.Begin? || a.Settle?)
    ensures Spends(s, Step(p, work, s, a), a.n)
  {
    assert JobOk(p, work, s, a.n);
    QuietStepsLighten(p, work, s, a);
    QuietStepSpends(p, work, s, a.n, Step(p, work, s, a).jobs[a.n]);
  }

  lemma QuietStepsLighten(p: Plan, work: Work, s: State, a: Action)
    requires Sized(p, s) && Enabled(s, a) && (a.Pop? || a.Begin? || a.Settle?) && JobOk(p, work, s, a.n)
    ensures var t := Step(p, work, s, a);
            a.n in s.runs && a.n in t.jobs && t == WithJob(s, a.n, t.jobs[a.n]) && Weight(t, a.n) < Weight(s, a.n)
  {
  }

  lemma StepSpends(p: Plan, work: Work, s: State, a: Action)
    requires Inv(p, work, s) && Derived(p) && Enabled(s, a) && !a.CancelRun?
    ensures Spends(s, Step(p, work, s, a), a.n)
  {
    if LosesMember(s, a) {
      LossSteps(p, work, s, a);
      assert JobOk(p, work, s, a.n);
      LossSpends(p, s, a.n, LostJob(s, a));
    } else if a.Report? {
      var _ := CompletionSpends(p, work, s, a.n);
    } else {
      QuietSteps(p, work, s, a);
    }
  }

  lemma StepShortens(p: Plan, work: Work, s: State, a: Action)
    requires Inv(p, work, s) && Derived(p) && Enabled(s, a)
    ensures var t := Step(p, work, s, a);
            (forall n | n in p.order :: n in s.runs && n in t.runs) && StepsLeft(p, t) < StepsLeft(p, s)
  {
    StepKeepsInv(p, work, s, a);
    NodesInOrder(p, s);
    NodesInOrder(p, Step(p, work, s, a));
    if a.CancelRun? {
      CancelRunIsLighter(p, s);
      LighterTotal(s, Step(p, work, s, a), p.order, "");
    } else {
      StepSpends(p, work, s, a);
      SpendingShortens(p, s, Step(p, work, s, a), a.n);
    }
  }

  lemma NodesInOrder(p: Plan, s: State)
    requires Sized(p, s)
    ensures forall n :: n in p.order <==> n in s.runs
  {
    assert forall n | n in p.order :: n in Elements(p.order);
  }

  lemma SpendingShortens(p: Plan, s: State, t: State, n: Id)
    requires Spends(s, t, n) && (forall m | m in p.order :: m in s.runs && m in t.runs) && n in p.order
    ensures StepsLeft(p, t) < StepsLeft(p, s)
  {
    LighterTotal(s, t, p.order, n);
  }

  /** Every schedule is finite: at most six steps for each node, and one user cancel. */
  lemma {:induction false} SchedulesAreBounded(p: Plan, work: Work, schedule: seq<Action>)
    requires ValidPlan(p) && RunTo(p, work, schedule).Some?
    ensures var s := RunTo(p, work, schedule).value;
            (forall n | n in p.order :: n in s.runs) && |schedule| + StepsLeft(p, s) <= 6 * |p.order| + 1
    ensures |schedule| <= 6 * |p.order| + 1
  {
    var s := RunTo(p, work, schedule).value;
    assert forall n | n in p.order :: n in Elements(p.order);
    if schedule == [] {
      TotalBound(s, p.order);
    } else {
      var before := schedule[..|schedule| - 1];
      SchedulesAreBounded(p, work, before);
      StepShortens(p, work, RunTo(p, work, before).value, schedule[|schedule| - 1]);
    }
  }
}
