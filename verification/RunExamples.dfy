/** The exceptions of the run theorems are real: schedules that take them. */
module RunExamples {
  import opened Results
  import opened Graphs
  import opened Compositions
  import opened CompositionRuns
  import opened Executor
  import opened RunInvariants
  import opened RunTheorems
  import opened RunOutcomes
  import opened FailFast
  import opened RunStatus

  lemma StepsOn(p: Plan, work: Work, schedule: seq<Action>, s: State, a: Action)
    requires ValidPlan(p) && RunTo(p, work, schedule) == Some(s) && Enabled(s, a)
    ensures RunTo(p, work, schedule + [a]) == Some(Step(p, work, s, a))
  {
    var longer := schedule + [a];
    assert longer[..|longer| - 1] == schedule && longer[|longer| - 1] == a;
  }

  lemma OneMoreStep(p: Plan, work: Work, s: State, a: Action)
    requires ValidPlan(p) && Reachable(p, work, s) && Enabled(s, a)
    ensures Reachable(p, work, Step(p, work, s, a))
  {
    var schedule :| RunTo(p, work, schedule) == Some(s);
    StepsOn(p, work, schedule, s, a);
  }

  // ---- A cancelled member that completes --------------------------------------

  /** From any state with a member in the heap whose work succeeds: after some schedule `h` that
      pops it and cancels it, the member reads cancelled; three steps on it has begun, run and
      been reported, and reads completed. */
  lemma CancelledMemberCompletes(p: Plan, work: Work, s: State, n: Id)
    returns (h: seq<Action>, cancelled: State, completed: State)
    requires ValidPlan(p) && Reachable(p, work, s) && n in s.jobs && s.jobs[n].place.InHeap?
    requires work(n, s.jobs[n].kwargs).Some?
    ensures RunTo(p, work, h) == Some(cancelled) && n in cancelled.runs && cancelled.runs[n].state.Cancelled?
    ensures RunTo(p, work, h + [Begin(n), Settle(n, Ran), Report(n)]) == Some(completed)
    ensures n in completed.runs && completed.runs[n].state.Completed?
  {
    assert JobOk(p, work, s, n);
    var h0 :| RunTo(p, work, h0) == Some(s);
    StepsOn(p, work, h0, s, Pop(n));
    var popped := Step(p, work, s, Pop(n));
    StepsOn(p, work, h0 + [Pop(n)], popped, CancelMember(n));
    h := h0 + [Pop(n)] + [CancelMember(n)];
    cancelled := Step(p, work, popped, CancelMember(n));
    CancelLeavesPopped(p, work, popped, n);
    completed := PoppedRunsOn(p, work, h, cancelled, n);
  }

  lemma CancelLeavesPopped(p: Plan, work: Work, s: State, n: Id)
    requires Inv(p, work, s) && n in s.jobs && s.jobs[n].place.Popped? && s.jobs[n].status.Pending?
    ensures var t := Step(p, work, s, CancelMember(n));
            && n in t.runs && t.runs[n].state.Cancelled?
            && n in t.jobs && t.jobs[n].place.Popped? && t.jobs[n].kwargs == s.jobs[n].kwargs
  {
    LossSteps(p, work, s, CancelMember(n));
    LossKeepsInv(p, work, s, n, CancelledJob(s.jobs[n]));
    var t := Step(p, work, s, CancelMember(n));
    var w := WithJob(s, n, CancelledJob(s.jobs[n]));
    LostStays(p, w, n, Cancelled);
    assert t.runs == MemberLost(p, w, n, Cancelled).runs && t.jobs == MemberLost(p, w, n, Cancelled).jobs;
    assert Moved(s, t, n) && JobOk(p, work, t, n);
    LossKeepsOwnJob(p, w, n, Cancelled);
  }

  /** Housekeeping never touches the job of the member that was just lost. */
  lemma LossKeepsOwnJob(p: Plan, s: State, n: Id, outcome: NodeState)
    requires n in s.runs && n in s.jobs && outcome.Terminal()
    ensures n in MemberLost(p, s, n, outcome).jobs && MemberLost(p, s, n, outcome).jobs[n] == s.jobs[n]
  {
    var skipped := s.(runs := SkippedFrom(p.deps, Recorded(s.runs, n, outcome, None), n));
    var stopped := skipped.(runs := CancelUnstarted(skipped.runs));
    assert !Queued(stopped, n);
  }

  lemma PoppedRunsOn(p: Plan, work: Work, h: seq<Action>, s: State, n: Id) returns (t: State)
    requires ValidPlan(p) && RunTo(p, work, h) == Some(s) && n in s.jobs && s.jobs[n].place.Popped?
    requires work(n, s.jobs[n].kwargs).Some?
    ensures RunTo(p, work, h + [Begin(n), Settle(n, Ran), Report(n)]) == Some(t)
    ensures n in t.runs && t.runs[n].state.Completed?
  {
    var settled := PoppedSettles(p, work, h, s, n);
    StepsOn(p, work, h + [Begin(n), Settle(n, Ran)], settled, Report(n));
    ThreeMore(h, Begin(n), Settle(n, Ran), Report(n));
    t := Step(p, work, settled, Report(n));
    ReportCompletes(p, work, settled, n);
  }

  /** A popped job runs to its result before the composition hears of anything. */
  lemma PoppedSettles(p: Plan, work: Work, h: seq<Action>, s: State, n: Id) returns (t: State)
    requires ValidPlan(p) && RunTo(p, work, h) == Some(s) && n in s.jobs && s.jobs[n].place.Popped?
    requires work(n, s.jobs[n].kwargs).Some?
    ensures RunTo(p, work, h + [Begin(n), Settle(n, Ran)]) == Some(t)
    ensures t.runs == s.runs && t.cancelRequested == s.cancelRequested && t.status == s.status
    ensures Enabled(t, Report(n)) && t.jobs[n].status.Completed? && t.jobs[n].result == work(n, s.jobs[n].kwargs)
  {
    BeginThenSettle(p, work, s, n);
    StepsOn(p, work, h, s, Begin(n));
    var begun := Step(p, work, s, Begin(n));
    StepsOn(p, work, h + [Begin(n)], begun, Settle(n, Ran));
    TwoMore(h, Begin(n), Settle(n, Ran));
    t := Step(p, work, begun, Settle(n, Ran));
  }

  lemma ThreeMore(h: seq<Action>, a: Action, b: Action, c: Action)
    ensures h + [a, b] + [c] == h + [a, b, c]
  {
  }

  lemma TwoMore(h: seq<Action>, a: Action, b: Action)
    ensures h + [a] + [b] == h + [a, b]
  {
  }

  lemma BeginThenSettle(p: Plan, work: Work, s: State, n: Id)
    requires Sized(p, s) && n in s.jobs && s.jobs[n].place.Popped? && work(n, s.jobs[n].kwargs).Some?
    ensures var begun := Step(p, work, s, Begin(n));
            && Sized(p, begun) && Enabled(begun, Settle(n, Ran))
            && var t := Step(p, work, begun, Settle(n, Ran));
               && t.runs == s.runs && t.cancelRequested == s.cancelRequested && t.status == s.status
               && Enabled(t, Report(n)) && t.jobs[n].status.Completed? && t.jobs[n].result == work(n, s.jobs[n].kwargs)
  {
  }

  lemma PoppedSettlesSomewhere(p: Plan, work: Work, s: State, n: Id) returns (t: State)
    requires ValidPlan(p) && Reachable(p, work, s) && n in s.jobs && s.jobs[n].place.Popped?
    requires work(n, s.jobs[n].kwargs).Some?
    ensures Reachable(p, work, t)
    ensures t.runs == s.runs && t.cancelRequested == s.cancelRequested && t.status == s.status
    ensures Enabled(t, Report(n)) && t.jobs[n].status.Completed? && t.jobs[n].result == work(n, s.jobs[n].kwargs)
  {
    BeginThenSettle(p, work, s, n);
    OneMoreStep(p, work, s, Begin(n));
    var begun := Step(p, work, s, Begin(n));
    OneMoreStep(p, work, begun, Settle(n, Ran));
    t := Step(p, work, begun, Settle(n, Ran));
  }

  lemma ReportCompletes(p: Plan, work: Work, s: State, n: Id)
    requires Inv(p, work, s) && Derived(p) && Enabled(s, Report(n)) && s.jobs[n].status.Completed?
    ensures n in Step(p, work, s, Report(n)).runs && Step(p, work, s, Report(n)).runs[n].state.Completed?
  {
    var done, started := ReportOfCompletion(p, work, s, n);
    StartReadyLeavesNone(p, work, done);
    assert started.runs[n].state.Completed?;
  }

  // ---- A failed binding that does not stop its siblings ------------------------

  function Echo(): Work {
    (n: Id, kwargs: map<string, Value>) => Some(Dict(map[]))
  }

  /** `a` asks `p` for a key its result does not have; `b` takes the whole result. */
  function ForkPlan(): Plan {
    Plan(["p", "a", "b"], true,
         map["p" := {}, "a" := {"p"}, "b" := {"p"}],
         map["p" := {"a", "b"}, "a" := {}, "b" := {}],
         map["p" := Node("p", []),
             "a" := Node("a", [("x", OutputRef("p", Some("missing")))]),
             "b" := Node("b", [("x", OutputRef("p", None))])])
  }

  lemma ForkNames()
    ensures "p" != "a" && "p" != "b" && "a" != "b"
  {
    assert "p"[0] != "a"[0] && "p"[0] != "b"[0] && "a"[0] != "b"[0];
  }

  lemma ForkWellFormed()
    ensures WellFormed(ForkPlan())
  {
    ForkNames();
    var p := ForkPlan();
    assert p.order[0] == "p" && p.order[1] == "a" && p.order[2] == "b";
    assert Elements(p.order) == {"p", "a", "b"} == p.deps.Keys;
    var r := Reverse(p.deps);
    assert "a" in p.deps && "b" in p.deps && "p" in p.deps;
    assert r["p"] == {"a", "b"} && r["a"] == {} && r["b"] == {};
    assert p.dependents == r;
  }

  lemma ForkDerived()
    ensures Derived(ForkPlan())
  {
    ForkNames();
    var p := ForkPlan();
    assert NodeDependencies(p.nodes["p"]) == {};
    assert NodeDependencies(p.nodes["a"]) == {"p"} by { RefIsDependency(p.nodes["a"], 0); }
    assert NodeDependencies(p.nodes["b"]) == {"p"} by { RefIsDependency(p.nodes["b"], 0); }
  }

  lemma ForkAcyclic()
    ensures Acyclic(ForkPlan().deps)
  {
    ForkNames();
    var rank: map<Id, nat> := map["p" := 0, "a" := 1, "b" := 1];
    assert Ranked(ForkPlan().deps, rank);
    RankedIsAcyclic(ForkPlan().deps, rank);
  }

  lemma ForkValid()
    ensures ValidPlan(ForkPlan())
  {
    ForkWellFormed();
    ForkDerived();
    ForkAcyclic();
  }

  lemma ForkReady(runs: NodeRuns)
    ensures var p := ForkPlan();
            Ready(p, runs) == (if IsReady(p, runs, "p") then ["p"] else [])
                              + (if IsReady(p, runs, "a") then ["a"] else [])
                              + (if IsReady(p, runs, "b") then ["b"] else [])
  {
    var p := ForkPlan();
    assert p.order[..2] == ["p", "a"] && p.order[..2][..1] == ["p"] && ["p"][..0] == [];
    assert ReadyAmong(p, runs, ["p"]) == if IsReady(p, runs, "p") then ["p"] else [];
    assert ReadyAmong(p, runs, ["p", "a"]) == ReadyAmong(p, runs, ["p"]) + if IsReady(p, runs, "a") then ["a"] else [];
  }

  /** With a single ready node, submission is the start of that node. */
  lemma SubmitsOne(p: Plan, work: Work, r: Id)
    requires ValidPlan(p) && p.order != [] && Ready(p, FreshRuns(p)) == [r] && r in p.nodes && p.nodes[r].kwargs == []
    ensures r in FreshRuns(p)
    ensures Reachable(p, work, StartedJob(State(FreshRuns(p), map[], false, Running), r, map[]))
  {
    var none := State(FreshRuns(p), map[], false, Running);
    ReadyMeaning(p, none.runs);
    assert r in [r] && IsReady(p, none.runs, r);
    StartsOne(p, none, r);
    assert Submitted(p) == StartAll(p, none, [r]);
    assert RunTo(p, work, []) == Some(Submitted(p));
  }

  lemma StartsOne(p: Plan, s: State, r: Id)
    requires r in s.runs && r in p.nodes && p.nodes[r].kwargs == []
    ensures StartAll(p, s, [r]) == StartedJob(s, r, map[])
  {
    assert StartAll(p, s, [r]) == StartAll(p, StartOne(p, s, r), [r][1..]);
  }

  /** If of two unlocked siblings the first fails to bind and the second binds, the failure cancels
      the second, and the second runs all the same. */
  lemma SiblingStillStarts(p: Plan, work: Work, s: State, n: Id, x: Id, y: Id)
    requires ValidPlan(p) && p.failFast && Reachable(p, work, s) && !s.cancelRequested
    requires Enabled(s, Report(n)) && s.jobs[n].status.Completed?
    requires Ready(p, Completion(s, n).runs) == [x, y] && x in p.nodes && y in p.nodes
    requires Bind(p.nodes[x].kwargs, ResultsByNode(Completion(s, n).runs)).Err?
    requires Bind(p.nodes[y].kwargs, ResultsByNode(Completion(s, n).runs)).Ok?
    ensures x in Completion(s, n).runs
    ensures var mid, t := StartOne(p, Completion(s, n), x), Step(p, work, s, Report(n));
            && y in mid.runs && mid.runs[y].state.Cancelled?
            && Reachable(p, work, t) && !t.cancelRequested && !Halted(t)
            && x in t.runs && t.runs[x].state.Failed? && y in t.runs && t.runs[y].state.Running?
  {
    OneMoreStep(p, work, s, Report(n));
    FailedBindingHaltsIffLast(p, work, s, n, [x, y]);
    FirstOfTwoFails(p, work, s, n, x, y);
    SecondOfTwoRuns(p, work, s, n, x, y);
  }

  /** What has completed depends only on what has completed. */
  lemma {:induction false} CompletedAllTheWay(p: Plan, work: Work, s: State, path: seq<Id>, i: nat)
    requires Base(p, work, s) && IsPath(p.deps, path) && i < |path|
    requires path[0] in s.runs && s.runs[path[0]].state.Completed?
    ensures path[i] in s.runs && s.runs[path[i]].state.Completed?
  {
    if i > 0 {
      CompletedAllTheWay(p, work, s, path, i - 1);
      assert NodeOk(s, path[i - 1]) && JobOk(p, work, s, path[i - 1]);
      assert path[i - 1 + 1] in p.deps[path[i - 1]];
    }
  }

  lemma ReadyDependsOnNoOther(p: Plan, work: Work, s: State, x: Id, y: Id)
    requires Base(p, work, s) && IsReady(p, s.runs, y) && x in s.runs && s.runs[x].state.Pending?
    ensures !DependsOn(p.deps, y, x)
  {
    forall path | IsPath(p.deps, path) && |path| >= 2 && path[0] == y
      ensures path[|path| - 1] != x
    {
      assert path[0 + 1] in p.deps[path[0]];
      assert IsPath(p.deps, path[1..]);
      CompletedAllTheWay(p, work, s, path[1..], |path| - 2);
    }
  }

  lemma FailureCancelsOther(p: Plan, s: State, x: Id, y: Id)
    requires p.failFast && !s.cancelRequested && x in s.runs && y in s.runs && x != y && s.runs[y].state.Pending?
    requires !DependsOn(p.deps, y, x)
    ensures var t := MemberLost(p, s, x, Failed);
            && y in t.runs && t.runs[y].state.Cancelled?
  {
  }

  lemma FirstOfTwoFails(p: Plan, work: Work, s: State, n: Id, x: Id, y: Id)
    requires Inv(p, work, s) && Derived(p) && !s.cancelRequested
    requires Enabled(s, Report(n)) && s.jobs[n].status.Completed?
    requires Ready(p, Completion(s, n).runs) == [x, y] && x in p.nodes && y in p.nodes
    requires Bind(p.nodes[x].kwargs, ResultsByNode(Completion(s, n).runs)).Err?
    ensures var t := Step(p, work, s, Report(n));
            !t.cancelRequested && x in t.runs && t.runs[x].state.Failed?
  {
    var done, started := ReportOfCompletion(p, work, s, n);
    StartReadyLeavesNone(p, work, done);
    TwoReady(p, done.runs, x, y);
    FirstStaysFailed(p, done, x, y);
  }

  lemma TwoReady(p: Plan, runs: NodeRuns, x: Id, y: Id)
    requires WellFormed(p) && Ready(p, runs) == [x, y]
    ensures x != y && IsReady(p, runs, x) && IsReady(p, runs, y)
  {
    ReadyMeaning(p, runs);
    assert [x, y][0] == x && [x, y][1] == y && x in [x, y] && y in [x, y];
  }

  lemma SiblingCancelled(p: Plan, work: Work, s: State, x: Id, y: Id)
    requires Core(p, work, s) && p.failFast && !s.cancelRequested && x != y
    requires IsReady(p, s.runs, x) && IsReady(p, s.runs, y) && x in p.nodes && Startable(p, s, x)
    requires Bind(p.nodes[x].kwargs, ResultsByNode(s.runs)).Err?
    ensures var mid := StartOne(p, s, x);
            && y in mid.runs && mid.runs[y].state.Cancelled? && ResultsByNode(mid.runs) == ResultsByNode(s.runs)
  {
    ReadyDependsOnNoOther(p, work, s, x, y);
    FailureCancelsOther(p, s, x, y);
    StartOneKeepsCore(p, work, s, x);
  }

  lemma StartsBound(p: Plan, s: State, y: Id)
    requires y in s.runs && y in p.nodes && Bind(p.nodes[y].kwargs, ResultsByNode(s.runs)).Ok?
    ensures y in StartOne(p, s, y).runs && StartOne(p, s, y).runs[y].state.Running?
  {
  }

  lemma StartsTwo(p: Plan, s: State, x: Id, y: Id)
    requires x in s.runs && y in s.runs && x in p.nodes && y in p.nodes
    requires y in StartOne(p, s, x).runs
    ensures (forall n | n in [x, y] :: n in s.runs && n in p.nodes)
    ensures StartAll(p, s, [x, y]) == StartOne(p, StartOne(p, s, x), y)
  {
    var mid := StartOne(p, s, x);
    assert [x, y][1..] == [y] && [y][1..] == [];
    assert StartAll(p, mid, [y]) == StartAll(p, StartOne(p, mid, y), []);
  }

  lemma SecondOfTwoRuns(p: Plan, work: Work, s: State, n: Id, x: Id, y: Id)
    requires Inv(p, work, s) && Derived(p) && p.failFast && !s.cancelRequested
    requires Enabled(s, Report(n)) && s.jobs[n].status.Completed?
    requires Ready(p, Completion(s, n).runs) == [x, y] && x in p.nodes && y in p.nodes
    requires Bind(p.nodes[x].kwargs, ResultsByNode(Completion(s, n).runs)).Err?
    requires Bind(p.nodes[y].kwargs, ResultsByNode(Completion(s, n).runs)).Ok?
    ensures x in Completion(s, n).runs
    ensures var mid, t := StartOne(p, Completion(s, n), x), Step(p, work, s, Report(n));
            && y in mid.runs && mid.runs[y].state.Cancelled? && y in t.runs && t.runs[y].state.Running?
  {
    var done, started := ReportOfCompletion(p, work, s, n);
    TwoReady(p, done.runs, x, y);
    ReadyBatch(p, work, done);
    assert x in [x, y];
    SecondOfBatchRuns(p, work, done, x, y);
  }

  lemma SecondOfBatchRuns(p: Plan, work: Work, s: State, x: Id, y: Id)
    requires Core(p, work, s) && p.failFast && !s.cancelRequested && x != y
    requires IsReady(p, s.runs, x) && IsReady(p, s.runs, y) && x in p.nodes && y in p.nodes && Startable(p, s, x)
    requires Bind(p.nodes[x].kwargs, ResultsByNode(s.runs)).Err? && Bind(p.nodes[y].kwargs, ResultsByNode(s.runs)).Ok?
    ensures forall n | n in [x, y] :: n in s.runs && n in p.nodes
    ensures var mid, t := StartOne(p, s, x), StartAll(p, s, [x, y]);
            && y in mid.runs && mid.runs[y].state.Cancelled? && y in t.runs && t.runs[y].state.Running?
  {
    SiblingCancelled(p, work, s, x, y);
    StartsTwo(p, s, x, y);
    StartsBound(p, StartOne(p, s, x), y);
  }

  lemma FirstStaysFailed(p: Plan, s: State, x: Id, y: Id)
    requires x in s.runs && y in s.runs && x != y && x in p.nodes && y in p.nodes
    requires Bind(p.nodes[x].kwargs, ResultsByNode(s.runs)).Err?
    ensures x in StartAll(p, s, [x, y]).runs && StartAll(p, s, [x, y]).runs[x].state.Failed?
  {
    var mid := StartOne(p, s, x);
    LosingIsFinal(p, s, x, Failed);
    assert [x, y][1..] == [y];
    StartingIsFinal(p, mid, [y]);
  }

  /** Under fail-fast `a` fails to bind and `b`, listed after it, is started nevertheless. */
  lemma FailedBindingLeavesSiblingWaiting() returns (s: State)
    ensures ValidPlan(ForkPlan()) && ForkPlan().failFast && Reachable(ForkPlan(), Echo(), s) && !s.cancelRequested
    ensures "a" in s.runs && s.runs["a"].state.Failed? && !Halted(s)
  {
    var p := ForkPlan();
    var settled := ForkSettles();
    var done := Completion(settled, "p");
    ForkUnlocks(done.runs);
    SiblingStillStarts(p, Echo(), settled, "p", "a", "b");
    s := Step(p, Echo(), settled, Report("p"));
  }

  lemma ForkFresh()
    ensures ValidPlan(ForkPlan()) && Ready(ForkPlan(), FreshRuns(ForkPlan())) == ["p"]
  {
    ForkNames();
    ForkValid();
    ForkReady(FreshRuns(ForkPlan()));
  }

  /** `p` has been started and popped. */
  function ForkPoppedJob(): Job { Job(Pending, Popped, map[], None) }

  lemma ForkPops() returns (s: State)
    ensures ValidPlan(ForkPlan()) && Reachable(ForkPlan(), Echo(), s)
    ensures s == State(Started(FreshRuns(ForkPlan()), "p", "p"), map["p" := ForkPoppedJob()], false, Running)
  {
    ForkFresh();
    var p := ForkPlan();
    SubmitsOne(p, Echo(), "p");
    s := PopsOnly(p, Echo(), State(FreshRuns(p), map[], false, Running), "p");
  }

  lemma PopsOnly(p: Plan, work: Work, s: State, n: Id) returns (t: State)
    requires ValidPlan(p) && n in s.runs && s.jobs == map[] && Reachable(p, work, StartedJob(s, n, map[]))
    ensures Reachable(p, work, t) && t == s.(runs := Started(s.runs, n, n), jobs := map[n := ForkPoppedJob()])
  {
    OneMoreStep(p, work, StartedJob(s, n, map[]), Pop(n));
    t := s.(runs := Started(s.runs, n, n), jobs := map[n := ForkPoppedJob()]);
    PopIs(p, work, s, n);
  }

  lemma PopIs(p: Plan, work: Work, s: State, n: Id)
    requires n in s.runs && s.jobs == map[] && Sized(p, StartedJob(s, n, map[]))
    ensures Step(p, work, StartedJob(s, n, map[]), Pop(n))
            == s.(runs := Started(s.runs, n, n), jobs := map[n := ForkPoppedJob()])
  {
  }

  lemma ForkSettles() returns (s: State)
    ensures ValidPlan(ForkPlan()) && Reachable(ForkPlan(), Echo(), s) && !s.cancelRequested
    ensures Enabled(s, Report("p")) && s.jobs["p"].status.Completed? && s.jobs["p"].result == Some(Dict(map[]))
    ensures s.runs == Started(FreshRuns(ForkPlan()), "p", "p")
  {
    var popped := ForkPops();
    s := PoppedSettlesSomewhere(ForkPlan(), Echo(), popped, "p");
  }

  lemma ForkUnlocks(runs: NodeRuns)
    requires runs == Recorded(Started(FreshRuns(ForkPlan()), "p", "p"), "p", Completed, Some(Dict(map[])))
    ensures Ready(ForkPlan(), runs) == ["a", "b"]
    ensures Bind(ForkPlan().nodes["a"].kwargs, ResultsByNode(runs)).Err?
    ensures Bind(ForkPlan().nodes["b"].kwargs, ResultsByNode(runs)).Ok?
  {
    ForkNames();
    ForkReady(runs);
    ForkBinds(runs);
  }

  lemma ForkBinds(runs: NodeRuns)
    requires "p" in runs && runs["p"].state.Completed? && runs["p"].result == Some(Dict(map[]))
    ensures Bind(ForkPlan().nodes["a"].kwargs, ResultsByNode(runs)).Err?
    ensures Bind(ForkPlan().nodes["b"].kwargs, ResultsByNode(runs)).Ok?
  {
    ForkNames();
    var results := ResultsByNode(runs);
    assert results["p"] == Dict(map[]);
    var a, b := ForkPlan().nodes["a"].kwargs, ForkPlan().nodes["b"].kwargs;
    assert BindArg(a[0].1, results).Err? && BindArg(b[0].1, results).Ok?;
    BindSucceeds(a, results);
    BindSucceeds(b, results);
  }

  // ---- A skip without a cause, and a status that no member tells ----------------

  /** `p` has just been lost as cancelled, before `a` and `b` could start. */
  function ForkCancelled(): NodeRuns {
    map["p" := NodeRun(Cancelled, Some("p"), None),
        "a" := NodeRun(Skipped, None, None), "b" := NodeRun(Skipped, None, None)]
  }

  lemma ForkLoses(s: State)
    requires s.runs == Started(FreshRuns(ForkPlan()), "p", "p") && !s.cancelRequested && s.status.Running?
    requires s.jobs.Keys == {"p"} && s.jobs["p"].status.Cancelled?
    ensures var t := Finalized(ForkPlan(), MemberLost(ForkPlan(), s, "p", Cancelled));
            t.runs == ForkCancelled() && t.jobs == s.jobs && t.status.Cancelled? && !t.cancelRequested
  {
    ForkNames();
    ForkStarted();
    var p := ForkPlan();
    EdgeIsDependency(p.deps, "a", "p");
    EdgeIsDependency(p.deps, "b", "p");
    var skipped := SkippedFrom(p.deps, Recorded(s.runs, "p", Cancelled, None), "p");
    assert skipped == ForkCancelled();
    ForkHousekeeps(s.(runs := skipped));
    assert ForkCancelled()["p"].state == Cancelled;
  }

  lemma ForkStarted()
    ensures Started(FreshRuns(ForkPlan()), "p", "p")
            == map["p" := NodeRun(Running, Some("p"), None),
                   "a" := NodeRun(Pending, None, None), "b" := NodeRun(Pending, None, None)]
  {
    ForkNames();
  }

  lemma ForkHousekeeps(s: State)
    requires s.runs == ForkCancelled() && s.jobs.Keys == {"p"}
    ensures Housekept(ForkPlan(), s) == s
  {
    ForkNames();
    assert CancelUnstarted(s.runs) == s.runs;
  }

  lemma ForkCancels() returns (s: State)
    ensures ValidPlan(ForkPlan()) && Reachable(ForkPlan(), Echo(), s)
    ensures s.runs == ForkCancelled() && s.status.Cancelled? && !s.cancelRequested
    ensures "p" in s.jobs && s.jobs["p"].place.Popped?
  {
    var popped := ForkPops();
    OneMoreStep(ForkPlan(), Echo(), popped, CancelMember("p"));
    s := Step(ForkPlan(), Echo(), popped, CancelMember("p"));
    ForkCancelStep(popped);
  }

  lemma ForkCancelStep(s: State)
    requires Inv(ForkPlan(), Echo(), s) && Enabled(s, CancelMember("p"))
    requires s == State(Started(FreshRuns(ForkPlan()), "p", "p"), map["p" := ForkPoppedJob()], false, Running)
    ensures var t := Step(ForkPlan(), Echo(), s, CancelMember("p"));
            && t.runs == ForkCancelled() && t.status.Cancelled? && !t.cancelRequested
            && "p" in t.jobs && t.jobs["p"].place.Popped?
  {
    LossSteps(ForkPlan(), Echo(), s, CancelMember("p"));
    ForkAdvances(s);
  }

  lemma ForkAdvances(s: State)
    requires Sized(ForkPlan(), s)
    requires s == State(Started(FreshRuns(ForkPlan()), "p", "p"), map["p" := ForkPoppedJob()], false, Running)
    ensures "p" in s.runs
    ensures var t := Advanced(ForkPlan(), WithJob(s, "p", CancelledJob(s.jobs["p"])), "p");
            && t.runs == ForkCancelled() && t.status.Cancelled? && !t.cancelRequested
            && "p" in t.jobs && t.jobs["p"].place.Popped?
  {
    ForkStarted();
    ForkLoses(WithJob(s, "p", CancelledJob(s.jobs["p"])));
  }

  /** After all `p` completes: `a` and `b` stay skipped with nothing lost above them, and the run
      keeps saying that it was cancelled, which no member says any more. */
  lemma RevivalLeavesSkipsUncaused() returns (s: State)
    ensures ValidPlan(ForkPlan()) && Reachable(ForkPlan(), Echo(), s) && AllTerminal(s.runs) && !s.cancelRequested
    ensures "a" in s.runs && s.runs["a"].state.Skipped? && !SkipsCaused(ForkPlan(), s)
    ensures s.status.Cancelled? && DeriveTerminalStatus(true, false, s.runs).Completed?
  {
    var p := ForkPlan();
    var cancelled := ForkCancels();
    var settled := PoppedSettlesSomewhere(p, Echo(), cancelled, "p");
    OneMoreStep(p, Echo(), settled, Report("p"));
    RevivalSteps(p, Echo(), settled, "p");
    s := Step(p, Echo(), settled, Report("p"));
    ForkRevived(settled, s);
  }

  lemma ForkRevived(settled: State, s: State)
    requires settled.runs == ForkCancelled() && settled.status.Cancelled?
    requires "p" in settled.jobs && s == Finalized(ForkPlan(), Completion(settled, "p"))
    ensures AllTerminal(s.runs) && s.status.Cancelled? && DeriveTerminalStatus(true, false, s.runs).Completed?
    ensures "a" in s.runs && s.runs["a"].state.Skipped? && !SkipsCaused(ForkPlan(), s)
  {
    ForkNames();
    assert s.runs.Keys == {"p", "a", "b"} && s.runs["p"].state.Completed?;
    assert forall n | n in s.runs :: !Lost(s.runs[n].state);
    assert !Caused(ForkPlan(), s, "a");
  }
}
