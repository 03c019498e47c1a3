/** How often a node changes its state. */
module RunTransitions {
  import opened Results
  import opened Graphs
  import opened Compositions
  import opened CompositionRuns
  import opened Executor
  import opened RunInvariants
  import opened RunTheorems
  import opened RunOutcomes

  /** How far a node still is from a terminal state. */
  function Height(s: State, n: Id): nat
    requires n in s.runs
  {
    if s.runs[n].state.Pending? then 2 else if s.runs[n].state.Running? then 1 else 0
  }

  predicate RevivesNode(s: State, a: Action, n: Id)
    requires Enabled(s, a)
  {
    Revives(s, a) && a.n == n
  }

  lemma StartOneKeepsJobs(p: Plan, s: State, n: Id)
    requires n in s.runs && n in p.nodes
    ensures StartOne(p, s, n).runs.Keys == s.runs.Keys && s.jobs.Keys <= StartOne(p, s, n).jobs.Keys
  {
  }

  lemma {:induction false} StartAllKeepsJobs(p: Plan, s: State, ready: seq<Id>)
    requires forall n | n in ready :: n in s.runs && n in p.nodes
    ensures s.jobs.Keys <= StartAll(p, s, ready).jobs.Keys
    decreases |ready|
  {
    if ready != [] {
      assert ready[0] in ready && forall m | m in ready[1..] :: m in ready;
      StartOneKeepsJobs(p, s, ready[0]);
      StartAllKeepsJobs(p, StartOne(p, s, ready[0]), ready[1..]);
    }
  }

  /** No job is forgotten. */
  lemma StepKeepsJobs(p: Plan, work: Work, s: State, a: Action)
    requires Inv(p, work, s) && Derived(p) && Enabled(s, a)
    ensures s.jobs.Keys <= Step(p, work, s, a).jobs.Keys
  {
    if LosesMember(s, a) {
      LossSteps(p, work, s, a);
      LossKeepsInv(p, work, s, a.n, LostJob(s, a));
    } else if a.Report? {
      var done, t := ReportOfCompletion(p, work, s, a.n);
      StartAllKeepsJobs(p, done, Ready(p, done.runs));
    }
  }

  /** A step leaves every terminal node but its own alone. */
  lemma StepChangesItsNode(p: Plan, work: Work, s: State, a: Action)
    requires Inv(p, work, s) && Derived(p) && Enabled(s, a) && !a.CancelRun?
    ensures a.n in s.jobs && FinalBut(s, Step(p, work, s, a), a.n)
  {
    if LosesMember(s, a) {
      LossChangesOnlyNode(p, work, s, a);
    } else if a.Report? {
      CompletionRuns(p, work, s, a.n);
    }
  }

  lemma NothingTurnsPending(p: Plan, work: Work, s: State, t: State, m: Id)
    requires Base(p, work, s) && Base(p, work, t) && s.jobs.Keys <= t.jobs.Keys && m in s.runs && m in t.runs
    requires s.runs[m].state.Terminal() && m !in s.jobs ==> t.runs[m].state == s.runs[m].state
    requires t.runs[m].state.Pending?
    ensures s.runs[m].state.Pending?
  {
    assert NodeOk(s, m) && NodeOk(t, m);
  }

  /** A node's state moves towards a terminal one or stays, unless the node is revived. */
  lemma StepLowers(p: Plan, work: Work, s: State, a: Action, n: Id)
    requires Inv(p, work, s) && Derived(p) && Enabled(s, a) && n in s.runs
    ensures var t := Step(p, work, s, a);
            && n in t.runs
            && (t.runs[n].state == s.runs[n].state || Height(t, n) < Height(s, n) || RevivesNode(s, a, n))
  {
    var t := Step(p, work, s, a);
    StepKeepsInv(p, work, s, a);
    StepKeepsJobs(p, work, s, a);
    StepIsFinal(p, work, s, a);
    if !a.CancelRun? { StepChangesItsNode(p, work, s, a); }
    if t.runs[n].state.Pending? { NothingTurnsPending(p, work, s, t, n); }
  }

  /** How many steps of the schedule change the node's state, and how many of them revive it. */
  ghost function Changes(p: Plan, work: Work, schedule: seq<Action>, n: Id): nat
    requires ValidPlan(p) && RunTo(p, work, schedule).Some?
  {
    if schedule == [] then 0
    else
      var before := schedule[..|schedule| - 1];
      var s, t := RunTo(p, work, before).value, RunTo(p, work, schedule).value;
      Changes(p, work, before, n)
      + if n in s.runs && n in t.runs && t.runs[n].state != s.runs[n].state then 1 else 0
  }

  ghost function Revivals(p: Plan, work: Work, schedule: seq<Action>, n: Id): nat
    requires ValidPlan(p) && RunTo(p, work, schedule).Some?
  {
    if schedule == [] then 0
    else
      var before, a := schedule[..|schedule| - 1], schedule[|schedule| - 1];
      Revivals(p, work, before, n) + if RevivesNode(RunTo(p, work, before).value, a, n) then 1 else 0
  }

  /** On every schedule a node changes its state at most twice, and once more each time it is revived. */
  lemma {:induction false} AtMostTwoChanges(p: Plan, work: Work, schedule: seq<Action>, n: Id)
    requires ValidPlan(p) && RunTo(p, work, schedule).Some? && n in p.deps
    ensures n in RunTo(p, work, schedule).value.runs
    ensures Changes(p, work, schedule, n) + Height(RunTo(p, work, schedule).value, n) <= 2 + Revivals(p, work, schedule, n)
  {
    if schedule != [] {
      var before, a := schedule[..|schedule| - 1], schedule[|schedule| - 1];
      AtMostTwoChanges(p, work, before, n);
      RevivedIsLow(p, work, RunTo(p, work, before).value, a, n);
      StepLowers(p, work, RunTo(p, work, before).value, a, n);
    }
  }

  /** A revived node takes a terminal state again. */
  lemma RevivedIsLow(p: Plan, work: Work, s: State, a: Action, n: Id)
    requires Inv(p, work, s) && Derived(p) && Enabled(s, a) && n in s.runs
    ensures RevivesNode(s, a, n) ==> n in Step(p, work, s, a).runs && Height(Step(p, work, s, a), n) == 0
  {
    if RevivesNode(s, a, n) {
      assert JobOk(p, work, s, n);
      if LosesMember(s, a) { LossChangesOnlyNode(p, work, s, a); } else { CompletionRuns(p, work, s, n); }
    }
  }
}
