/** Runs without housekeeping do not depend on the schedule: left alone, every schedule that
    ends comes to the recursive evaluation of the graph. */
module Schedules {
  import opened Results
  import opened Graphs
  import opened Compositions
  import opened CompositionRuns
  import opened Executor
  import opened RunInvariants
  import opened RunTheorems

  /** Nobody cancels or refuses a member, and every job ends as its work decides. */
  predicate LeftAlone(schedule: seq<Action>) {
    forall i | 0 <= i < |schedule| ::
      schedule[i].Pop? || schedule[i].Begin? || schedule[i].Report? || (schedule[i].Settle? && schedule[i].how.Ran?)
  }

  /** What depends on a node that yields nothing never runs. */
  lemma {:induction false} NeverRunsAbove(p: Plan, work: Work, m: Id, n: Id)
    requires Levelled(p) && n in p.nodes && m in p.nodes && DependsOn(p.deps, m, n) && !Eval(p, work, n).Yields?
    ensures Eval(p, work, m).NeverRuns?
    decreases Rank(p.deps, m)
  {
    var k := DependsOnFirstStep(p.deps, m, n);
    if k != n {
      NeverRunsAbove(p, work, k, n);
    }
  }

  /** Fail-fast is off, or has nothing to react to. */
  ghost predicate NoHousekeeping(p: Plan, work: Work)
    requires Levelled(p)
  {
    p.failFast ==> forall n | n in p.nodes :: !Eval(p, work, n).Breaks?
  }

  ghost predicate HonestNode(p: Plan, work: Work, s: State, n: Id)
    requires Levelled(p) && n in p.nodes && n in s.runs
  {
    && !s.runs[n].state.Cancelled?
    && (s.runs[n].state.Failed? ==> Eval(p, work, n).Breaks?)
    && (s.runs[n].state.Skipped? ==> Eval(p, work, n).NeverRuns?)
    && (n in s.jobs ==> !s.jobs[n].status.Cancelled? && (s.jobs[n].status.Failed? ==> work(n, s.jobs[n].kwargs).None?))
  }

  ghost predicate Honest(p: Plan, work: Work, s: State)
    requires Levelled(p)
  {
    && s.runs.Keys == p.nodes.Keys && !s.cancelRequested
    && forall n {:trigger HonestNode(p, work, s, n)} | n in s.runs :: HonestNode(p, work, s, n)
  }

  /** Recording a node that breaks only skips what never runs. */
  lemma HonestLoss(p: Plan, work: Work, s: State, n: Id)
    requires Levelled(p) && NoHousekeeping(p, work) && Honest(p, work, s) && n in s.runs && Eval(p, work, n).Breaks?
    ensures Honest(p, work, MemberLost(p, s, n, Failed))
  {
    var t := MemberLost(p, s, n, Failed);
    forall m | m in t.runs
      ensures HonestNode(p, work, t, m)
    {
      assert HonestNode(p, work, s, m);
      if m != n && DependsOn(p.deps, m, n) {
        NeverRunsAbove(p, work, m, n);
      }
    }
  }

  lemma HonestStart(p: Plan, work: Work, s: State, n: Id)
    requires Levelled(p) && NoHousekeeping(p, work) && Honest(p, work, s) && Core(p, work, s) && Startable(p, s, n)
    ensures Honest(p, work, StartOne(p, s, n))
  {
    var t := StartOne(p, s, n);
    CompletedDepsEvaluated(p, work, s, n);
    EvaluatedInputs(p, work, s, n);
    if Bind(p.nodes[n].kwargs, ResultsByNode(s.runs)).Err? {
      HonestLoss(p, work, s, n);
    } else {
      forall m | m in t.runs
        ensures HonestNode(p, work, t, m)
      {
        assert HonestNode(p, work, s, m);
      }
    }
  }

  lemma {:induction false} HonestStarts(p: Plan, work: Work, s: State, ready: seq<Id>)
    requires Levelled(p) && NoHousekeeping(p, work) && Honest(p, work, s) && Core(p, work, s) && Batch(p, s, ready)
    requires forall n | n in ready :: n in s.runs && n in p.nodes
    ensures Honest(p, work, StartAll(p, s, ready))
    decreases |ready|
  {
    if ready != [] {
      var n := ready[0];
      assert Startable(p, s, n) by { assert n in ready; }
      var mid := StartOne(p, s, n);
      StartOneKeepsCore(p, work, s, n);
      HonestStart(p, work, s, n);
      BatchShrinks(p, s, mid, ready);
      HonestStarts(p, work, mid, ready[1..]);
    }
  }

  lemma HonestStatus(p: Plan, work: Work, s: State)
    requires Levelled(p) && Honest(p, work, s)
    ensures Honest(p, work, Finalized(p, s))
  {
    forall m | m in s.runs
      ensures HonestNode(p, work, Finalized(p, s), m)
    {
      assert HonestNode(p, work, s, m);
    }
  }

  lemma HonestQuietStep(p: Plan, work: Work, s: State, n: Id, j: Job)
    requires Levelled(p) && Honest(p, work, s) && n in s.jobs && n in s.runs
    requires !j.status.Cancelled? && (j.status.Failed? ==> work(n, j.kwargs).None?)
    ensures Honest(p, work, WithJob(s, n, j))
  {
    forall m | m in s.runs
      ensures HonestNode(p, work, WithJob(s, n, j), m)
    {
      assert HonestNode(p, work, s, m);
    }
  }

  lemma HonestFailure(p: Plan, work: Work, s: State, n: Id)
    requires Levelled(p) && NoHousekeeping(p, work) && Inv(p, work, s) && Honest(p, work, s)
    requires Enabled(s, Report(n)) && !s.jobs[n].status.Completed?
    ensures Honest(p, work, Step(p, work, s, Report(n)))
  {
    assert JobOk(p, work, s, n) && HonestNode(p, work, s, n);
    var j := s.jobs[n].(place := Done);
    CompletedDepsEvaluated(p, work, s, n);
    EvaluatedInputs(p, work, s, n);
    HonestQuietStep(p, work, s, n, j);
    HonestLoss(p, work, WithJob(s, n, j), n);
    HonestStatus(p, work, MemberLost(p, WithJob(s, n, j), n, Failed));
  }

  lemma HonestCompletion(p: Plan, work: Work, s: State, n: Id)
    requires Levelled(p) && NoHousekeeping(p, work) && Inv(p, work, s) && Honest(p, work, s)
    requires Enabled(s, Report(n)) && s.jobs[n].status.Completed?
    ensures Honest(p, work, Step(p, work, s, Report(n)))
  {
    var done, t := ReportOfCompletion(p, work, s, n);
    forall m | m in done.runs
      ensures HonestNode(p, work, done, m)
    {
      assert HonestNode(p, work, s, m);
    }
    ReadyBatch(p, work, done);
    HonestStarts(p, work, done, Ready(p, done.runs));
    HonestStatus(p, work, t);
  }

  lemma HonestSubmission(p: Plan, work: Work)
    requires ValidPlan(p) && Levelled(p) && NoHousekeeping(p, work)
    ensures Honest(p, work, Submitted(p))
  {
    var s := State(FreshRuns(p), map[], false, Running);
    FreshCore(p, work);
    assert forall m | m in s.runs :: HonestNode(p, work, s, m);
    if p.order == [] {
      assert Submitted(p).runs.Keys == {} by { assert Elements(p.order) == {}; }
    } else {
      ReadyMeaning(p, s.runs);
      ReadyBatch(p, work, s);
      HonestStarts(p, work, s, Ready(p, s.runs));
    }
  }

  lemma {:induction false} RunsAreHonest(p: Plan, work: Work, schedule: seq<Action>)
    requires ValidPlan(p) && Levelled(p) && NoHousekeeping(p, work) && LeftAlone(schedule)
    requires RunTo(p, work, schedule).Some?
    ensures Honest(p, work, RunTo(p, work, schedule).value)
  {
    if schedule == [] {
      HonestSubmission(p, work);
    } else {
      var before, a := schedule[..|schedule| - 1], schedule[|schedule| - 1];
      RunsAreHonest(p, work, before);
      var s := RunTo(p, work, before).value;
      assert JobOk(p, work, s, a.n) && HonestNode(p, work, s, a.n);
      var j := s.jobs[a.n];
      match a
      case Pop(n) => HonestQuietStep(p, work, s, n, j.(place := Popped));
      case Begin(n) => HonestQuietStep(p, work, s, n, j.(place := Executing, status := Running));
      case Settle(n, how) => HonestQuietStep(p, work, s, n, SettledJob(work, n, j, how));
      case Report(n) =>
        if j.status.Completed? { HonestCompletion(p, work, s, n); } else { HonestFailure(p, work, s, n); }
    }
  }

  // ---- The end of a run ------------------------------------------------------

  function StateFor(v: Verdict): NodeState {
    match v case Yields(_) => Completed case Breaks => Failed case NeverRuns => Skipped
  }

  ghost function Verdicts(p: Plan, work: Work): map<Id, Verdict>
    requires Levelled(p)
  {
    map n | n in p.nodes :: Eval(p, work, n)
  }

  function Yielded(v: map<Id, Verdict>): map<Id, Value> {
    map n | n in v && v[n].Yields? :: v[n].value
  }

  /** The node ended as its evaluation says. */
  predicate EndedAs(r: NodeRun, v: Verdict) {
    r.state == StateFor(v) && (v.Yields? ==> r.result == Some(v.value))
  }

  lemma HonestEnd(p: Plan, work: Work, s: State, n: Id)
    requires Levelled(p) && Base(p, work, s) && Honest(p, work, s) && n in s.runs && s.runs[n].state.Terminal()
    ensures EndedAs(s.runs[n], Eval(p, work, n))
  {
    assert HonestNode(p, work, s, n);
    if s.runs[n].state.Completed? {
      CompletedAsEvaluated(p, work, s, n);
    }
  }

  /** A run that is left alone and has no fail-fast housekeeping ends, whatever its schedule,
      with every node in the state its evaluation gives it and exactly the evaluated results. */
  lemma EndsAsEvaluated(p: Plan, work: Work, schedule: seq<Action>)
    requires ValidPlan(p) && Levelled(p) && NoHousekeeping(p, work)
    requires LeftAlone(schedule) && RunTo(p, work, schedule).Some?
    requires AllTerminal(RunTo(p, work, schedule).value.runs)
    ensures var s := RunTo(p, work, schedule).value;
            && s.runs.Keys == p.nodes.Keys
            && (forall n | n in s.runs :: EndedAs(s.runs[n], Verdicts(p, work)[n]))
            && ResultsByNode(s.runs) == Yielded(Verdicts(p, work))
  {
    RunsAreHonest(p, work, schedule);
    EndStateAsEvaluated(p, work, RunTo(p, work, schedule).value);
  }

  lemma EndStateAsEvaluated(p: Plan, work: Work, s: State)
    requires Levelled(p) && Base(p, work, s) && Honest(p, work, s) && AllTerminal(s.runs)
    ensures forall n | n in s.runs :: EndedAs(s.runs[n], Verdicts(p, work)[n])
    ensures ResultsByNode(s.runs) == Yielded(Verdicts(p, work))
  {
    forall n | n in s.runs
      ensures EndedAs(s.runs[n], Verdicts(p, work)[n])
    {
      HonestEnd(p, work, s, n);
    }
    ResultsOfEnd(s.runs, Verdicts(p, work));
  }

  lemma ResultsOfEnd(runs: NodeRuns, v: map<Id, Verdict>)
    requires runs.Keys == v.Keys && forall n | n in runs :: EndedAs(runs[n], v[n])
    ensures ResultsByNode(runs) == Yielded(v)
  {
  }

  /** Two schedules of one composition cannot disagree. */
  lemma SchedulesAgree(p: Plan, work: Work, one: seq<Action>, other: seq<Action>)
    requires ValidPlan(p) && Levelled(p) && NoHousekeeping(p, work) && LeftAlone(one) && LeftAlone(other)
    requires RunTo(p, work, one).Some? && AllTerminal(RunTo(p, work, one).value.runs)
    requires RunTo(p, work, other).Some? && AllTerminal(RunTo(p, work, other).value.runs)
    ensures var s, t := RunTo(p, work, one).value, RunTo(p, work, other).value;
            && s.runs.Keys == t.runs.Keys && (forall n | n in s.runs :: s.runs[n].state == t.runs[n].state)
            && ResultsByNode(s.runs) == ResultsByNode(t.runs)
  {
    EndsAsEvaluated(p, work, one);
    EndsAsEvaluated(p, work, other);
  }
}
