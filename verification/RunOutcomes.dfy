/** How runs end: when terminal states and fail-fast hold to the letter, why members are
    skipped, what the final status says, and that best-effort runs do not depend on the
    schedule. */
module RunOutcomes {
  import opened Results
  import opened Graphs
  import opened Compositions
  import opened CompositionRuns
  import opened Executor
  import opened RunInvariants
  import opened RunTheorems

  // ---- Terminal states are final, except for jobs cancelled on their way out of the heap ----

  /** The step reports a job that was cancelled after the dispatch loop had popped it: its node
      already reads cancelled, and now takes the job's own outcome. */
  predicate Revives(s: State, a: Action)
    requires Enabled(s, a)
  {
    (a.Report? || a.Refuse?) && a.n in s.runs && s.runs[a.n].state.Cancelled?
    && (a.Report? ==> !s.jobs[a.n].status.Cancelled?)
  }

  /** Every terminal node but n keeps its state. */
  predicate FinalBut(s: State, t: State, n: Id) {
    t.runs.Keys == s.runs.Keys
    && forall m | m in s.runs && s.runs[m].state.Terminal() && m != n :: t.runs[m].state == s.runs[m].state
  }

  predicate Final(s: State, t: State) {
    t.runs.Keys == s.runs.Keys
    && forall m | m in s.runs && s.runs[m].state.Terminal() :: t.runs[m].state == s.runs[m].state
  }

  lemma HousekeepingIsFinal(p: Plan, s: State)
    ensures Final(s, Housekept(p, s))
  {
    var stopped := s.(runs := CancelUnstarted(s.runs));
    assert Final(s, stopped) && Final(stopped, CancelQueued(stopped));
  }

  lemma LosingIsFinal(p: Plan, s: State, n: Id, outcome: NodeState)
    requires n in s.runs && outcome.Terminal()
    ensures FinalBut(s, MemberLost(p, s, n, outcome), n)
    ensures MemberLost(p, s, n, outcome).runs[n].state == outcome
  {
    var skipped := s.(runs := SkippedFrom(p.deps, Recorded(s.runs, n, outcome, None), n));
    assert FinalBut(s, skipped, n);
    HousekeepingIsFinal(p, skipped);
    LostStays(p, s, n, outcome);
  }

  lemma {:induction false} StartingIsFinal(p: Plan, s: State, ready: seq<Id>)
    requires forall n | n in ready :: n in s.runs && n in p.nodes
    ensures var t := StartAll(p, s, ready);
            t.runs.Keys == s.runs.Keys
            && forall m | m in s.runs && s.runs[m].state.Terminal() && m !in ready :: t.runs[m].state == s.runs[m].state
    decreases |ready|
  {
    if ready != [] {
      var n, rest := ready[0], ready[1..];
      assert n in ready && forall m | m in rest :: m in ready;
      StartingOneIsFinal(p, s, n);
      StartingIsFinal(p, StartOne(p, s, n), rest);
    }
  }

  lemma StartingOneIsFinal(p: Plan, s: State, n: Id)
    requires n in s.runs && n in p.nodes
    ensures FinalBut(s, StartOne(p, s, n), n)
  {
    if Bind(p.nodes[n].kwargs, ResultsByNode(s.runs)).Err? {
      LosingIsFinal(p, s, n, Failed);
    }
  }

  /** A step changes the state of no terminal node, unless it reports a job that was cancelled
      between leaving the heap and beginning; and then it always does. */
  lemma TerminalStatesAreFinal(p: Plan, work: Work, s: State, a: Action)
    requires ValidPlan(p) && Reachable(p, work, s) && Enabled(s, a)
    ensures Final(s, Step(p, work, s, a)) <==> !Revives(s, a)
  {
    StepIsFinal(p, work, s, a);
  }

  lemma StepIsFinal(p: Plan, work: Work, s: State, a: Action)
    requires Inv(p, work, s) && Derived(p) && Enabled(s, a)
    ensures Final(s, Step(p, work, s, a)) <==> !Revives(s, a)
  {
    if a.CancelRun? {
      CancellingRunIsFinal(p, s);
    } else if LosesMember(s, a) {
      LossFinality(p, work, s, a);
    } else if a.Report? {
      CompletionFinality(p, work, s, a.n);
    }
  }

  lemma CancellingRunIsFinal(p: Plan, s: State)
    ensures Final(s, RunCancelled(p, s))
  {
    var stopped := s.(cancelRequested := true, runs := CancelUnstarted(s.runs));
    assert Final(s, stopped) && Final(stopped, CancelQueued(stopped));
  }

  lemma LossFinality(p: Plan, work: Work, s: State, a: Action)
    requires Inv(p, work, s) && Enabled(s, a) && LosesMember(s, a)
    ensures Final(s, Step(p, work, s, a)) <==> !Revives(s, a)
  {
    LossChangesOnlyNode(p, work, s, a);
    RevivesIff(p, work, s, a);
    FinalIff(s, Step(p, work, s, a), a.n);
  }

  lemma RevivesIff(p: Plan, work: Work, s: State, a: Action)
    requires Inv(p, work, s) && Enabled(s, a) && LosesMember(s, a)
    ensures a.n in s.runs
    ensures Revives(s, a) <==> s.runs[a.n].state.Terminal() && LostJob(s, a).status != s.runs[a.n].state
  {
    assert JobOk(p, work, s, a.n);
  }

  lemma LossChangesOnlyNode(p: Plan, work: Work, s: State, a: Action)
    requires Inv(p, work, s) && Enabled(s, a) && LosesMember(s, a)
    ensures FinalBut(s, Step(p, work, s, a), a.n) && Step(p, work, s, a).runs[a.n].state == LostJob(s, a).status
  {
    LossSteps(p, work, s, a);
    var j := LostJob(s, a);
    var w := WithJob(s, a.n, j);
    LosingIsFinal(p, w, a.n, j.status);
    assert Step(p, work, s, a).runs == MemberLost(p, w, a.n, j.status).runs;
  }

  lemma FinalIff(s: State, t: State, n: Id)
    requires FinalBut(s, t, n) && n in s.runs
    ensures Final(s, t) <==> (s.runs[n].state.Terminal() ==> t.runs[n].state == s.runs[n].state)
  {
  }

  lemma CompletionRuns(p: Plan, work: Work, s: State, n: Id)
    requires Inv(p, work, s) && Derived(p) && Enabled(s, Report(n)) && s.jobs[n].status.Completed?
    ensures FinalBut(s, Step(p, work, s, Report(n)), n) && Step(p, work, s, Report(n)).runs[n].state.Completed?
  {
    var done, t := ReportOfCompletion(p, work, s, n);
    StartingReadyIsFinal(p, done);
    assert FinalBut(s, done, n) && done.runs[n].state.Completed?;
    assert Step(p, work, s, Report(n)).runs == t.runs;
  }

  lemma StartingReadyIsFinal(p: Plan, s: State)
    requires WellFormed(p) && forall n | n in Ready(p, s.runs) :: n in s.runs && n in p.nodes
    ensures Final(s, StartAll(p, s, Ready(p, s.runs)))
  {
    ReadyMeaning(p, s.runs);
    StartingIsFinal(p, s, Ready(p, s.runs));
  }

  lemma CompletionFinality(p: Plan, work: Work, s: State, n: Id)
    requires Inv(p, work, s) && Derived(p) && Enabled(s, Report(n)) && s.jobs[n].status.Completed?
    ensures Final(s, Step(p, work, s, Report(n))) <==> !Revives(s, Report(n))
  {
    assert JobOk(p, work, s, n);
    CompletionRuns(p, work, s, n);
    FinalIff(s, Step(p, work, s, Report(n)), n);
  }
}
