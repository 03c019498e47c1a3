/** Fail-fast: what a loss stops, exactly when it fails to stop it, and what stays stopped. */
module FailFast {
  import opened Results
  import opened Graphs
  import opened Compositions
  import opened CompositionRuns
  import opened Executor
  import opened RunInvariants
  import opened RunTheorems

  /** No member waits to begin: whatever is still under way has already begun. */
  predicate Halted(s: State) {
    forall m | m in s.jobs :: !s.jobs[m].status.Pending?
  }

  lemma HousekeepingHalts(p: Plan, work: Work, s: State)
    requires Base(p, work, s)
    ensures Halted(Housekept(p, s))
  {
    var stopped := s.(runs := CancelUnstarted(s.runs));
    forall m | m in s.jobs && s.jobs[m].status.Pending?
      ensures Queued(stopped, m)
    {
      assert JobOk(p, work, s, m);
    }
  }

  lemma {:induction false} StartAllLast(p: Plan, s: State, ready: seq<Id>)
    requires ready != [] && forall n | n in ready :: n in s.runs && n in p.nodes
    ensures var front := ready[..|ready| - 1];
            && (forall n | n in front :: n in ready)
            && ready[|ready| - 1] in StartAll(p, s, front).runs && ready[|ready| - 1] in p.nodes
            && StartAll(p, s, ready) == StartOne(p, StartAll(p, s, front), ready[|ready| - 1])
    decreases |ready|
  {
    var front, rest := ready[..|ready| - 1], ready[1..];
    assert ready[0] in ready && ready[|ready| - 1] in ready;
    if |ready| > 1 {
      var mid := StartOne(p, s, ready[0]);
      assert forall n | n in rest :: n in ready;
      StartAllLast(p, mid, rest);
      assert rest[..|rest| - 1] == front[1..] && front[0] == ready[0];
    } else {
      assert front == [];
    }
  }

  lemma LossHalts(p: Plan, work: Work, s: State, jobs: Jobs, n: Id, outcome: NodeState)
    requires Core(p, work, s) && p.failFast && !s.cancelRequested
    requires n in s.runs && Loses(s, s.(jobs := jobs, runs := Recorded(s.runs, n, outcome, None)), n, outcome)
    ensures Halted(MemberLost(p, s.(jobs := jobs), n, outcome))
  {
    var skipped := LostAndSkipped(p, s, jobs, n, outcome);
    LossMoves(p, work, s, jobs, n, outcome);
    MovesKeepBase(p, work, s, skipped);
    HousekeepingHalts(p, work, skipped);
  }

  ghost predicate ReadyNamed(p: Plan, s: State, ready: seq<Id>) {
    forall n | n in ready :: n in s.runs && n in p.nodes
  }

  lemma LastOfBatch(p: Plan, work: Work, s: State, ready: seq<Id>) returns (mid: State)
    requires Core(p, work, s) && !s.cancelRequested && Batch(p, s, ready) && ready != []
    ensures var last := ready[|ready| - 1];
            && ReadyNamed(p, s, ready) && last in p.nodes && Core(p, work, mid) && !mid.cancelRequested
            && Startable(p, mid, last) && ResultsByNode(mid.runs) == ResultsByNode(s.runs)
            && StartAll(p, s, ready) == StartOne(p, mid, last)
  {
    var front, last := ready[..|ready| - 1], ready[|ready| - 1];
    assert last in ready && forall n | n in ready :: Startable(p, s, n);
    assert last !in front;
    StartAllLast(p, s, ready);
    StartAllKeepsCore(p, work, s, front);
    mid := StartAll(p, s, front);
  }

  /** After a ready list has been worked through, nothing waits exactly if its last node failed
      to bind: an earlier failure does not stop the nodes listed after it. */
  lemma BatchHaltsIffLastFails(p: Plan, work: Work, s: State, ready: seq<Id>)
    requires Core(p, work, s) && p.failFast && !s.cancelRequested && Batch(p, s, ready) && ready != []
    ensures var last := ready[|ready| - 1];
            && last in p.nodes && ReadyNamed(p, s, ready)
            && (Halted(StartAll(p, s, ready)) <==> Bind(p.nodes[last].kwargs, ResultsByNode(s.runs)).Err?)
  {
    var last := ready[|ready| - 1];
    var mid := LastOfBatch(p, work, s, ready);
    if Bind(p.nodes[last].kwargs, ResultsByNode(s.runs)).Err? {
      assert NodeOk(mid, last) && mid.(jobs := mid.jobs) == mid;
      LossHalts(p, work, mid, mid.jobs, last, Failed);
    } else {
      assert StartOne(p, mid, last).jobs[last].status.Pending?;
    }
  }

  // ---- At the level of steps -----------------------------------------------

  lemma FinalizingHaltsNothing(p: Plan, s: State)
    ensures Halted(Finalized(p, s)) <==> Halted(s)
  {
  }

  /** Under fail-fast a step that records a member as failed or cancelled leaves no member
      waiting to begin. */
  lemma LostMemberHaltsTheRest(p: Plan, work: Work, s: State, a: Action)
    requires ValidPlan(p) && p.failFast && Reachable(p, work, s) && !s.cancelRequested
    requires Enabled(s, a) && LosesMember(s, a)
    ensures Halted(Step(p, work, s, a))
  {
    MemberLossHalts(p, work, s, a);
  }

  lemma MemberLossHalts(p: Plan, work: Work, s: State, a: Action)
    requires Inv(p, work, s) && p.failFast && !s.cancelRequested && Enabled(s, a) && LosesMember(s, a)
    ensures Halted(Step(p, work, s, a))
  {
    var j := LostJob(s, a);
    LossSteps(p, work, s, a);
    LossHalts(p, work, s, s.jobs[a.n := j], a.n, j.status);
    FinalizingHaltsNothing(p, MemberLost(p, WithJob(s, a.n, j), a.n, j.status));
  }

  /** When instead the loss is a failed binding among the nodes that a completed member unlocks,
      it has that effect exactly if it is the last of them that fails: the loop goes on over the
      list it took before the failure, and starts whatever still binds, cancelled or not. */
  lemma FailedBindingHaltsIffLast(p: Plan, work: Work, s: State, n: Id, ready: seq<Id>)
    requires ValidPlan(p) && p.failFast && Reachable(p, work, s) && !s.cancelRequested
    requires Enabled(s, Report(n)) && s.jobs[n].status.Completed?
    requires ready == Ready(p, Completion(s, n).runs) && ready != []
    ensures ReadyNamed(p, s, ready)
    ensures Halted(Step(p, work, s, Report(n))) <==>
              Bind(p.nodes[ready[|ready| - 1]].kwargs, ResultsByNode(Completion(s, n).runs)).Err?
  {
    UnlockedLossHalts(p, work, s, n, ready);
  }

  lemma UnlockedLossHalts(p: Plan, work: Work, s: State, n: Id, ready: seq<Id>)
    requires Inv(p, work, s) && Derived(p) && p.failFast && !s.cancelRequested
    requires Enabled(s, Report(n)) && s.jobs[n].status.Completed?
    requires ready == Ready(p, Completion(s, n).runs) && ready != []
    ensures ReadyNamed(p, s, ready)
    ensures Halted(Step(p, work, s, Report(n))) <==>
              Bind(p.nodes[ready[|ready| - 1]].kwargs, ResultsByNode(Completion(s, n).runs)).Err?
  {
    var done, t := ReportOfCompletion(p, work, s, n);
    ReadyBatch(p, work, done);
    BatchHaltsIffLastFails(p, work, done, ready);
    FinalizingHaltsNothing(p, t);
  }

  lemma NoneStartsIfNonePending(p: Plan, work: Work, s: State, a: Action)
    requires Inv(p, work, s) && Derived(p) && NonePending(s) && Enabled(s, a) && a.Report? && !LosesMember(s, a)
    ensures Step(p, work, s, a).jobs.Keys == s.jobs.Keys
  {
    var done, t := ReportOfCompletion(p, work, s, a.n);
    NoneReadyIfNonePending(p, done);
    assert t == done;
  }

  lemma NoneReadyIfNonePending(p: Plan, s: State)
    requires WellFormed(p) && NonePending(s)
    ensures Ready(p, s.runs) == []
  {
    ReadyMeaning(p, s.runs);
    EmptyOrInhabited(Ready(p, s.runs));
  }

  lemma LossStartsNone(p: Plan, work: Work, s: State, a: Action)
    requires Inv(p, work, s) && Enabled(s, a) && LosesMember(s, a)
    ensures Step(p, work, s, a).jobs.Keys == s.jobs.Keys
  {
    LossSteps(p, work, s, a);
    LossKeepsInv(p, work, s, a.n, LostJob(s, a));
  }

  /** After a loss under fail-fast no later step creates a job. */
  lemma NothingStartsAfterALoss(p: Plan, work: Work, s: State, a: Action)
    requires ValidPlan(p) && p.failFast && Reachable(p, work, s)
    requires (SomeIn(s.runs, Failed) || SomeIn(s.runs, Cancelled)) && Enabled(s, a)
    ensures Step(p, work, s, a).jobs.Keys == s.jobs.Keys
  {
    StartsNoneAfterLoss(p, work, s, a);
  }

  lemma StartsNoneAfterLoss(p: Plan, work: Work, s: State, a: Action)
    requires Inv(p, work, s) && Derived(p) && p.failFast
    requires (SomeIn(s.runs, Failed) || SomeIn(s.runs, Cancelled)) && Enabled(s, a)
    ensures Step(p, work, s, a).jobs.Keys == s.jobs.Keys
  {
    if !a.CancelRun? {
      if LosesMember(s, a) {
        LossStartsNone(p, work, s, a);
      } else if a.Report? {
        NoneStartsIfNonePending(p, work, s, a);
      }
    }
  }

  // ---- A user's cancel -----------------------------------------------------

  /** Cancelling the run stops exactly what has not begun: unstarted nodes and queued members. */
  lemma UserCancelStops(p: Plan, work: Work, s: State)
    requires ValidPlan(p) && Reachable(p, work, s) && Enabled(s, CancelRun)
    ensures var t := Step(p, work, s, CancelRun);
            && t.cancelRequested && Halted(t) && NonePending(t) && t.runs.Keys == s.runs.Keys && t.jobs.Keys == s.jobs.Keys
            && (AllTerminal(t.runs) ==> t.status.Cancelled?)
            && forall n | n in s.runs ::
                 t.runs[n].state == if s.runs[n].state.Pending? || Waits(s, n) then Cancelled else s.runs[n].state
  {
    CancellingHalts(p, work, s);
    CancellingStates(p, s);
  }

  /** The node's job has not begun. */
  predicate Waits(s: State, n: Id) {
    n in s.jobs && s.jobs[n].status.Pending? && n in s.runs && s.runs[n].state.Running?
  }

  lemma CancellingHalts(p: Plan, work: Work, s: State)
    requires Inv(p, work, s) && s.status.Running?
    ensures Halted(RunCancelled(p, s))
  {
    forall m | m in s.jobs && s.jobs[m].status.Pending?
      ensures Queued(s.(runs := CancelUnstarted(s.runs)), m)
    {
      assert JobOk(p, work, s, m);
    }
  }

  lemma CancellingStates(p: Plan, s: State)
    requires s.status.Running?
    ensures var t := RunCancelled(p, s);
            && t.cancelRequested && NonePending(t) && t.runs.Keys == s.runs.Keys && t.jobs.Keys == s.jobs.Keys
            && (AllTerminal(t.runs) ==> t.status.Cancelled?)
            && forall n | n in s.runs ::
                 t.runs[n].state == if s.runs[n].state.Pending? || Waits(s, n) then Cancelled else s.runs[n].state
  {
    var stopped := s.(cancelRequested := true, runs := CancelUnstarted(s.runs));
    assert forall n :: Queued(stopped, n) <==> Waits(s, n);
  }

  /** After a user's cancel no later step creates a job. */
  lemma NothingStartsAfterACancel(p: Plan, work: Work, s: State, a: Action)
    requires ValidPlan(p) && Reachable(p, work, s) && s.cancelRequested && Enabled(s, a)
    ensures Step(p, work, s, a).jobs.Keys == s.jobs.Keys
  {
    if !a.CancelRun? {
      if LosesMember(s, a) {
        LossStartsNone(p, work, s, a);
      } else if a.Report? {
        NoneStartsIfNonePending(p, work, s, a);
      }
    }
  }
}
