/** The queue's composition half as it is written: re-entrant updates of one run record and
    its member jobs. Each method is proved equal to a function of the state it starts in. */
module JobQueues {
  import opened Results
  import opened Graphs
  import opened Compositions
  import opened CompositionRuns
  import opened Executor

  ghost function PendingJobs(jobs: Jobs): set<Id> {
    set n | n in jobs && jobs[n].status.Pending?
  }

  // ---- Housekeeping one job at a time is one simultaneous update -----------

  ghost predicate NoPendingNode(s: State) {
    forall n | n in s.runs :: !s.runs[n].state.Pending?
  }

  ghost function CancelOne(s: State, m: Id): State
    requires m in s.runs && m in s.jobs
  {
    s.(runs := Recorded(s.runs, m, Cancelled, None), jobs := s.jobs[m := CancelledJob(s.jobs[m])])
  }

  lemma NothingToCancel(s: State)
    requires forall n | n in s.jobs :: !Queued(s, n)
    ensures CancelQueued(s) == s
  {
    assert CancelQueued(s).runs == s.runs && CancelQueued(s).jobs == s.jobs;
  }

  lemma FinalizedTwice(p: Plan, s: State)
    ensures Finalized(p, Finalized(p, s)) == Finalized(p, s)
    ensures forall n :: Queued(Finalized(p, s), n) <==> Queued(s, n)
  {
  }

  lemma CancelOneLeavesQueued(s: State, m: Id)
    requires Queued(s, m)
    ensures forall n :: Queued(CancelOne(s, m), n) <==> n != m && Queued(s, n)
  {
  }

  lemma CancelOneOfQueued(s: State, m: Id)
    requires Queued(s, m)
    ensures CancelQueued(CancelOne(s, m)) == CancelQueued(s)
    ensures forall n :: Queued(CancelOne(s, m), n) <==> n != m && Queued(s, n)
  {
    var t := CancelOne(s, m);
    CancelOneLeavesQueued(s, m);
    assert CancelQueued(t).runs == CancelQueued(s).runs;
    assert CancelQueued(t).jobs == CancelQueued(s).jobs;
  }

  /** Finalizing early cannot change what cancelling the rest leads to. */
  lemma FinalizeThenCancel(p: Plan, s: State)
    ensures Finalized(p, CancelQueued(Finalized(p, s))) == Finalized(p, CancelQueued(s))
  {
    if s.status.Running? && AllTerminal(s.runs) {
      assert forall n :: !Queued(s, n);
      NothingToCancel(s);
      NothingToCancel(Finalized(p, s));
    }
  }

  lemma CancelQueuedTwice(s: State)
    ensures forall n :: !Queued(CancelQueued(s), n)
    ensures CancelQueued(CancelQueued(s)) == CancelQueued(s)
  {
    assert forall n :: !Queued(CancelQueued(s), n);
    NothingToCancel(CancelQueued(s));
  }

  lemma MemberCancelledForm(p: Plan, s: State, m: Id)
    requires Sized(p, s) && NoPendingNode(s) && Queued(s, m)
    ensures var one := CancelOne(s, m);
            MemberCancelled(p, s, m) ==
              Finalized(p, if p.failFast && !s.cancelRequested && SomeQueued(one) then CancelQueued(one) else one)
  {
    var one := CancelOne(s, m);
    assert SkippedFrom(p.deps, one.runs, m) == one.runs;
    assert CancelUnstarted(one.runs) == one.runs;
    FinalizedTwice(p, CancelQueued(one));
  }

  /** What one cancel may do to the members: none becomes pending or queued again. */
  ghost predicate OnlyCancels(s: State, t: State) {
    && t.runs.Keys == s.runs.Keys && t.jobs.Keys == s.jobs.Keys && t.cancelRequested == s.cancelRequested
    && (forall n | n in s.runs :: t.runs[n].state.Pending? ==> s.runs[n].state.Pending?)
    && (forall n | n in s.jobs :: t.jobs[n].status.Pending? ==> s.jobs[n].status.Pending?)
    && (forall n | Queued(t, n) :: Queued(s, n))
  }

  lemma CancelOneOnlyCancels(s: State, m: Id)
    requires Queued(s, m)
    ensures OnlyCancels(s, CancelOne(s, m))
    ensures !Queued(CancelOne(s, m), m) && !CancelOne(s, m).jobs[m].status.Pending?
  {
  }

  lemma CancelQueuedOnlyCancels(s: State)
    ensures OnlyCancels(s, CancelQueued(s))
  {
  }

  lemma FinalizedOnlyCancels(p: Plan, s: State)
    ensures OnlyCancels(s, Finalized(p, s))
  {
  }

  lemma OnlyCancelsChain(s: State, t: State, u: State)
    requires OnlyCancels(s, t) && OnlyCancels(t, u)
    ensures OnlyCancels(s, u)
  {
  }

  lemma MemberCancelledOnlyCancels(p: Plan, s: State, m: Id)
    requires Sized(p, s) && NoPendingNode(s) && Queued(s, m)
    ensures var t := MemberCancelled(p, s, m);
            OnlyCancels(s, t) && !Queued(t, m) && !t.jobs[m].status.Pending?
  {
    var one := CancelOne(s, m);
    var u := if p.failFast && !s.cancelRequested && SomeQueued(one) then CancelQueued(one) else one;
    var t := Finalized(p, u);
    MemberCancelledForm(p, s, m);
    assert t == MemberCancelled(p, s, m);
    CancelOneOnlyCancels(s, m);
    CancelQueuedOnlyCancels(one);
    assert OnlyCancels(one, u);
    OnlyCancelsChain(s, one, u);
    FinalizedOnlyCancels(p, u);
    OnlyCancelsChain(s, u, t);
  }

  /** Cancelling one queued member, with all the re-entrant work that triggers, stays on the
      way to cancelling all of them. */
  lemma MemberCancelledOnTheWay(p: Plan, s: State, m: Id)
    requires Sized(p, s) && NoPendingNode(s) && Queued(s, m)
    ensures var t := MemberCancelled(p, s, m);
            Finalized(p, t) == t && Finalized(p, CancelQueued(t)) == Finalized(p, CancelQueued(s))
  {
    var one := CancelOne(s, m);
    MemberCancelledForm(p, s, m);
    CancelOneOfQueued(s, m);
    var u := if p.failFast && !s.cancelRequested && SomeQueued(one) then CancelQueued(one) else one;
    CancelQueuedTwice(one);
    assert CancelQueued(u) == CancelQueued(s);
    FinalizedTwice(p, u);
    FinalizeThenCancel(p, u);
  }

  /** Either nothing was cancelled yet, or the run is finalized as far as it can be and
      cancelling the rest leads where it always did. */
  ghost predicate OnTheWay(p: Plan, start: State, now: State) {
    now == start
    || (SomeQueued(start) && Finalized(p, now) == now
        && Finalized(p, CancelQueued(now)) == Finalized(p, CancelQueued(start)))
  }

  lemma CancelStep(p: Plan, start: State, now: State, n: Id)
    requires Sized(p, now) && NoPendingNode(now) && OnlyCancels(start, now) && OnTheWay(p, start, now)
    requires Queued(now, n)
    ensures var t := MemberCancelled(p, now, n);
            && NoPendingNode(t) && OnlyCancels(start, t) && OnTheWay(p, start, t)
            && forall k | Queued(t, k) :: Queued(now, k) && k != n
    ensures |PendingJobs(now.jobs)| <= |PendingJobs(start.jobs)|
  {
    MemberCancelledOnlyCancels(p, now, n);
    MemberCancelledOnTheWay(p, now, n);
    FewerOrSamePending(start, now);
    OnlyCancelsChain(start, now, MemberCancelled(p, now, n));
    assert Queued(start, n);
  }

  lemma CancelStepsDone(p: Plan, start: State, now: State)
    requires Sized(p, now) && OnlyCancels(start, now) && OnTheWay(p, start, now)
    requires forall k | 0 <= k < |p.order| :: !Queued(now, p.order[k])
    ensures now == if SomeQueued(start) then Finalized(p, CancelQueued(start)) else start
  {
    assert forall n | n in now.jobs :: n in Elements(p.order);
    NothingToCancel(now);
  }

  class JobQueue {
    const run: CompositionRun
    var jobs: Jobs

    ghost predicate Valid()
      reads this, run
    {
      run.Valid() && jobs.Keys <= run.plan.deps.Keys
    }

    ghost function View(): State
      reads this, run
    {
      State(run.nodeRuns, jobs, run.cancelRequested, run.status)
    }

    constructor (run: CompositionRun)
      requires run.Valid()
      ensures Valid() && this.run == run && jobs == map[]
    {
      this.run := run;
      jobs := map[];
    }

    /** Starts whatever submission leaves ready; an empty composition completes at once. */
    method SubmitComposition()
      requires Valid() && View() == State(FreshRuns(run.plan), map[], false, Running)
      modifies this`jobs, run
      ensures Valid() && View() == Submitted(run.plan)
    {
      if run.plan.order == [] {
        run.status := Completed;
      } else {
        var _ := StartReadyNodes();
      }
    }

    /** Records a lost member, skips what depended on it, and under fail-fast stops the rest. */
    method LoseMember(n: Id, outcome: NodeState)
      requires Valid() && n in run.nodeRuns && outcome.Terminal()
      modifies this`jobs, run
      ensures Valid() && View() == MemberLost(run.plan, old(View()), n, outcome)
      decreases 0, |PendingJobs(jobs)|, 4
    {
      var _ := run.RecordResult(n, outcome, None);
      var _ := run.SkipDependents(n);
      if run.plan.failFast && !run.cancelRequested {
        CancelPendingMembers();
      }
    }

    /** Binds one node's arguments and enqueues its job, or records the binding failure. */
    method StartMember(nid: Id) returns (ok: bool)
      requires Valid() && nid in run.nodeRuns && nid in run.plan.nodes
      modifies this`jobs, run
      ensures Valid() && run.nodeRuns.Keys == old(run.nodeRuns).Keys
      ensures View() == StartOne(run.plan, old(View()), nid)
      decreases 0, |PendingJobs(jobs)|, 5
    {
      var bound := ResolveNodeKwargs(run.plan.nodes[nid], ResultsByNode(run.nodeRuns));
      ok := bound.Ok?;
      if ok {
        run.RecordStarted(nid, nid);
        jobs := jobs[nid := Job(Pending, InHeap, bound.value, None)];
      } else {
        LoseMember(nid, Failed);
      }
    }

    /** Creates the jobs of the nodes that are ready now; a binding failure is recorded as the
        node's failure and flows through the same path as a failed job. */
    method StartReadyNodes() returns (started: seq<Id>)
      requires Valid()
      modifies this`jobs, run
      ensures Valid()
      ensures forall n :: n in Ready(run.plan, old(run.nodeRuns)) ==> n in old(run.nodeRuns) && n in run.plan.nodes
      ensures View() == StartAll(run.plan, old(View()), Ready(run.plan, old(run.nodeRuns)))
      decreases 1, |PendingJobs(jobs)|, 1
    {
      started := [];
      var ready := run.ReadyNodes();
      for i := 0 to |ready|
        invariant Valid()
        invariant forall n | n in ready :: n in run.nodeRuns && n in run.plan.nodes
        invariant StartAll(run.plan, View(), ready[i..]) == StartAll(run.plan, old(View()), ready)
      {
        var nid := ready[i];
        assert ready[i..][0] == nid && ready[i..][1..] == ready[i + 1..];
        var ok := StartMember(nid);
        if ok { started := started + [nid]; }
      }
      assert ready[|ready|..] == [];
    }

    /** Records a member's outcome, starts what it unlocks or stops what it dooms, and
        finalizes the run once every node is terminal. */
    method AdvanceComposition(n: Id)
      requires Valid() && n in jobs && jobs[n].status.Terminal()
      modifies this`jobs, run
      ensures Valid() && View() == Advanced(run.plan, old(View()), n)
      decreases if jobs[n].status.Completed? then 1 else 0, |PendingJobs(jobs)|, 3
    {
      var state := jobs[n].status;
      var _ := run.RecordResult(n, state, if state.Completed? then jobs[n].result else None);
      if state.Completed? {
        var _ := StartReadyNodes();
      } else {
        var _ := run.SkipDependents(n);
        if run.plan.failFast && !run.cancelRequested {
          CancelPendingMembers();
        }
      }
      MaybeFinalize();
    }

    method MaybeFinalize()
      requires Valid()
      modifies run`status
      ensures Valid() && View() == Finalized(run.plan, old(View()))
      ensures old(run.status).Running? && AllTerminal(run.nodeRuns) ==>
                SaysWhatHappened(run.plan.failFast, run.cancelRequested, run.nodeRuns, run.status)
    {
      DerivedStatusSays(run.plan.failFast, run.cancelRequested, run.nodeRuns);
      if run.status.Running? && AllTerminal(run.nodeRuns) {
        run.status := DeriveTerminalStatus(run.plan.failFast, run.cancelRequested, run.nodeRuns);
      }
    }

    /** Cancels a job that has not begun; on a job that has, only a signal is left for it. */
    method Cancel(n: Id) returns (accepted: bool)
      requires Valid()
      modifies this`jobs, run
      ensures Valid()
      ensures accepted == (n in old(jobs) && (old(jobs)[n].status.Pending? || old(jobs)[n].status.Running?))
      ensures View() == if n in old(jobs) then MemberCancelled(run.plan, old(View()), n) else old(View())
      decreases 0, |PendingJobs(jobs)|, 0
    {
      if n !in jobs {
        return false;
      }
      if jobs[n].status.Pending? {
        FewerPending(jobs, jobs[n := CancelledJob(jobs[n])], n);
        jobs := jobs[n := CancelledJob(jobs[n])];
        AdvanceComposition(n);
        return true;
      }
      return jobs[n].status.Running?;
    }

    /** Fail-fast housekeeping, one member at a time, each cancel re-entering the advance. */
    method CancelPendingMembers()
      requires Valid()
      modifies this`jobs, run
      ensures Valid() && View() == Housekept(run.plan, old(View()))
      decreases 0, |PendingJobs(jobs)|, 2
    {
      run.nodeRuns := CancelUnstarted(run.nodeRuns);
      CancelEachQueued();
    }

    /** User intent: nothing more starts, and every member that has not begun is cancelled. */
    method CancelComposition() returns (recorded: bool)
      requires Valid()
      modifies this`jobs, run
      ensures Valid() && recorded == old(run.status).Running?
      ensures View() == RunCancelled(run.plan, old(View()))
    {
      if !run.status.Running? {
        return false;
      }
      run.cancelRequested := true;
      run.nodeRuns := CancelUnstarted(run.nodeRuns);
      ghost var stopped := View();
      CancelEachQueued();
      if SomeQueued(stopped) {
        FinalizedTwice(run.plan, CancelQueued(stopped));
      } else {
        NothingToCancel(stopped);
      }
      MaybeFinalize();
      return true;
    }

    method CancelEachQueued()
      requires Valid() && NoPendingNode(View())
      modifies this`jobs, run
      ensures Valid()
      ensures View() == if SomeQueued(old(View())) then Finalized(run.plan, CancelQueued(old(View()))) else old(View())
      decreases 0, |PendingJobs(jobs)|, 1
    {
      ghost var start := View();
      for i := 0 to |run.plan.order|
        invariant Valid() && NoPendingNode(View()) && OnlyCancels(start, View())
        invariant forall k | 0 <= k < i :: !Queued(View(), run.plan.order[k])
        invariant OnTheWay(run.plan, start, View())
      {
        FewerOrSamePending(start, View());
        CancelIfQueued(run.plan.order[i], start);
      }
      CancelStepsDone(run.plan, start, View());
    }

    method CancelIfQueued(n: Id, ghost start: State)
      requires Valid() && n in run.nodeRuns
      requires NoPendingNode(View()) && OnlyCancels(start, View()) && OnTheWay(run.plan, start, View())
      modifies this`jobs, run
      ensures Valid() && !Queued(View(), n)
      ensures NoPendingNode(View()) && OnlyCancels(start, View()) && OnTheWay(run.plan, start, View())
      ensures forall k | Queued(View(), k) :: Queued(old(View()), k)
      decreases 0, |PendingJobs(jobs)|, 1, 0
    {
      if run.nodeRuns[n].state.Running? && n in jobs && jobs[n].status.Pending? {
        CancelStep(run.plan, start, View(), n);
        var _ := Cancel(n);
      }
    }
  }

  lemma FewerPending(a: Jobs, b: Jobs, n: Id)
    requires n in a && a[n].status.Pending? && b == a[n := CancelledJob(a[n])]
    ensures |PendingJobs(b)| < |PendingJobs(a)|
  {
    assert PendingJobs(b) == PendingJobs(a) - {n};
  }

  lemma FewerOrSamePending(s: State, t: State)
    requires OnlyCancels(s, t)
    ensures |PendingJobs(t.jobs)| <= |PendingJobs(s.jobs)|
  {
    SubsetSize(PendingJobs(t.jobs), PendingJobs(s.jobs));
  }

  lemma SubsetSize(a: set<Id>, b: set<Id>)
    requires a <= b
    ensures |a| <= |b|
  {
    assert b == a + (b - a);
  }
}
