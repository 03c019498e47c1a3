/** The transition system of one run under the queue, and what every step of it keeps. */
module RunInvariants {
  import opened Results
  import opened Graphs
  import opened Compositions
  import opened CompositionRuns
  import opened Executor

  /** What a member job does with its arguments: a result, or a failure. */
  type Work = (Id, map<string, Value>) -> Option<Value>

  /** How an executing job ends: as its work decides, cancelled, or broken from outside. */
  datatype Ending = Ran | WasCancelled | Broke

  datatype Action =
    | Pop(n: Id)
    | Begin(n: Id)
    | Settle(n: Id, how: Ending)
    | Report(n: Id)
    | Refuse(n: Id)
    | CancelMember(n: Id)
    | CancelRun

  predicate Enabled(s: State, a: Action) {
    match a
    case Pop(n) => n in s.jobs && s.jobs[n].place.InHeap?
    case Begin(n) => n in s.jobs && s.jobs[n].place.Popped?
    case Settle(n, _) => n in s.jobs && s.jobs[n].place.Executing?
    case Report(n) => n in s.jobs && s.jobs[n].place.Settled?
    case Refuse(n) => n in s.jobs && s.jobs[n].place.Popped?
    case CancelMember(n) => n in s.jobs && s.jobs[n].status.Pending?
    case CancelRun => s.status.Running? && !s.cancelRequested
  }

  function SettledJob(work: Work, n: Id, j: Job, how: Ending): Job {
    match how
    case WasCancelled => j.(place := Settled, status := Cancelled)
    case Broke => j.(place := Settled, status := Failed)
    case Ran =>
      match work(n, j.kwargs)
      case Some(v) => j.(place := Settled, status := Completed, result := Some(v))
      case None => j.(place := Settled, status := Failed)
  }

  function WithJob(s: State, n: Id, j: Job): State {
    s.(jobs := s.jobs[n := j])
  }

  ghost function Step(p: Plan, work: Work, s: State, a: Action): State
    requires Sized(p, s) && Enabled(s, a)
  {
    match a
    case Pop(n) => WithJob(s, n, s.jobs[n].(place := Popped))
    case Begin(n) => WithJob(s, n, s.jobs[n].(place := Executing, status := Running))
    case Settle(n, how) => WithJob(s, n, SettledJob(work, n, s.jobs[n], how))
    case Report(n) => Advanced(p, WithJob(s, n, s.jobs[n].(place := Done)), n)
    case Refuse(n) => Advanced(p, WithJob(s, n, s.jobs[n].(place := Done, status := Failed)), n)
    case CancelMember(n) => MemberCancelled(p, s, n)
    case CancelRun => RunCancelled(p, s)
  }

  // ---- The invariant, node by node ----------------------------------------

  predicate Ended(st: NodeState) { st.Completed? || st.Failed? || st.Cancelled? }

  /** A job's place, its status and its node's state fit together. A job popped before its
      cancel arrived goes on, although its node already reads cancelled. */
  predicate InStep(j: Job, r: NodeRun) {
    match j.place
    case InHeap => j.status.Pending? && r.state.Running?
    case Popped => (j.status.Pending? && r.state.Running?) || (j.status.Cancelled? && r.state.Cancelled?)
    case Executing => j.status.Running? && (r.state.Running? || r.state.Cancelled?)
    case Settled => Ended(j.status) && (r.state.Running? || r.state.Cancelled?)
    case Done => Ended(j.status) && r.state == j.status && (j.status.Completed? ==> r.result == j.result)
  }

  ghost predicate JobOk(p: Plan, work: Work, s: State, n: Id)
    requires Sized(p, s) && n in s.jobs
  {
    && AllCompleted(s.runs, p.deps[n])
    && n in p.nodes && Bind(p.nodes[n].kwargs, ResultsByNode(s.runs)) == Ok(s.jobs[n].kwargs)
    && InStep(s.jobs[n], s.runs[n])
    && (s.jobs[n].status.Completed? ==> s.jobs[n].result.Some? && s.jobs[n].result == work(n, s.jobs[n].kwargs))
  }

  predicate NodeOk(s: State, n: Id)
    requires n in s.runs
  {
    && (s.runs[n].state.Running? || s.runs[n].state.Completed? ==> n in s.jobs)
    && (s.runs[n].state.Pending? || s.runs[n].state.Skipped? ==> n !in s.jobs)
  }

  ghost predicate Base(p: Plan, work: Work, s: State) {
    && Sized(p, s)
    && (forall n {:trigger JobOk(p, work, s, n)} | n in s.jobs :: JobOk(p, work, s, n))
    && (forall n {:trigger NodeOk(s, n)} | n in s.runs :: NodeOk(s, n))
  }

  /** A pending node whose inputs can still come into being. */
  predicate Hopeful(runs: NodeRuns, ds: set<Id>) {
    forall d | d in ds :: d in runs && !runs[d].state.Failed? && !runs[d].state.Cancelled? && !runs[d].state.Skipped?
  }

  ghost predicate NoneDoomed(p: Plan, s: State)
    requires Sized(p, s)
  {
    forall n {:trigger Hopeful(s.runs, p.deps[n])} | n in s.runs && s.runs[n].state.Pending? :: Hopeful(s.runs, p.deps[n])
  }

  predicate NonePending(s: State) {
    forall n | n in s.runs :: !s.runs[n].state.Pending?
  }

  /** After a user cancel nothing waits; under fail-fast nothing waits after a loss. */
  ghost predicate StopsWaiting(p: Plan, s: State) {
    && (s.cancelRequested ==> NonePending(s) && !SomeQueued(s))
    && (p.failFast && (SomeIn(s.runs, Failed) || SomeIn(s.runs, Cancelled)) ==> NonePending(s))
  }

  ghost predicate Core(p: Plan, work: Work, s: State) {
    Base(p, work, s) && NoneDoomed(p, s) && StopsWaiting(p, s)
  }

  /** What holds between any two steps: nothing ready is left unstarted, and a run whose nodes
      are all terminal is finalized. */
  ghost predicate Inv(p: Plan, work: Work, s: State) {
    && Core(p, work, s)
    && (forall n | n in s.runs :: !IsReady(p, s.runs, n))
    && (AllTerminal(s.runs) ==> !s.status.Running?)
  }

  // ---- Job steps that leave the record alone -------------------------------

  /** Replacing one job by one that fits its node keeps everything about the others. */
  lemma WithJobKeepsBase(p: Plan, work: Work, s: State, n: Id, j: Job)
    requires Base(p, work, s) && n in s.jobs
    requires j.kwargs == s.jobs[n].kwargs && InStep(j, s.runs[n])
    requires j.status.Completed? ==> j.result.Some? && j.result == work(n, j.kwargs)
    ensures Base(p, work, WithJob(s, n, j))
  {
    var t := WithJob(s, n, j);
    forall m | m in t.jobs
      ensures JobOk(p, work, t, m)
    {
      assert JobOk(p, work, s, m);
    }
    forall m | m in t.runs
      ensures NodeOk(t, m)
    {
      assert NodeOk(s, m);
    }
  }

  // ---- Losing members -----------------------------------------------------

  /** An idle node may end without a job; a member that has not completed may move on with
      its job, as long as neither becomes completed. */
  predicate Moved(s: State, t: State, m: Id)
    requires s.runs.Keys == t.runs.Keys && s.jobs.Keys == t.jobs.Keys && m in s.runs
  {
    if m !in s.jobs then
      t.runs[m] == s.runs[m] || t.runs[m].state.Failed? || t.runs[m].state.Cancelled? || t.runs[m].state.Skipped?
    else
      || (t.runs[m] == s.runs[m] && t.jobs[m] == s.jobs[m])
      || (&& !s.runs[m].state.Completed? && !t.runs[m].state.Completed? && !t.jobs[m].status.Completed?
          && t.jobs[m].kwargs == s.jobs[m].kwargs && InStep(t.jobs[m], t.runs[m]))
  }

  ghost predicate Moves(s: State, t: State) {
    && s.runs.Keys == t.runs.Keys && s.jobs.Keys == t.jobs.Keys && t.cancelRequested == s.cancelRequested
    && forall m {:trigger Moved(s, t, m)} | m in s.runs :: Moved(s, t, m)
  }

  lemma MovesKeepResults(p: Plan, work: Work, s: State, t: State)
    requires Base(p, work, s) && Moves(s, t)
    ensures ResultsByNode(t.runs) == ResultsByNode(s.runs)
    ensures forall m | m in s.runs :: t.runs[m].state.Completed? <==> s.runs[m].state.Completed?
  {
    forall m | m in s.runs
      ensures s.runs[m].state.Completed? || t.runs[m].state.Completed? ==> t.runs[m] == s.runs[m]
    {
      assert NodeOk(s, m) && Moved(s, t, m);
    }
  }

  lemma MovesKeepJobs(p: Plan, work: Work, s: State, t: State, m: Id)
    requires Base(p, work, s) && Moves(s, t) && m in t.jobs
    requires ResultsByNode(t.runs) == ResultsByNode(s.runs)
    requires forall m | m in s.runs :: t.runs[m].state.Completed? <==> s.runs[m].state.Completed?
    ensures JobOk(p, work, t, m)
  {
    assert JobOk(p, work, s, m) && Moved(s, t, m);
  }

  lemma MovesKeepNodes(p: Plan, work: Work, s: State, t: State, m: Id)
    requires Base(p, work, s) && Moves(s, t) && m in t.runs
    ensures NodeOk(t, m)
  {
    assert NodeOk(s, m) && Moved(s, t, m);
    if m in s.jobs { assert JobOk(p, work, s, m); }
  }

  lemma MovesKeepBase(p: Plan, work: Work, s: State, t: State)
    requires Base(p, work, s) && Moves(s, t)
    ensures Base(p, work, t)
  {
    MovesKeepResults(p, work, s, t);
    forall m | m in t.jobs
      ensures JobOk(p, work, t, m)
    {
      MovesKeepJobs(p, work, s, t, m);
    }
    forall m | m in t.runs
      ensures NodeOk(t, m)
    {
      MovesKeepNodes(p, work, s, t, m);
    }
  }

  /** The record of a lost member, before its dependents are skipped. */
  ghost predicate Loses(s: State, t: State, n: Id, outcome: NodeState) {
    && n in s.runs && (outcome.Failed? || outcome.Cancelled?) && !s.runs[n].state.Completed?
    && t.cancelRequested == s.cancelRequested
    && t.runs == Recorded(s.runs, n, outcome, None)
    && if n !in s.jobs then t.jobs == s.jobs
       else && t.jobs.Keys == s.jobs.Keys
            && t.jobs[n].kwargs == s.jobs[n].kwargs && !t.jobs[n].status.Completed? && InStep(t.jobs[n], t.runs[n])
            && forall m | m in s.jobs && m != n :: t.jobs[m] == s.jobs[m]
  }

  lemma LosesMoves(s: State, t: State, n: Id, outcome: NodeState)
    requires Loses(s, t, n, outcome)
    ensures Moves(s, t)
  {
  }

  lemma SkipsMove(p: Plan, s: State, n: Id)
    requires forall m | m in s.runs && m in s.jobs :: !s.runs[m].state.Pending?
    ensures Moves(s, s.(runs := SkippedFrom(p.deps, s.runs, n)))
  {
  }

  /** Skipping every pending dependent of a lost node leaves no pending node without hope. */
  lemma SkipsLeaveHope(p: Plan, s: State, r: State, n: Id, outcome: NodeState)
    requires Sized(p, s) && Sized(p, r) && NoneDoomed(p, s) && Loses(s, r, n, outcome)
    ensures NoneDoomed(p, r.(runs := SkippedFrom(p.deps, r.runs, n)))
  {
    var t := r.(runs := SkippedFrom(p.deps, r.runs, n));
    forall m | m in t.runs && t.runs[m].state.Pending?
      ensures Hopeful(t.runs, p.deps[m])
    {
      assert s.runs[m].state.Pending? && !DependsOn(p.deps, m, n);
      assert Hopeful(s.runs, p.deps[m]);
      forall d | d in p.deps[m]
        ensures !t.runs[d].state.Failed? && !t.runs[d].state.Cancelled? && !t.runs[d].state.Skipped?
      {
        if d == n {
          EdgeIsDependency(p.deps, m, n);
        } else if DependsOn(p.deps, d, n) {
          DependsOnStep(p.deps, m, d, n);
        }
      }
    }
  }

  lemma HousekeepingMoves(p: Plan, work: Work, s: State)
    requires Base(p, work, s)
    ensures Moves(s, s.(runs := CancelUnstarted(s.runs)))
    ensures NonePending(s.(runs := CancelUnstarted(s.runs)))
  {
    forall m | m in s.runs
      ensures NodeOk(s, m)
    {
    }
  }

  lemma CancelQueuedMoves(p: Plan, work: Work, s: State)
    requires Base(p, work, s)
    ensures Moves(s, CancelQueued(s))
  {
    forall m | m in s.runs
      ensures Moved(s, CancelQueued(s), m)
    {
      CancelQueuedMovesOne(p, work, s, m);
    }
  }

  lemma CancelFits(j: Job, r: NodeRun)
    requires InStep(j, r) && j.status.Pending?
    ensures InStep(CancelledJob(j), r.(state := Cancelled, result := None))
  {
  }

  lemma CancelQueuedMovesOne(p: Plan, work: Work, s: State, m: Id)
    requires Base(p, work, s) && m in s.runs
    ensures Moved(s, CancelQueued(s), m)
  {
    var t := CancelQueued(s);
    if Queued(s, m) {
      assert JobOk(p, work, s, m);
      CancelFits(s.jobs[m], s.runs[m]);
      assert t.jobs[m] == CancelledJob(s.jobs[m]) && t.runs[m] == s.runs[m].(state := Cancelled, result := None);
    } else {
      assert t.runs[m] == s.runs[m] && (m in s.jobs ==> t.jobs[m] == s.jobs[m]);
    }
  }

  lemma MovesChain(s: State, t: State, u: State)
    requires Moves(s, t) && Moves(t, u)
    ensures Moves(s, u)
  {
    forall m | m in s.runs
      ensures Moved(s, u, m)
    {
      assert Moved(s, t, m) && Moved(t, u, m);
    }
  }

  lemma FinalizedMoves(p: Plan, s: State)
    ensures Moves(s, Finalized(p, s))
  {
  }

  /** Nobody becomes pending. */
  predicate NoNewPending(s: State, t: State) {
    forall m | m in t.runs && t.runs[m].state.Pending? :: m in s.runs && s.runs[m].state.Pending?
  }

  lemma HousekeptMoves(p: Plan, work: Work, s: State)
    requires Base(p, work, s)
    ensures Moves(s, Housekept(p, s)) && NonePending(Housekept(p, s))
  {
    var stopped := s.(runs := CancelUnstarted(s.runs));
    HousekeepingMoves(p, work, s);
    MovesKeepBase(p, work, s, stopped);
    CancelQueuedMoves(p, work, stopped);
    FinalizedMoves(p, CancelQueued(stopped));
    MovesChain(s, stopped, CancelQueued(stopped));
    MovesChain(s, CancelQueued(stopped), Finalized(p, CancelQueued(stopped)));
  }

  /** The record of a lost member with its dependents skipped. */
  ghost function LostAndSkipped(p: Plan, s: State, jobs: Jobs, n: Id, outcome: NodeState): State
    requires n in s.runs
  {
    var r := Recorded(s.runs, n, outcome, None);
    s.(jobs := jobs, runs := SkippedFrom(p.deps, r, n))
  }

  lemma LossMoves(p: Plan, work: Work, s: State, jobs: Jobs, n: Id, outcome: NodeState)
    requires Base(p, work, s)
    requires n in s.runs && Loses(s, s.(jobs := jobs, runs := Recorded(s.runs, n, outcome, None)), n, outcome)
    ensures Moves(s, LostAndSkipped(p, s, jobs, n, outcome)) && NoNewPending(s, LostAndSkipped(p, s, jobs, n, outcome))
  {
    var r := s.(jobs := jobs, runs := Recorded(s.runs, n, outcome, None));
    LosesMoves(s, r, n, outcome);
    MovesKeepBase(p, work, s, r);
    forall m | m in r.runs && m in r.jobs
      ensures !r.runs[m].state.Pending?
    {
      assert NodeOk(r, m);
    }
    SkipsMove(p, r, n);
    MovesChain(s, r, LostAndSkipped(p, s, jobs, n, outcome));
  }

  /** Without housekeeping the skips alone keep every pending node hopeful. */
  lemma LossLeavesHope(p: Plan, work: Work, s: State, jobs: Jobs, n: Id, outcome: NodeState)
    requires Core(p, work, s)
    requires n in s.runs && Loses(s, s.(jobs := jobs, runs := Recorded(s.runs, n, outcome, None)), n, outcome)
    requires n in s.jobs ==> !jobs[n].status.Pending?
    requires p.failFast ==> s.cancelRequested
    ensures var t := LostAndSkipped(p, s, jobs, n, outcome);
            Sized(p, t) && NoneDoomed(p, t) && StopsWaiting(p, t)
  {
    var r := s.(jobs := jobs, runs := Recorded(s.runs, n, outcome, None));
    var t := LostAndSkipped(p, s, jobs, n, outcome);
    SkipsLeaveHope(p, s, r, n, outcome);
    LossQueuesNobody(p, s, jobs, n, outcome);
    StaysStopped(p, s, t);
  }

  lemma LossQueuesNobody(p: Plan, s: State, jobs: Jobs, n: Id, outcome: NodeState)
    requires n in s.runs && Loses(s, s.(jobs := jobs, runs := Recorded(s.runs, n, outcome, None)), n, outcome)
    requires n in s.jobs ==> !jobs[n].status.Pending?
    ensures var t := LostAndSkipped(p, s, jobs, n, outcome);
            NoNewPending(s, t) && forall m | Queued(t, m) :: Queued(s, m)
  {
  }

  lemma StaysStopped(p: Plan, s: State, t: State)
    requires StopsWaiting(p, s) && t.cancelRequested == s.cancelRequested && (p.failFast ==> s.cancelRequested)
    requires NoNewPending(s, t) && forall m | Queued(t, m) :: Queued(s, m)
    ensures StopsWaiting(p, t)
  {
  }

  /** A lost member, with its skips and its housekeeping, keeps the invariant's core. */
  lemma MemberLostKeepsCore(p: Plan, work: Work, s: State, jobs: Jobs, n: Id, outcome: NodeState)
    requires Core(p, work, s)
    requires n in s.runs && Loses(s, s.(jobs := jobs, runs := Recorded(s.runs, n, outcome, None)), n, outcome)
    requires n in s.jobs ==> !jobs[n].status.Pending?
    ensures var t := MemberLost(p, s.(jobs := jobs), n, outcome);
            Core(p, work, t) && Moves(s, t) && NoNewPending(s, t)
  {
    var skipped := LostAndSkipped(p, s, jobs, n, outcome);
    LossMoves(p, work, s, jobs, n, outcome);
    MovesKeepBase(p, work, s, skipped);
    if p.failFast && !s.cancelRequested {
      var t := Housekept(p, skipped);
      HousekeptMoves(p, work, skipped);
      MovesChain(s, skipped, t);
      MovesKeepBase(p, work, s, t);
      NonePendingIsCore(p, work, t);
    } else {
      LossLeavesHope(p, work, s, jobs, n, outcome);
    }
  }

  lemma NonePendingIsCore(p: Plan, work: Work, s: State)
    requires Base(p, work, s) && NonePending(s) && !s.cancelRequested
    ensures Core(p, work, s)
  {
  }

  // ---- Starting members ---------------------------------------------------

  /** A node that may be started: no job yet, and every dependency completed. */
  ghost predicate Startable(p: Plan, s: State, n: Id)
    requires Sized(p, s)
  {
    n in s.runs && n in p.nodes && n !in s.jobs && AllCompleted(s.runs, p.deps[n])
  }

  ghost predicate Batch(p: Plan, s: State, ready: seq<Id>)
    requires Sized(p, s)
  {
    Distinct(ready) && forall n | n in ready :: Startable(p, s, n)
  }

  predicate SameCompleted(s: State, t: State) {
    && ResultsByNode(t.runs) == ResultsByNode(s.runs)
    && t.runs.Keys == s.runs.Keys
    && forall m | m in s.runs :: t.runs[m].state.Completed? <==> s.runs[m].state.Completed?
  }

  function StartedJob(s: State, n: Id, kwargs: map<string, Value>): State
    requires n in s.runs
  {
    s.(runs := Started(s.runs, n, n), jobs := s.jobs[n := Job(Pending, InHeap, kwargs, None)])
  }

  lemma ResultsUnmoved(runs: NodeRuns, n: Id, r: NodeRun)
    requires n in runs && !runs[n].state.Completed? && !r.state.Completed?
    ensures ResultsByNode(runs[n := r]) == ResultsByNode(runs)
  {
  }

  lemma StartKeepsBase(p: Plan, work: Work, s: State, n: Id, kwargs: map<string, Value>)
    requires Base(p, work, s) && Startable(p, s, n)
    requires Bind(p.nodes[n].kwargs, ResultsByNode(s.runs)) == Ok(kwargs)
    ensures var t := StartedJob(s, n, kwargs); Base(p, work, t) && SameCompleted(s, t)
  {
    var t := StartedJob(s, n, kwargs);
    assert NodeOk(s, n);
    ResultsUnmoved(s.runs, n, s.runs[n].(state := Running, jobId := Some(n)));
    forall m | m in t.jobs
      ensures JobOk(p, work, t, m)
    {
      if m != n { assert JobOk(p, work, s, m); }
    }
    StartKeepsNodes(s, n, kwargs);
  }

  lemma StartKeepsNodes(s: State, n: Id, kwargs: map<string, Value>)
    requires n in s.runs && forall m {:trigger NodeOk(s, m)} | m in s.runs :: NodeOk(s, m)
    ensures var t := StartedJob(s, n, kwargs); forall m {:trigger NodeOk(t, m)} | m in t.runs :: NodeOk(t, m)
  {
    var t := StartedJob(s, n, kwargs);
    forall m | m in t.runs
      ensures NodeOk(t, m)
    {
      assert NodeOk(s, m);
    }
  }

  lemma StartKeepsHope(p: Plan, s: State, n: Id, kwargs: map<string, Value>)
    requires Sized(p, s) && n in s.runs && NoneDoomed(p, s) && StopsWaiting(p, s) && !s.cancelRequested
    ensures var t := StartedJob(s, n, kwargs); NoneDoomed(p, t) && StopsWaiting(p, t) && NoNewPending(s, t)
  {
    var t := StartedJob(s, n, kwargs);
    forall m | m in t.runs && t.runs[m].state.Pending?
      ensures Hopeful(t.runs, p.deps[m])
    {
      assert Hopeful(s.runs, p.deps[m]);
    }
  }

  lemma StartOneKeepsCore(p: Plan, work: Work, s: State, n: Id)
    requires Core(p, work, s) && !s.cancelRequested && Startable(p, s, n)
    ensures var t := StartOne(p, s, n);
            && Core(p, work, t) && !t.cancelRequested && SameCompleted(s, t) && NoNewPending(s, t)
            && t.jobs.Keys <= s.jobs.Keys + {n} && !t.runs[n].state.Pending?
  {
    assert NodeOk(s, n);
    var t := StartOne(p, s, n);
    match Bind(p.nodes[n].kwargs, ResultsByNode(s.runs))
    case Ok(kwargs) =>
      StartKeepsBase(p, work, s, n, kwargs);
      StartKeepsHope(p, s, n, kwargs);
    case Err(_) =>
      assert s.(jobs := s.jobs) == s;
      MemberLostKeepsCore(p, work, s, s.jobs, n, Failed);
      MovesKeepResults(p, work, s, t);
      LostStays(p, s, n, Failed);
  }

  /** Neither the skips nor the housekeeping make a lost node pending again. */
  lemma LostStays(p: Plan, s: State, n: Id, outcome: NodeState)
    requires n in s.runs && outcome.Terminal()
    ensures n in MemberLost(p, s, n, outcome).runs
    ensures MemberLost(p, s, n, outcome).runs[n].state == outcome
  {
  }

  lemma BatchShrinks(p: Plan, s: State, t: State, ready: seq<Id>)
    requires Sized(p, s) && Sized(p, t) && ready != [] && Batch(p, s, ready)
    requires SameCompleted(s, t) && t.jobs.Keys <= s.jobs.Keys + {ready[0]}
    ensures Startable(p, s, ready[0]) && Batch(p, t, ready[1..])
  {
    assert ready[0] in ready;
    forall m | m in ready[1..]
      ensures Startable(p, t, m)
    {
      assert m in ready && m != ready[0];
    }
  }

  /** Starting a whole ready list keeps the core, completes nothing, and leaves no node of the
      list pending. */
  lemma {:induction false} StartAllKeepsCore(p: Plan, work: Work, s: State, ready: seq<Id>)
    requires Core(p, work, s) && !s.cancelRequested && Batch(p, s, ready)
    ensures var t := StartAll(p, s, ready);
            && Core(p, work, t) && !t.cancelRequested && SameCompleted(s, t) && NoNewPending(s, t)
            && (forall n | n in ready :: !t.runs[n].state.Pending?)
            && forall n | n in t.jobs :: n in s.jobs || n in ready
    decreases |ready|
  {
    if ready != [] {
      var n, rest := ready[0], ready[1..];
      assert Startable(p, s, n) by { assert n in ready; }
      var mid := StartOne(p, s, n);
      StartOneKeepsCore(p, work, s, n);
      BatchShrinks(p, s, mid, ready);
      StartAllKeepsCore(p, work, mid, rest);
      assert StartAll(p, s, ready) == StartAll(p, mid, rest);
      assert forall m | m in ready :: m == n || m in rest;
    }
  }

  // ---- Whole steps ---------------------------------------------------------

  predicate NoneReady(p: Plan, s: State) {
    forall n | n in s.runs :: !IsReady(p, s.runs, n)
  }

  lemma StatusIsFree(p: Plan, work: Work, s: State, status: NodeState)
    requires Core(p, work, s)
    ensures Core(p, work, s.(status := status))
  {
    var t := s.(status := status);
    forall m | m in t.jobs
      ensures JobOk(p, work, t, m)
    {
      assert JobOk(p, work, s, m);
    }
    forall m | m in t.runs
      ensures NodeOk(t, m)
    {
      assert NodeOk(s, m);
    }
    assert StopsWaiting(p, t) by {
      assert forall m :: Queued(t, m) <==> Queued(s, m);
    }
  }

  lemma FinalizedKeepsInv(p: Plan, work: Work, s: State)
    requires Core(p, work, s) && NoneReady(p, s)
    ensures Inv(p, work, Finalized(p, s))
  {
    StatusIsFree(p, work, s, Finalized(p, s).status);
    assert Finalized(p, s) == s.(status := Finalized(p, s).status);
  }

  lemma ReadyOnlyBefore(p: Plan, s: State, t: State, n: Id)
    requires Sized(p, s) && Sized(p, t) && NoNewPending(s, t)
    requires forall m | m in s.runs :: t.runs[m].state.Completed? <==> s.runs[m].state.Completed?
    ensures IsReady(p, t.runs, n) ==> IsReady(p, s.runs, n)
  {
  }

  lemma NoneReadyAfter(p: Plan, s: State, t: State)
    requires Sized(p, s) && Sized(p, t) && NoneReady(p, s) && NoNewPending(s, t)
    requires forall m | m in s.runs :: t.runs[m].state.Completed? <==> s.runs[m].state.Completed?
    ensures NoneReady(p, t)
  {
    forall m | m in t.runs
      ensures !IsReady(p, t.runs, m)
    {
      ReadyOnlyBefore(p, s, t, m);
    }
  }

  /** A step that loses member n: its job becomes `j`, which fits a node in that outcome. */
  lemma LossKeepsInv(p: Plan, work: Work, s: State, n: Id, j: Job)
    requires Inv(p, work, s) && n in s.jobs && !s.runs[n].state.Completed?
    requires j.kwargs == s.jobs[n].kwargs && (j.status.Failed? || j.status.Cancelled?)
    requires InStep(j, s.runs[n].(state := j.status, result := None))
    ensures var t := Advanced(p, WithJob(s, n, j), n);
            Inv(p, work, t) && Moves(s, t)
  {
    var lost := MemberLost(p, WithJob(s, n, j), n, j.status);
    MemberLostKeepsCore(p, work, s, s.jobs[n := j], n, j.status);
    MovesKeepResults(p, work, s, lost);
    NoneReadyAfter(p, s, lost);
    FinalizedKeepsInv(p, work, lost);
    FinalizedMoves(p, lost);
    MovesChain(s, lost, Finalized(p, lost));
  }

  /** The record right after a settled job reports completion. */
  function Completion(s: State, n: Id): State
    requires n in s.runs && n in s.jobs
  {
    WithJob(s, n, s.jobs[n].(place := Done)).(runs := Recorded(s.runs, n, Completed, s.jobs[n].result))
  }

  lemma CompletedHaveResults(p: Plan, work: Work, s: State, n: Id)
    requires Base(p, work, s) && n in s.runs && s.runs[n].state.Completed?
    ensures n in s.jobs && s.jobs[n].place.Done? && s.jobs[n].status.Completed?
    ensures s.runs[n].result.Some? && s.runs[n].result == work(n, s.jobs[n].kwargs)
  {
    assert NodeOk(s, n) && JobOk(p, work, s, n);
  }

  /** One more completed member changes no binding whose producers had all completed. */
  lemma CompletionKeepsBinding(p: Plan, work: Work, s: State, n: Id, m: Id)
    requires Base(p, work, s) && Derived(p) && n in s.jobs && !s.runs[n].state.Completed?
    requires m in p.nodes && AllCompleted(s.runs, p.deps[m])
    ensures AllCompleted(Completion(s, n).runs, p.deps[m])
    ensures Bind(p.nodes[m].kwargs, ResultsByNode(Completion(s, n).runs)) == Bind(p.nodes[m].kwargs, ResultsByNode(s.runs))
  {
    var a, b := ResultsByNode(s.runs), ResultsByNode(Completion(s, n).runs);
    forall i | 0 <= i < |p.nodes[m].kwargs| && p.nodes[m].kwargs[i].1.OutputRef?
      ensures var d := p.nodes[m].kwargs[i].1.node; d in a && d in b && a[d] == b[d]
    {
      var d := p.nodes[m].kwargs[i].1.node;
      assert d in NodeDependencies(p.nodes[m]);
      CompletedHaveResults(p, work, s, d);
    }
    BindReadsDependencies(p.nodes[m].kwargs, a, b);
  }

  lemma CompletionKeepsBase(p: Plan, work: Work, s: State, n: Id)
    requires Base(p, work, s) && Derived(p)
    requires n in s.jobs && s.jobs[n].place.Settled? && s.jobs[n].status.Completed?
    ensures Base(p, work, Completion(s, n))
  {
    var t := Completion(s, n);
    assert JobOk(p, work, s, n);
    forall m | m in t.jobs
      ensures JobOk(p, work, t, m)
    {
      assert JobOk(p, work, s, m);
      CompletionKeepsBinding(p, work, s, n, m);
    }
    forall m | m in t.runs
      ensures NodeOk(t, m)
    {
      assert NodeOk(s, m);
    }
  }

  lemma CompletionKeepsCore(p: Plan, work: Work, s: State, n: Id)
    requires Core(p, work, s) && Derived(p)
    requires n in s.jobs && s.jobs[n].place.Settled? && s.jobs[n].status.Completed?
    ensures Core(p, work, Completion(s, n)) && NoNewPending(s, Completion(s, n))
  {
    var t := Completion(s, n);
    CompletionKeepsBase(p, work, s, n);
    assert NodeOk(s, n);
    forall m | m in t.runs && t.runs[m].state.Pending?
      ensures Hopeful(t.runs, p.deps[m])
    {
      assert Hopeful(s.runs, p.deps[m]);
    }
    assert forall m :: Queued(t, m) ==> Queued(s, m);
  }

  lemma ReadyBatch(p: Plan, work: Work, s: State)
    requires Base(p, work, s)
    ensures Batch(p, s, Ready(p, s.runs))
    ensures NonePending(s) ==> Ready(p, s.runs) == []
  {
    ReadyMeaning(p, s.runs);
    forall n | n in Ready(p, s.runs)
      ensures Startable(p, s, n)
    {
      assert NodeOk(s, n);
    }
    if Ready(p, s.runs) != [] {
      assert IsReady(p, s.runs, Ready(p, s.runs)[0]);
    }
  }

  /** Starting everything that is ready leaves nothing ready. */
  lemma StartReadyLeavesNone(p: Plan, work: Work, s: State)
    requires Core(p, work, s)
    ensures ReadyBatchStarts(p, s)
    ensures var t := StartAll(p, s, Ready(p, s.runs));
            Core(p, work, t) && NoneReady(p, t) && SameCompleted(s, t) && t.cancelRequested == s.cancelRequested
  {
    var ready := Ready(p, s.runs);
    ReadyMeaning(p, s.runs);
    ReadyBatch(p, work, s);
    if s.cancelRequested {
      assert StartAll(p, s, ready) == s;
      assert forall n | n in s.runs && IsReady(p, s.runs, n) :: n in ready;
    } else {
      var t := StartAll(p, s, ready);
      StartAllKeepsCore(p, work, s, ready);
      forall n | n in t.runs
        ensures !IsReady(p, t.runs, n)
      {
        ReadyOnlyBefore(p, s, t, n);
      }
    }
  }

  ghost predicate ReadyBatchStarts(p: Plan, s: State) {
    forall n | n in Ready(p, s.runs) :: n in s.runs && n in p.nodes
  }

  lemma CompletionIs(s: State, n: Id)
    requires n in s.runs && n in s.jobs
    ensures var w := WithJob(s, n, s.jobs[n].(place := Done));
            w.(runs := Recorded(w.runs, n, Completed, w.jobs[n].result)) == Completion(s, n)
  {
  }

  lemma ReportUnfolds(p: Plan, work: Work, s: State, n: Id)
    requires Sized(p, s) && n in s.jobs && s.jobs[n].place.Settled? && s.jobs[n].status.Completed?
    ensures ReadyBatchStarts(p, Completion(s, n))
    ensures Step(p, work, s, Report(n)) ==
            Finalized(p, StartAll(p, Completion(s, n), Ready(p, Completion(s, n).runs)))
  {
    CompletionIs(s, n);
    ReadyMeaning(p, Completion(s, n).runs);
    var w := WithJob(s, n, s.jobs[n].(place := Done));
    assert Step(p, work, s, Report(n)) == Advanced(p, w, n);
  }

  /** What reporting a completed member comes to. */
  lemma ReportOfCompletion(p: Plan, work: Work, s: State, n: Id) returns (done: State, t: State)
    requires Inv(p, work, s) && Derived(p)
    requires n in s.jobs && s.jobs[n].place.Settled? && s.jobs[n].status.Completed?
    ensures done == Completion(s, n) && Core(p, work, done) && NoNewPending(s, done) && ReadyBatchStarts(p, done)
    ensures t == StartAll(p, done, Ready(p, done.runs)) && Step(p, work, s, Report(n)) == Finalized(p, t)
  {
    ReportUnfolds(p, work, s, n);
    CompletionKeepsCore(p, work, s, n);
    done := Completion(s, n);
    t := StartAll(p, done, Ready(p, done.runs));
  }

  lemma CompletionKeepsInv(p: Plan, work: Work, s: State, n: Id)
    requires Inv(p, work, s) && Derived(p)
    requires n in s.jobs && s.jobs[n].place.Settled? && s.jobs[n].status.Completed?
    ensures Inv(p, work, Step(p, work, s, Report(n)))
  {
    var done, t := ReportOfCompletion(p, work, s, n);
    StartReadyLeavesNone(p, work, done);
    FinalizedKeepsInv(p, work, t);
  }

  /** A job moves on without its composition hearing of it. */
  lemma QuietStepKeepsInv(p: Plan, work: Work, s: State, n: Id, j: Job)
    requires Inv(p, work, s) && n in s.jobs
    requires j.kwargs == s.jobs[n].kwargs && InStep(j, s.runs[n])
    requires j.status.Completed? ==> j.result.Some? && j.result == work(n, j.kwargs)
    requires j.status.Pending? ==> s.jobs[n].status.Pending?
    ensures Inv(p, work, WithJob(s, n, j))
  {
    WithJobKeepsBase(p, work, s, n, j);
    assert forall m :: Queued(WithJob(s, n, j), m) ==> Queued(s, m);
  }

  lemma AskingKeepsBase(p: Plan, work: Work, s: State)
    requires Base(p, work, s)
    ensures Base(p, work, s.(cancelRequested := true))
  {
    var asked := s.(cancelRequested := true);
    forall m | m in s.runs ensures NodeOk(asked, m) { assert NodeOk(s, m); }
    forall m | m in s.jobs ensures JobOk(p, work, asked, m) { assert JobOk(p, work, s, m); }
  }

  lemma CancelRunKeepsInv(p: Plan, work: Work, s: State)
    requires Inv(p, work, s)
    ensures Inv(p, work, RunCancelled(p, s))
  {
    if s.status.Running? {
      var asked := s.(cancelRequested := true);
      AskingKeepsBase(p, work, s);
      var stopped := asked.(runs := CancelUnstarted(asked.runs));
      HousekeepingMoves(p, work, asked);
      MovesKeepBase(p, work, asked, stopped);
      CancelQueuedMoves(p, work, stopped);
      MovesKeepBase(p, work, stopped, CancelQueued(stopped));
      assert NonePending(CancelQueued(stopped)) && !SomeQueued(CancelQueued(stopped));
      FinalizedKeepsInv(p, work, CancelQueued(stopped));
    }
  }

  lemma QuietStepsKeepInv(p: Plan, work: Work, s: State, a: Action)
    requires Inv(p, work, s) && Enabled(s, a) && (a.Pop? || a.Begin? || a.Settle?)
    ensures Inv(p, work, Step(p, work, s, a))
  {
    assert JobOk(p, work, s, a.n);
    QuietStepFits(p, work, s, a);
    QuietStepKeepsInv(p, work, s, a.n, Step(p, work, s, a).jobs[a.n]);
  }

  /** Popping, beginning and settling a job keep it in step with its node. */
  lemma QuietStepFits(p: Plan, work: Work, s: State, a: Action)
    requires Sized(p, s) && Enabled(s, a) && (a.Pop? || a.Begin? || a.Settle?)
    requires JobOk(p, work, s, a.n)
    ensures var t := Step(p, work, s, a);
            && a.n in t.jobs && t == WithJob(s, a.n, t.jobs[a.n])
            && var j := t.jobs[a.n];
               && j.kwargs == s.jobs[a.n].kwargs && InStep(j, s.runs[a.n])
               && (j.status.Completed? ==> j.result.Some? && j.result == work(a.n, j.kwargs))
               && (j.status.Pending? ==> s.jobs[a.n].status.Pending?)
  {
  }

  /** The job a member is left with by a step that loses it. */
  function LostJob(s: State, a: Action): Job
    requires Enabled(s, a) && (a.Report? || a.Refuse? || a.CancelMember?)
  {
    match a
    case Report(n) => s.jobs[n].(place := Done)
    case Refuse(n) => s.jobs[n].(place := Done, status := Failed)
    case CancelMember(n) => CancelledJob(s.jobs[n])
  }

  /** The step records a member as failed or cancelled. */
  predicate LosesMember(s: State, a: Action)
    requires Enabled(s, a)
  {
    a.Refuse? || a.CancelMember? || (a.Report? && !s.jobs[a.n].status.Completed?)
  }

  lemma LossSteps(p: Plan, work: Work, s: State, a: Action)
    requires Inv(p, work, s) && Enabled(s, a) && LosesMember(s, a)
    ensures var j := LostJob(s, a);
            && Step(p, work, s, a) == Advanced(p, WithJob(s, a.n, j), a.n)
            && !s.runs[a.n].state.Completed? && j.kwargs == s.jobs[a.n].kwargs && (j.status.Failed? || j.status.Cancelled?)
            && InStep(j, s.runs[a.n].(state := j.status, result := None))
  {
    assert JobOk(p, work, s, a.n);
  }

  /** Every step of the queue, in whatever order the environment takes them, keeps the
      invariant. */
  lemma StepKeepsInv(p: Plan, work: Work, s: State, a: Action)
    requires Inv(p, work, s) && Derived(p) && Enabled(s, a)
    ensures Inv(p, work, Step(p, work, s, a))
  {
    if a.CancelRun? {
      CancelRunKeepsInv(p, work, s);
    } else if LosesMember(s, a) {
      LossSteps(p, work, s, a);
      LossKeepsInv(p, work, s, a.n, LostJob(s, a));
    } else if a.Report? {
      CompletionKeepsInv(p, work, s, a.n);
    } else {
      QuietStepsKeepInv(p, work, s, a);
    }
  }

  // ---- Submission ----------------------------------------------------------

  lemma {:induction false} StaticArgsBind(kwargs: seq<(string, Arg)>, results: map<Id, Value>)
    requires forall i | 0 <= i < |kwargs| :: kwargs[i].1.Static?
    ensures Bind(kwargs, results).Ok?
  {
    if kwargs != [] {
      StaticArgsBind(kwargs[..|kwargs| - 1], results);
    }
  }

  lemma RefIsDependency(n: Node, i: nat)
    requires i < |n.kwargs|
    ensures n.kwargs[i].1.OutputRef? ==> n.kwargs[i].1.node in NodeDependencies(n)
  {
  }

  /** Nodes without dependencies have nothing to bind, so all of them start. */
  lemma {:induction false} IndependentNodesStart(p: Plan, s: State, ready: seq<Id>)
    requires Derived(p)
    requires forall n | n in ready :: n in s.runs && n in p.nodes && p.deps[n] == {}
    ensures StartAll(p, s, ready).runs.Keys == s.runs.Keys
    ensures forall n | n in s.runs :: n in ready || s.runs[n].state.Running? ==> StartAll(p, s, ready).runs[n].state.Running?
    decreases |ready|
  {
    if ready != [] {
      var n := ready[0];
      assert n in ready;
      forall i | 0 <= i < |p.nodes[n].kwargs|
        ensures p.nodes[n].kwargs[i].1.Static?
      {
        RefIsDependency(p.nodes[n], i);
      }
      StaticArgsBind(p.nodes[n].kwargs, ResultsByNode(s.runs));
      IndependentNodesStart(p, StartOne(p, s, n), ready[1..]);
      assert forall m | m in ready :: m == n || m in ready[1..];
    }
  }

  lemma SomeNodeIndependent(g: Graph, n: Id) returns (m: Id)
    requires Closed(g) && Acyclic(g) && n in g
    ensures m in g && g[m] == {}
    decreases Rank(g, n)
  {
    m := n;
    if g[n] != {} {
      var d :| d in g[n];
      AcyclicRanks(g);
      m := SomeNodeIndependent(g, d);
    }
  }

  lemma FreshCore(p: Plan, work: Work)
    requires WellFormed(p)
    ensures Core(p, work, State(FreshRuns(p), map[], false, Running))
  {
    var s := State(FreshRuns(p), map[], false, Running);
    assert forall m | m in s.runs :: NodeOk(s, m);
    assert forall m | m in s.runs :: Hopeful(s.runs, p.deps[m]);
  }

  /** Submission starts every node without dependencies, and there is one unless the
      composition is empty. */
  lemma SubmittedInv(p: Plan, work: Work)
    requires ValidPlan(p)
    ensures Inv(p, work, Submitted(p))
  {
    var s := State(FreshRuns(p), map[], false, Running);
    FreshCore(p, work);
    if p.order == [] {
      assert Elements(p.order) == {};
      StatusIsFree(p, work, s, Completed);
    } else {
      assert p.order[0] in Elements(p.order);
      var root := SomeNodeIndependent(p.deps, p.order[0]);
      StartReadyLeavesNone(p, work, s);
      RootStarts(p, s, root);
    }
  }

  lemma RootStarts(p: Plan, s: State, root: Id)
    requires WellFormed(p) && Derived(p) && s.runs == FreshRuns(p) && root in p.deps && p.deps[root] == {}
    ensures ReadyBatchStarts(p, s)
    ensures !AllTerminal(StartAll(p, s, Ready(p, s.runs)).runs)
  {
    IndependentReady(p, s);
    ReadyMeaning(p, s.runs);
    assert IsReady(p, s.runs, root);
    IndependentNodesStart(p, s, Ready(p, s.runs));
  }

  lemma IndependentReady(p: Plan, s: State)
    requires WellFormed(p) && s.runs == FreshRuns(p)
    ensures forall n | n in Ready(p, s.runs) :: n in s.runs && n in p.nodes && p.deps[n] == {}
  {
    ReadyMeaning(p, s.runs);
  }
}
