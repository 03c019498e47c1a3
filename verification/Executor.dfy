/** What the queue's composition steps do to a run, as functions of its state: starting ready
    members, recording outcomes, the fail-fast housekeeping, and finalization. */
module Executor {
  import opened Results
  import opened Graphs
  import opened Compositions
  import opened CompositionRuns

  /** Where a member job is: in the pending heap, popped by the dispatch loop but not yet
      begun, executing, settled but not yet reported to its composition, or done. */
  datatype Place = InHeap | Popped | Executing | Settled | Done

  /** A job's status takes the first five node states; its id is the id of its node. */
  datatype Job = Job(status: NodeState, place: Place, kwargs: map<string, Value>, result: Option<Value>)

  type Jobs = map<Id, Job>

  datatype State = State(runs: NodeRuns, jobs: Jobs, cancelRequested: bool, status: NodeState)

  /** The run takes its derived status once every node is terminal, and keeps it. */
  function Finalized(p: Plan, s: State): State {
    if s.status.Running? && AllTerminal(s.runs)
    then s.(status := DeriveTerminalStatus(p.failFast, s.cancelRequested, s.runs))
    else s
  }

  /** A member whose job has not begun: what housekeeping and a user cancel can still stop. */
  predicate Queued(s: State, n: Id) {
    n in s.runs && s.runs[n].state.Running? && n in s.jobs && s.jobs[n].status.Pending?
  }

  /** A cancelled job leaves the heap; one already popped stays with the dispatch loop. */
  function CancelledJob(j: Job): Job {
    j.(status := Cancelled, place := if j.place.InHeap? then Done else j.place)
  }

  function CancelUnstarted(runs: NodeRuns): NodeRuns {
    map n | n in runs :: if runs[n].state.Pending? then runs[n].(state := Cancelled) else runs[n]
  }

  function CancelQueued(s: State): State {
    s.(runs := map n | n in s.runs :: if Queued(s, n) then s.runs[n].(state := Cancelled, result := None) else s.runs[n],
       jobs := map n | n in s.jobs :: if Queued(s, n) then CancelledJob(s.jobs[n]) else s.jobs[n])
  }

  predicate SomeQueued(s: State) {
    exists n | n in s.jobs :: Queued(s, n)
  }

  /** Fail-fast housekeeping: every unstarted node and every queued member is cancelled. */
  function Housekept(p: Plan, s: State): State {
    var stopped := s.(runs := CancelUnstarted(s.runs));
    if SomeQueued(stopped) then Finalized(p, CancelQueued(stopped)) else stopped
  }

  /** A member that failed or was cancelled: dependents are skipped, then housekeeping. */
  ghost function MemberLost(p: Plan, s: State, n: Id, outcome: NodeState): State
    requires n in s.runs
  {
    var skipped := s.(runs := SkippedFrom(p.deps, Recorded(s.runs, n, outcome, None), n));
    if p.failFast && !s.cancelRequested then Housekept(p, skipped) else skipped
  }

  /** Bind the node's arguments and enqueue its job, or record the binding failure. */
  ghost function StartOne(p: Plan, s: State, n: Id): State
    requires n in s.runs && n in p.nodes
  {
    match Bind(p.nodes[n].kwargs, ResultsByNode(s.runs))
    case Err(_) => MemberLost(p, s, n, Failed)
    case Ok(kwargs) =>
      s.(runs := Started(s.runs, n, n), jobs := s.jobs[n := Job(Pending, InHeap, kwargs, None)])
  }

  /** The nodes of a ready list, one after the other; the list is not scanned again. */
  ghost function StartAll(p: Plan, s: State, ready: seq<Id>): State
    requires forall n | n in ready :: n in s.runs && n in p.nodes
    decreases |ready|
  {
    if ready == [] then s else StartAll(p, StartOne(p, s, ready[0]), ready[1..])
  }

  ghost predicate Sized(p: Plan, s: State) {
    WellFormed(p) && s.runs.Keys == p.deps.Keys && s.jobs.Keys <= p.deps.Keys
  }

  /** A member job reached a terminal status. */
  ghost function Advanced(p: Plan, s: State, n: Id): State
    requires Sized(p, s) && n in s.jobs
  {
    var j := s.jobs[n];
    Finalized(p,
      if j.status.Completed? then
        var done := s.(runs := Recorded(s.runs, n, Completed, j.result));
        ReadyMeaning(p, done.runs);
        StartAll(p, done, Ready(p, done.runs))
      else MemberLost(p, s, n, j.status))
  }

  /** Cancelling a member job acts only while the job has not begun. */
  ghost function MemberCancelled(p: Plan, s: State, n: Id): State
    requires Sized(p, s) && n in s.jobs
  {
    if s.jobs[n].status.Pending? then Advanced(p, s.(jobs := s.jobs[n := CancelledJob(s.jobs[n])]), n) else s
  }

  /** User cancel of the whole run. */
  function RunCancelled(p: Plan, s: State): State {
    if s.status.Running? then
      Finalized(p, CancelQueued(s.(cancelRequested := true, runs := CancelUnstarted(s.runs))))
    else s
  }

  ghost function Submitted(p: Plan): State
    requires WellFormed(p)
  {
    var s := State(FreshRuns(p), map[], false, Running);
    ReadyMeaning(p, s.runs);
    if p.order == [] then s.(status := Completed) else StartAll(p, s, Ready(p, s.runs))
  }
}
