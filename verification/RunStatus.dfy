/** Why members are skipped and what the final status says, and exactly which reports of cancelled
    jobs leave a skip without a cause or a status that the members no longer derive. */
module RunStatus {
  import opened Results
  import opened Graphs
  import opened Compositions
  import opened CompositionRuns
  import opened Executor
  import opened RunInvariants
  import opened RunTheorems
  import opened RunOutcomes

  predicate Lost(st: NodeState) { st.Failed? || st.Cancelled? }

  /** n was skipped because something it depends on was lost. */
  ghost predicate Caused(p: Plan, s: State, n: Id) {
    exists x :: x in s.runs && Lost(s.runs[x].state) && DependsOn(p.deps, n, x)
  }

  ghost predicate SkipsCaused(p: Plan, s: State) {
    forall n {:trigger Caused(p, s, n)} | n in s.runs && s.runs[n].state.Skipped? :: Caused(p, s, n)
  }

  lemma CauseStays(p: Plan, s: State, t: State, n: Id)
    requires Final(s, t) && Caused(p, s, n)
    ensures Caused(p, t, n)
  {
    var x :| x in s.runs && Lost(s.runs[x].state) && DependsOn(p.deps, n, x);
    assert t.runs[x].state == s.runs[x].state;
  }

  lemma LossCauses(p: Plan, s: State, n: Id, outcome: NodeState)
    requires n in s.runs && Lost(outcome) && SkipsCausedBut(p, s, n)
    ensures SkipsCaused(p, MemberLost(p, s, n, outcome))
  {
    var t := MemberLost(p, s, n, outcome);
    LosingIsFinal(p, s, n, outcome);
    forall m | m in t.runs && t.runs[m].state.Skipped?
      ensures Caused(p, t, m)
    {
      if s.runs[m].state.Skipped? {
        assert Caused(p, s, m);
        var x :| x in s.runs && Lost(s.runs[x].state) && DependsOn(p.deps, m, x);
        assert x != n ==> t.runs[x].state == s.runs[x].state;
      } else {
        assert DependsOn(p.deps, m, n) && Lost(t.runs[n].state);
      }
    }
  }

  /** As SkipsCaused, but for n itself, which is about to be recorded. */
  ghost predicate SkipsCausedBut(p: Plan, s: State, n: Id) {
    forall m {:trigger Caused(p, s, m)} | m in s.runs && s.runs[m].state.Skipped? && m != n :: Caused(p, s, m)
  }

  lemma {:induction false} StartsCause(p: Plan, s: State, ready: seq<Id>)
    requires Distinct(ready) && forall n | n in ready :: n in s.runs && n in p.nodes
    requires forall n | n in s.runs && s.runs[n].state.Skipped? && n !in ready :: CausedOutside(p, s, n, ready)
    ensures SkipsCaused(p, StartAll(p, s, ready))
    decreases |ready|
  {
    if ready == [] {
      forall n | n in s.runs && s.runs[n].state.Skipped?
        ensures Caused(p, s, n)
      {
        assert CausedOutside(p, s, n, ready);
      }
    } else {
      var n, rest := ready[0], ready[1..];
      assert n in ready && n !in rest && forall m | m in rest :: m in ready;
      var mid := StartOne(p, s, n);
      StartingOneIsFinal(p, s, n);
      forall m | m in mid.runs && mid.runs[m].state.Skipped? && m !in rest
        ensures CausedOutside(p, mid, m, rest)
      {
        assert s.runs[m].state.Skipped? && m !in ready ==> CausedOutside(p, s, m, ready);
        StartCauses(p, s, ready, m);
      }
      StartsCause(p, mid, rest);
    }
  }

  /** The cause is not among the nodes that are still to be started. */
  ghost predicate CausedOutside(p: Plan, s: State, n: Id, ready: seq<Id>) {
    exists x :: x in s.runs && x !in ready && Lost(s.runs[x].state) && DependsOn(p.deps, n, x)
  }

  lemma StartCauses(p: Plan, s: State, ready: seq<Id>, m: Id)
    requires Distinct(ready) && ready != [] && ready[0] in s.runs && ready[0] in p.nodes
    requires var mid := StartOne(p, s, ready[0]); m in mid.runs && mid.runs[m].state.Skipped? && m !in ready[1..]
    requires s.runs[m].state.Skipped? && m !in ready ==> CausedOutside(p, s, m, ready)
    ensures CausedOutside(p, StartOne(p, s, ready[0]), m, ready[1..])
  {
    var n := ready[0];
    StartingOneIsFinal(p, s, n);
    StartedIsNotSkipped(p, s, n);
    assert n !in ready[1..] && forall k | k in ready :: k == n || k in ready[1..];
    if s.runs[m].state.Skipped? {
      var x :| x in s.runs && x !in ready && Lost(s.runs[x].state) && DependsOn(p.deps, m, x);
      assert x != n && x !in ready[1..];
    } else {
      NewSkipCaused(p, s, n, m);
    }
  }

  lemma StartedIsNotSkipped(p: Plan, s: State, n: Id)
    requires n in s.runs && n in p.nodes
    ensures n in StartOne(p, s, n).runs && !StartOne(p, s, n).runs[n].state.Skipped?
  {
    if Bind(p.nodes[n].kwargs, ResultsByNode(s.runs)).Err? {
      LosingIsFinal(p, s, n, Failed);
    }
  }

  lemma NewSkipCaused(p: Plan, s: State, n: Id, m: Id)
    requires n in s.runs && n in p.nodes && m in s.runs && m != n && !s.runs[m].state.Skipped?
    requires m in StartOne(p, s, n).runs && StartOne(p, s, n).runs[m].state.Skipped?
    ensures n in StartOne(p, s, n).runs && StartOne(p, s, n).runs[n].state.Failed? && DependsOn(p.deps, m, n)
  {
    if Bind(p.nodes[n].kwargs, ResultsByNode(s.runs)).Err? {
      LosingIsFinal(p, s, n, Failed);
    }
  }

  lemma NoNewSkips(p: Plan, work: Work, s: State, a: Action)
    requires Inv(p, work, s) && Enabled(s, a) && (a.CancelRun? || a.Pop? || a.Begin? || a.Settle?)
    ensures var t := Step(p, work, s, a);
            forall m | m in t.runs && t.runs[m].state.Skipped? :: m in s.runs && s.runs[m].state.Skipped?
  {
    if a.CancelRun? { CancelRunSkipsNone(p, s); }
  }

  lemma CancelRunSkipsNone(p: Plan, s: State)
    ensures var t := RunCancelled(p, s);
            forall m | m in t.runs && t.runs[m].state.Skipped? :: m in s.runs && s.runs[m].state.Skipped?
  {
  }

  lemma OldCausesStay(p: Plan, s: State, t: State)
    requires SkipsCaused(p, s) && Final(s, t)
    requires forall m | m in t.runs && t.runs[m].state.Skipped? :: m in s.runs && s.runs[m].state.Skipped?
    ensures SkipsCaused(p, t)
  {
    forall m | m in t.runs && t.runs[m].state.Skipped?
      ensures Caused(p, t, m)
    {
      CauseStays(p, s, t, m);
    }
  }

  /** Something other than n that m depends on was lost. */
  ghost predicate CausedBesides(p: Plan, s: State, m: Id, n: Id) {
    exists x :: x in s.runs && x != n && Lost(s.runs[x].state) && DependsOn(p.deps, m, x)
  }

  /** A completed job reports on a cancelled node, and that node is all that some skipped node
      was skipped for. */
  ghost predicate Uncauses(p: Plan, s: State, a: Action)
    requires Enabled(s, a)
  {
    && a.Report? && s.jobs[a.n].status.Completed? && a.n in s.runs && s.runs[a.n].state.Cancelled?
    && exists m {:trigger CausedBesides(p, s, m, a.n)} ::
         m in s.runs && s.runs[m].state.Skipped? && !CausedBesides(p, s, m, a.n)
  }

  /** A step leaves a skipped node without a lost one above it exactly so. */
  lemma SkipsStayCausedIff(p: Plan, work: Work, s: State, a: Action)
    requires Inv(p, work, s) && Derived(p) && Enabled(s, a) && SkipsCaused(p, s)
    ensures SkipsCaused(p, Step(p, work, s, a)) <==> !Uncauses(p, s, a)
  {
    if a.CancelRun? || a.Pop? || a.Begin? || a.Settle? {
      StepIsFinal(p, work, s, a);
      NoNewSkips(p, work, s, a);
      OldCausesStay(p, s, Step(p, work, s, a));
    } else if LosesMember(s, a) {
      MemberLossCauses(p, work, s, a);
    } else if Revives(s, a) {
      RevivalCauses(p, work, s, a.n);
    } else {
      CompletionCauses(p, work, s, a.n);
    }
  }

  /** A cancelled node that completes after all unlocks nothing: what waited for it was stopped. */
  lemma RevivalUnlocksNothing(p: Plan, work: Work, s: State, n: Id)
    requires Inv(p, work, s) && n in s.jobs && s.runs[n].state.Cancelled?
    ensures Ready(p, Completion(s, n).runs) == []
  {
    var done := Completion(s, n);
    ReadyMeaning(p, done.runs);
    forall m
      ensures m !in Ready(p, done.runs)
    {
      assert m in s.runs && s.runs[m].state.Pending? ==> Hopeful(s.runs, p.deps[m]);
      assert m in s.runs ==> !IsReady(p, s.runs, m);
    }
    EmptyOrInhabited(Ready(p, done.runs));
  }

  lemma RevivalSteps(p: Plan, work: Work, s: State, n: Id)
    requires Inv(p, work, s) && Derived(p) && Enabled(s, Report(n)) && s.jobs[n].status.Completed?
    requires s.runs[n].state.Cancelled?
    ensures Step(p, work, s, Report(n)) == Finalized(p, Completion(s, n))
  {
    var done, t := ReportOfCompletion(p, work, s, n);
    RevivalUnlocksNothing(p, work, s, n);
    assert t == done;
  }

  lemma SameRunsSameCauses(p: Plan, s: State, t: State)
    requires t.runs == s.runs
    ensures SkipsCaused(p, t) <==> SkipsCaused(p, s)
  {
    forall n
      ensures Caused(p, t, n) <==> Caused(p, s, n)
    {
    }
  }

  lemma CausedWithout(p: Plan, s: State, n: Id, m: Id)
    requires n in s.runs && n in s.jobs
    ensures Caused(p, Completion(s, n), m) <==> CausedBesides(p, s, m, n)
  {
    var done := Completion(s, n);
    if CausedBesides(p, s, m, n) {
      var x :| x in s.runs && x != n && Lost(s.runs[x].state) && DependsOn(p.deps, m, x);
      assert x in done.runs && Lost(done.runs[x].state);
    }
    if Caused(p, done, m) {
      var x :| x in done.runs && Lost(done.runs[x].state) && DependsOn(p.deps, m, x);
      assert x != n && Lost(s.runs[x].state);
    }
  }

  lemma RevivalCauses(p: Plan, work: Work, s: State, n: Id)
    requires Inv(p, work, s) && Derived(p) && Enabled(s, Report(n)) && s.jobs[n].status.Completed?
    requires s.runs[n].state.Cancelled?
    ensures SkipsCaused(p, Step(p, work, s, Report(n))) <==> !Uncauses(p, s, Report(n))
  {
    RevivalSteps(p, work, s, n);
    SameRunsSameCauses(p, Completion(s, n), Finalized(p, Completion(s, n)));
    CompletionUncauses(p, s, n);
  }

  lemma CompletionUncauses(p: Plan, s: State, n: Id)
    requires n in s.runs && n in s.jobs && s.runs[n].state.Cancelled?
    requires Enabled(s, Report(n)) && s.jobs[n].status.Completed?
    ensures SkipsCaused(p, Completion(s, n)) <==> !Uncauses(p, s, Report(n))
  {
    var done := Completion(s, n);
    forall m
      ensures Caused(p, done, m) <==> CausedBesides(p, s, m, n)
    {
      CausedWithout(p, s, n, m);
    }
    assert forall m | m in s.runs :: done.runs[m].state.Skipped? <==> s.runs[m].state.Skipped?;
  }

  lemma MemberLossCauses(p: Plan, work: Work, s: State, a: Action)
    requires Inv(p, work, s) && Enabled(s, a) && LosesMember(s, a) && SkipsCaused(p, s)
    ensures SkipsCaused(p, Step(p, work, s, a))
  {
    LossSteps(p, work, s, a);
    var j := LostJob(s, a);
    var w := WithJob(s, a.n, j);
    forall m | m in w.runs && w.runs[m].state.Skipped?
      ensures Caused(p, w, m)
    {
      assert Final(s, w);
      CauseStays(p, s, w, m);
    }
    LossCauses(p, w, a.n, j.status);
    var lost := MemberLost(p, w, a.n, j.status);
    FinalizedKeepsCauses(p, lost);
  }

  lemma FinalizedKeepsCauses(p: Plan, s: State)
    requires SkipsCaused(p, s)
    ensures SkipsCaused(p, Finalized(p, s))
  {
    forall m | m in s.runs && s.runs[m].state.Skipped?
      ensures Caused(p, Finalized(p, s), m)
    {
      CauseStays(p, s, Finalized(p, s), m);
    }
  }

  lemma CompletionCauses(p: Plan, work: Work, s: State, n: Id)
    requires Inv(p, work, s) && Derived(p) && Enabled(s, Report(n)) && s.jobs[n].status.Completed?
    requires !Revives(s, Report(n)) && SkipsCaused(p, s)
    ensures SkipsCaused(p, Step(p, work, s, Report(n)))
  {
    var done, t := ReportOfCompletion(p, work, s, n);
    CompletionIsFinal(p, work, s, n);
    forall m | m in done.runs && done.runs[m].state.Skipped?
      ensures Caused(p, done, m)
    {
      CauseStays(p, s, done, m);
    }
    ReadyMeaning(p, done.runs);
    forall m | m in done.runs && done.runs[m].state.Skipped? && m !in Ready(p, done.runs)
      ensures CausedOutside(p, done, m, Ready(p, done.runs))
    {
      LostAreNotReady(p, done, m, Ready(p, done.runs));
    }
    StartsCause(p, done, Ready(p, done.runs));
    FinalizedKeepsCauses(p, t);
  }

  lemma CompletionIsFinal(p: Plan, work: Work, s: State, n: Id)
    requires Inv(p, work, s) && Enabled(s, Report(n)) && s.jobs[n].status.Completed? && !Revives(s, Report(n))
    ensures Final(s, Completion(s, n))
    ensures forall m | m in s.runs && Completion(s, n).runs[m].state.Skipped? :: s.runs[m].state.Skipped?
  {
    assert JobOk(p, work, s, n);
  }

  lemma LostAreNotReady(p: Plan, s: State, m: Id, ready: seq<Id>)
    requires Caused(p, s, m) && forall n | n in ready :: IsReady(p, s.runs, n)
    ensures CausedOutside(p, s, m, ready)
  {
    var x :| x in s.runs && Lost(s.runs[x].state) && DependsOn(p.deps, m, x);
    assert !IsReady(p, s.runs, x);
  }

  // ---- The final status -------------------------------------------------------

  /** A member has failed under fail-fast, and the run says so. */
  predicate SaysFailed(p: Plan, s: State) {
    p.failFast && !s.cancelRequested && SomeIn(s.runs, Failed) && s.status.Failed?
  }

  /** Once set, the status is the one the members derive, or already says that one failed. */
  predicate StatusTold(p: Plan, s: State) {
    s.status.Running?
    || (AllTerminal(s.runs) && s.status == DeriveTerminalStatus(p.failFast, s.cancelRequested, s.runs))
    || SaysFailed(p, s)
  }

  lemma FinalizedTold(p: Plan, s: State)
    requires StatusTold(p, s)
    ensures StatusTold(p, Finalized(p, s))
  {
  }

  lemma SameStatesDeriveSame(p: Plan, s: State, t: State)
    requires Final(s, t) && AllTerminal(s.runs)
    ensures AllTerminal(t.runs)
    ensures SomeIn(s.runs, Failed) <==> SomeIn(t.runs, Failed)
    ensures SomeIn(s.runs, Cancelled) <==> SomeIn(t.runs, Cancelled)
  {
    forall n | n in t.runs
      ensures t.runs[n].state == s.runs[n].state
    {
    }
  }

  lemma FinalTold(p: Plan, s: State, t: State)
    requires StatusTold(p, s) && Final(s, t) && t.cancelRequested == s.cancelRequested && t.status == s.status
    ensures StatusTold(p, t)
  {
    if SaysFailed(p, s) {
      var n :| n in s.runs && s.runs[n].state == Failed;
      assert t.runs[n].state == Failed;
    } else if AllTerminal(s.runs) {
      SameStatesDeriveSame(p, s, t);
    }
  }

  /** The only status set inside a ready list is `failed`, by the housekeeping of a member that
      failed and is not touched again. */
  lemma {:induction false} StartsTold(p: Plan, s: State, ready: seq<Id>)
    requires Distinct(ready) && forall n | n in ready :: n in s.runs && n in p.nodes
    requires s.status.Running? || (p.failFast && !s.cancelRequested && s.status.Failed? && FailedOutside(s, ready))
    ensures var t := StartAll(p, s, ready); t.status.Running? || SaysFailed(p, t)
    decreases |ready|
  {
    if ready == [] {
      if !s.status.Running? {
        var x :| x in s.runs && x !in ready && s.runs[x].state.Failed?;
        assert SomeIn(s.runs, Failed);
      }
    } else {
      var n, rest := ready[0], ready[1..];
      assert n in ready && n !in rest && forall m | m in rest :: m in ready;
      StartOneTold(p, s, ready);
      StartsTold(p, StartOne(p, s, n), rest);
    }
  }

  ghost predicate FailedOutside(s: State, ready: seq<Id>) {
    exists x :: x in s.runs && x !in ready && s.runs[x].state.Failed?
  }

  lemma StartOneTold(p: Plan, s: State, ready: seq<Id>)
    requires Distinct(ready) && ready != [] && ready[0] in s.runs && ready[0] in p.nodes
    requires s.status.Running? || (p.failFast && !s.cancelRequested && s.status.Failed? && FailedOutside(s, ready))
    ensures var t := StartOne(p, s, ready[0]);
            && t.runs.Keys == s.runs.Keys
            && (t.status.Running? || (p.failFast && !t.cancelRequested && t.status.Failed? && FailedOutside(t, ready[1..])))
  {
    var n := ready[0];
    StartingOneIsFinal(p, s, n);
    assert n !in ready[1..];
    if FailedOutside(s, ready) {
      var x :| x in s.runs && x !in ready && s.runs[x].state.Failed?;
      assert x != n && x !in ready[1..] && StartOne(p, s, n).runs[x].state.Failed?;
    }
    if Bind(p.nodes[n].kwargs, ResultsByNode(s.runs)).Err? {
      LosingIsFinal(p, s, n, Failed);
      LossTold(p, s, n, Failed);
    }
  }

  lemma LossTold(p: Plan, s: State, n: Id, outcome: NodeState)
    requires n in s.runs && Lost(outcome)
    ensures var t := MemberLost(p, s, n, outcome);
            && t.cancelRequested == s.cancelRequested
            && (t.status == s.status
                || (p.failFast && !s.cancelRequested && s.status.Running? && AllTerminal(t.runs)
                    && t.status == DeriveTerminalStatus(p.failFast, s.cancelRequested, t.runs)))
  {
  }

  /** What a report or a refusal records for its node. */
  predicate Records(s: State, a: Action, st: NodeState)
    requires Enabled(s, a) && (a.Report? || a.Refuse?)
  {
    st == if a.Refuse? then Failed else s.jobs[a.n].status
  }

  /** The run is over and reads cancelled for the one node that now takes another state, or under
      fail-fast for any node that now fails first. */
  predicate Untells(p: Plan, s: State, a: Action)
    requires Enabled(s, a)
  {
    && Revives(s, a) && AllTerminal(s.runs) && !s.cancelRequested && !(p.failFast && SomeIn(s.runs, Failed))
    && ((p.failFast && Records(s, a, Failed)) || forall m | m in s.runs && m != a.n :: !s.runs[m].state.Cancelled?)
  }

  /** A step makes the status differ from what the members derive exactly so. */
  lemma StatusStaysToldIff(p: Plan, work: Work, s: State, a: Action)
    requires Inv(p, work, s) && Derived(p) && Enabled(s, a) && StatusTold(p, s)
    ensures StatusTold(p, Step(p, work, s, a)) <==> !Untells(p, s, a)
  {
    if Revives(s, a) {
      RevivalTold(p, work, s, a);
    } else {
      StepIsFinal(p, work, s, a);
      if a.Pop? || a.Begin? || a.Settle? {
        FinalTold(p, s, Step(p, work, s, a));
      } else if LosesMember(s, a) {
        MemberLossTold(p, work, s, a);
      } else if a.Report? {
        CompletionTold(p, work, s, a.n);
      }
    }
  }

  /** A revival changes one node, and neither a status that is set nor the user's intent. */
  ghost predicate RevivedForm(p: Plan, s: State, t: State, n: Id, st: NodeState) {
    && FinalBut(s, t, n) && n in s.runs && t.runs[n].state == st && t.cancelRequested == s.cancelRequested
    && (!s.status.Running? ==> t.status == s.status) && (s.status.Running? ==> StatusTold(p, t))
  }

  lemma RevivalByLoss(p: Plan, work: Work, s: State, a: Action, st: NodeState)
    requires Inv(p, work, s) && Enabled(s, a) && Revives(s, a) && LosesMember(s, a) && Records(s, a, st)
    ensures st.Failed? && RevivedForm(p, s, Step(p, work, s, a), a.n, st)
  {
    assert JobOk(p, work, s, a.n);
    LossChangesOnlyNode(p, work, s, a);
    LossSteps(p, work, s, a);
    LossStatus(p, WithJob(s, a.n, LostJob(s, a)), a.n, st);
  }

  lemma LossStatus(p: Plan, s: State, n: Id, outcome: NodeState)
    requires n in s.runs && Lost(outcome)
    ensures var t := Finalized(p, MemberLost(p, s, n, outcome));
            && t.cancelRequested == s.cancelRequested
            && (!s.status.Running? ==> t.status == s.status) && (s.status.Running? ==> StatusTold(p, t))
  {
    LossTold(p, s, n, outcome);
    if s.status.Running? { FinalizedTold(p, MemberLost(p, s, n, outcome)); }
  }

  lemma RevivalByCompletion(p: Plan, work: Work, s: State, n: Id)
    requires Inv(p, work, s) && Derived(p) && Enabled(s, Report(n)) && s.jobs[n].status.Completed?
    requires s.runs[n].state.Cancelled?
    ensures RevivedForm(p, s, Step(p, work, s, Report(n)), n, Completed)
  {
    CompletionRuns(p, work, s, n);
    RevivalSteps(p, work, s, n);
    FinalizedTold(p, Completion(s, n).(status := Running));
  }

  lemma RevivalTold(p: Plan, work: Work, s: State, a: Action)
    requires Inv(p, work, s) && Derived(p) && Enabled(s, a) && Revives(s, a) && StatusTold(p, s)
    ensures StatusTold(p, Step(p, work, s, a)) <==> !Untells(p, s, a)
  {
    var st := if a.Refuse? then Failed else s.jobs[a.n].status;
    if LosesMember(s, a) {
      RevivalByLoss(p, work, s, a, st);
    } else {
      RevivalByCompletion(p, work, s, a.n);
    }
    RevivedTold(p, s, Step(p, work, s, a), a, st);
  }

  lemma OthersStay(s: State, t: State, n: Id, st: NodeState, other: NodeState)
    requires FinalBut(s, t, n) && n in s.runs && t.runs[n].state == st && AllTerminal(s.runs) && st.Terminal()
    ensures AllTerminal(t.runs)
    ensures SomeIn(t.runs, other) <==> st == other || exists m :: m in s.runs && m != n && s.runs[m].state == other
  {
    forall m | m in t.runs
      ensures t.runs[m].state == if m == n then st else s.runs[m].state
    {
    }
    if st == other { assert t.runs[n].state == other; }
    if m :| m in s.runs && m != n && s.runs[m].state == other { assert t.runs[m].state == other; }
  }

  lemma RevivedTold(p: Plan, s: State, t: State, a: Action, st: NodeState)
    requires Enabled(s, a) && Revives(s, a) && Records(s, a, st) && StatusTold(p, s) && (st.Completed? || st.Failed?)
    requires AllTerminal(s.runs) ==> !s.status.Running?
    requires RevivedForm(p, s, t, a.n, st)
    ensures StatusTold(p, t) <==> !Untells(p, s, a)
  {
    if !s.status.Running? {
      if SaysFailed(p, s) {
        var x :| x in s.runs && s.runs[x].state == Failed;
        assert t.runs[x].state == Failed;
      } else {
        OthersStay(s, t, a.n, st, Failed);
        OthersStay(s, t, a.n, st, Cancelled);
        assert SomeIn(s.runs, Cancelled);
      }
    }
  }

  lemma MemberLossTold(p: Plan, work: Work, s: State, a: Action)
    requires Inv(p, work, s) && Enabled(s, a) && LosesMember(s, a) && StatusTold(p, s)
    requires Final(s, Step(p, work, s, a))
    ensures StatusTold(p, Step(p, work, s, a))
  {
    LossSteps(p, work, s, a);
    var j := LostJob(s, a);
    var w := WithJob(s, a.n, j);
    var lost := MemberLost(p, w, a.n, j.status);
    LossTold(p, w, a.n, j.status);
    assert Step(p, work, s, a) == Finalized(p, lost) && Final(s, lost);
    if lost.status == s.status {
      FinalTold(p, s, lost);
    }
    FinalizedTold(p, lost);
  }

  lemma CompletionTold(p: Plan, work: Work, s: State, n: Id)
    requires Inv(p, work, s) && Derived(p) && Enabled(s, Report(n)) && s.jobs[n].status.Completed?
    requires !Revives(s, Report(n)) && StatusTold(p, s)
    ensures StatusTold(p, Step(p, work, s, Report(n)))
  {
    assert JobOk(p, work, s, n);
    assert !AllTerminal(s.runs) by { assert s.runs[n].state.Running?; }
    var done, t := ReportOfCompletion(p, work, s, n);
    var ready := Ready(p, done.runs);
    ReadyMeaning(p, done.runs);
    if !s.status.Running? {
      var x :| x in s.runs && s.runs[x].state == Failed;
      assert x in done.runs && done.runs[x].state.Failed? && !IsReady(p, done.runs, x);
      assert FailedOutside(done, ready);
    }
    StartsTold(p, done, ready);
    FinalizedTold(p, t);
  }

  lemma SubmissionTells(p: Plan, work: Work)
    requires ValidPlan(p)
    ensures SkipsCaused(p, Submitted(p)) && StatusTold(p, Submitted(p))
  {
    var s := State(FreshRuns(p), map[], false, Running);
    ReadyMeaning(p, s.runs);
    if p.order == [] {
      assert Elements(p.order) == {};
    } else {
      StartsCause(p, s, Ready(p, s.runs));
      StartsTold(p, s, Ready(p, s.runs));
    }
  }

  predicate AllIn(runs: NodeRuns, st: NodeState) {
    forall n | n in runs :: runs[n].state == st
  }

  // ---- Over whole schedules ----------------------------------------------

  /** No step of the schedule takes away the only cause of a skip. */
  ghost predicate NeverUncauses(p: Plan, work: Work, schedule: seq<Action>)
    requires ValidPlan(p)
  {
    schedule == [] ||
    var before, a := schedule[..|schedule| - 1], schedule[|schedule| - 1];
    && NeverUncauses(p, work, before) && RunTo(p, work, before).Some?
    && Enabled(RunTo(p, work, before).value, a) && !Uncauses(p, RunTo(p, work, before).value, a)
  }

  ghost predicate NeverUntells(p: Plan, work: Work, schedule: seq<Action>)
    requires ValidPlan(p)
  {
    schedule == [] ||
    var before, a := schedule[..|schedule| - 1], schedule[|schedule| - 1];
    && NeverUntells(p, work, before) && RunTo(p, work, before).Some?
    && Enabled(RunTo(p, work, before).value, a) && !Untells(p, RunTo(p, work, before).value, a)
  }

  /** After every step so far, each skipped node has a lost one above it. */
  ghost predicate AlwaysCaused(p: Plan, work: Work, schedule: seq<Action>)
    requires ValidPlan(p)
  {
    && RunTo(p, work, schedule).Some? && SkipsCaused(p, RunTo(p, work, schedule).value)
    && (schedule == [] || AlwaysCaused(p, work, schedule[..|schedule| - 1]))
  }

  ghost predicate AlwaysTold(p: Plan, work: Work, schedule: seq<Action>)
    requires ValidPlan(p)
  {
    && RunTo(p, work, schedule).Some? && StatusTold(p, RunTo(p, work, schedule).value)
    && (schedule == [] || AlwaysTold(p, work, schedule[..|schedule| - 1]))
  }

  /** Skips have causes throughout a schedule exactly if no step takes away an only cause. */
  lemma {:induction false} SkipsAlwaysCausedIff(p: Plan, work: Work, schedule: seq<Action>)
    requires ValidPlan(p) && RunTo(p, work, schedule).Some?
    ensures AlwaysCaused(p, work, schedule) <==> NeverUncauses(p, work, schedule)
  {
    if schedule == [] {
      SubmissionTells(p, work);
    } else {
      var before, a := schedule[..|schedule| - 1], schedule[|schedule| - 1];
      SkipsAlwaysCausedIff(p, work, before);
      if AlwaysCaused(p, work, before) {
        SkipsStayCausedIff(p, work, RunTo(p, work, before).value, a);
      }
    }
  }

  /** The status agrees with the members throughout a schedule exactly if no step untells it. */
  lemma {:induction false} StatusAlwaysToldIff(p: Plan, work: Work, schedule: seq<Action>)
    requires ValidPlan(p) && RunTo(p, work, schedule).Some?
    ensures AlwaysTold(p, work, schedule) <==> NeverUntells(p, work, schedule)
  {
    if schedule == [] {
      SubmissionTells(p, work);
    } else {
      var before, a := schedule[..|schedule| - 1], schedule[|schedule| - 1];
      StatusAlwaysToldIff(p, work, before);
      if AlwaysTold(p, work, before) {
        StatusStaysToldIff(p, work, RunTo(p, work, before).value, a);
      }
    }
  }

  /** When no step untells the status, a finished run's status says what happened to its members;
      when no step takes away an only cause, every skipped node has a failed or cancelled one above
      it. With both, a fail-fast run that nobody cancelled is `completed` exactly when every node is. */
  lemma FinalStatus(p: Plan, work: Work, schedule: seq<Action>)
    requires ValidPlan(p) && RunTo(p, work, schedule).Some?
    ensures var s := RunTo(p, work, schedule).value;
            && (NeverUncauses(p, work, schedule) ==> SkipsCaused(p, s))
            && (NeverUntells(p, work, schedule) && AllTerminal(s.runs) ==>
                  SaysWhatHappened(p.failFast, s.cancelRequested, s.runs, s.status))
            && (NeverUncauses(p, work, schedule) && NeverUntells(p, work, schedule) && AllTerminal(s.runs) ==>
                  p.failFast && !s.cancelRequested ==> (s.status.Completed? <==> AllIn(s.runs, Completed)))
  {
    var s := RunTo(p, work, schedule).value;
    SkipsAlwaysCausedIff(p, work, schedule);
    StatusAlwaysToldIff(p, work, schedule);
    if AllTerminal(s.runs) {
      DerivedStatusSays(p.failFast, s.cancelRequested, s.runs);
      if SkipsCaused(p, s) { StatusReads(p, s); }
    }
  }

  /** What the derived status of a finished run says, when skips have causes. */
  lemma StatusReads(p: Plan, s: State)
    requires SkipsCaused(p, s) && AllTerminal(s.runs)
    ensures var status := DeriveTerminalStatus(p.failFast, s.cancelRequested, s.runs);
            && SaysWhatHappened(p.failFast, s.cancelRequested, s.runs, status)
            && (p.failFast && !s.cancelRequested ==> (status.Completed? <==> AllIn(s.runs, Completed)))
  {
    DerivedStatusSays(p.failFast, s.cancelRequested, s.runs);
    if !SomeIn(s.runs, Failed) && !SomeIn(s.runs, Cancelled) {
      forall n | n in s.runs
        ensures s.runs[n].state.Completed?
      {
        NoSkipWithoutLoss(p, s, n);
      }
    }
  }

  lemma NoSkipWithoutLoss(p: Plan, s: State, n: Id)
    requires SkipsCaused(p, s) && n in s.runs
    ensures s.runs[n].state.Skipped? ==> SomeIn(s.runs, Failed) || SomeIn(s.runs, Cancelled)
  {
    if s.runs[n].state.Skipped? {
      assert Caused(p, s, n);
    }
  }
}
