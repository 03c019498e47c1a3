# Substrate verification

A Dafny model of the capability substrate's stateful core, with proofs about every run of it:

- **Compositions** (`Graphs`, `Compositions`, `Validation`, `CompositionRuns`, `Executor`, `JobQueues`):
  a composition is a set of nodes whose arguments refer to other nodes' outputs. Validation is Kahn's
  loop; a run moves nodes through their states; the queue starts what is ready, reacts to losses and
  cancels. Each queue method that never awaits is one step of a state machine (`RunInvariants.Step`),
  and a schedule is any sequence of enabled steps: popping, beginning, settling and reporting a job in
  any order, refusing one, cancelling a member or the run at any point. The theorems about all
  schedules are in `RunTheorems`, `RunProgress`, `RunTransitions`, `RunOutcomes`, `FailFast`, `Schedules`
  and `RunStatus`.
- **The capability manager** (`Registry`, `CapabilityManagers`): loaded instances, capability metadata,
  the config store, workers, executions and deferred hooks. Each operation is a function of the state
  and of what the outside answers; the class `CapabilityManagers.CapabilityManager` is proved to compute
  these functions, and an invariant proved of every operation holds of every use of the class.
  `RegistryInvariants`, `RegistryOutcomes`, `InstanceState`, `ExecutionState` and `WorkerSignals` say
  what every sequence of operations keeps, and for what it does not always keep, exactly which step breaks it. An execution
  with its retries is such a sequence too.
- **Eviction and retry** (`Evictions`, `CapabilityManagers.CapabilityManager.Execute`).
- **Publish waves** (`PublishWaves`) and **the cache prune** (`ModelCaches`).
- **Stores against their history** (`EmpiricalStores`, `AdmissionProfiles`, `Journals`, `Diagnostics`,
  `Timestamps`) and **recorded paths** (`Workspaces`).

## Where the code and its comments part

Each of these has a lemma with a concrete or general run that shows it, and a lemma that says exactly
when the intention is met.

- Fail-fast stops every member that has not begun, says the queue (`cjm_substrate/core/queue.py:1096-1116`).
  A failed binding does not, unless it is the last of the nodes a completion unlocks: the loop goes on
  over the ready list it took before (`FailFast.FailedBindingHaltsIffLast`,
  `RunExamples.FailedBindingLeavesSiblingWaiting`).
- A job that the dispatch loop has popped but not begun still reads as pending; a cancel then records it
  as cancelled and it runs all the same (`RunOutcomes.TerminalStatesAreFinal`,
  `RunExamples.CancelledMemberCompletes`). Its dependents may then be skipped with nothing lost above
  them, and the run may keep a status that its members no longer derive (`RunStatus.SkipsStayCausedIff`,
  `RunStatus.StatusStaysToldIff`, `RunExamples.RevivalLeavesSkipsUncaused`).
- Unloading a capability's last instance leaves its metadata pointing at the dead worker, and a later
  load of a named instance lists it again (`RegistryOutcomes.PointersGoStaleIff`,
  `RegistryExamples.DeadWorkerIsHandedOut`).
- A load that gives up after its worker was spawned leaves the worker running
  (`RegistryOutcomes.WorkersAreOrphanedIff`, `RegistryExamples.RejectedConfigOrphansItsWorker`).
- A load whose journal entry fails answers False with the instance loaded
  (`RegistryOutcomes.LoadAnswersTruly`, `RegistryExamples.UnjournaledLoadIsLoaded`); a reload whose
  cleanup fails answers True with nothing reloaded (`InstanceState.ReloadAnswersTruly`,
  `RegistryExamples.ReloadOfNothingAnswersTrue`).
- A reload makes an auto-generated instance persistable, enables it, and drops a concurrency limit
  (`InstanceState.RestartKeepsInstanceIff`, `RegistryExamples.ReloadEnablesAutoInstance`); with a long
  capability name it loses the instance (`InstanceState.LongAutoIdsAreLost`).
- The flag on the metadata is to follow the default instance's; a default load without a record leaves a
  disabled metadata beside an enabled instance (`InstanceState.FlagsAgreeIff`,
  `RegistryExamples.ReloadSplitsFlags`).
- Enabling an instance does not take back its deferred disable hook (`ExecutionState.HooksWaitForDisabledIff`,
  `RegistryExamples.LateHookReachesEnabledWorker`), and unloading a sibling drops the hook that waits for
  a disabled default instance, whose worker is then never told (`WorkerSignals.WorkersArePostedIff`,
  `RegistryExamples.SiblingUnloadDropsHook`).
- The running set forgets executions (`ExecutionState.RunningSetStaysExactIff`,
  `RegistryExamples.SiblingUnloadHidesExecution`, `RegistryExamples.OverlapHidesExecution`).
- The eviction before an execution is described as least recently used first; its sort key puts the most
  recently used first (`Evictions.MostRecentGoesFirst`, `Evictions.RecentlyUsedIsEvicted`).
- Size retention is described as deleting both tables' oldest rows interleaved by time; it deletes a batch
  of each table's own oldest (`Diagnostics.BatchIsOldestFirstIff`, `Diagnostics.NewRecordGoesFirst`).
- The cache prune is to keep exactly the blobs that surviving tags name. It does when the tags that go
  along with a removed directory share theirs with tags that stay; otherwise blobs that nothing names are
  left behind (`ModelCaches.KeptBlobsAreNamedIff`, `ModelCaches.DeeperTagLeavesItsBlobs`).

## Reading notes

- No critical section of the queue awaits, so each stretch of a coroutine between awaits is one step. A
  member's job is identified with its node, of which it is the only job. A node's work is a function of
  its node and bound arguments where schedules are compared; elsewhere its outcome is arbitrary.
- Lists that the code sorts for display are sets. Dictionaries are maps; where the order of a dictionary
  matters (ready nodes, kwargs) it is a sequence.
- Metadata objects, which callers keep and pass in again, live in a table (`Registry.State.metas`), so that
  two holders of one object see one state. Workers are numbered in the order they are spawned.
- Amounts of memory, time and usage are exact reals; hashes are an arbitrary function, taken injective
  only where configurations are told apart by them.

## Model

| member | source | states |
|---|---|---|
| Compositions.GraphOfClosed | cjm_substrate/core/ports.py:109-117 | with unique ids and known references the derived dependency map is closed |
| Compositions.ResolveNodeKwargs | cjm_substrate/core/ports.py:202-222 | every name carries what its last argument delivers: a static value, its producer's whole result, or one field of that (a dict's key, otherwise an attribute); binding fails exactly when an argument lacks its producer's result or its field, with what the first such argument lacks |
| Compositions.BindMeans | cjm_substrate/core/ports.py:174-222 | the same of the binding that every run theorem speaks of |
| Compositions.BindSucceeds | cjm_substrate/core/ports.py:202-222 | a node binds exactly when every one of its arguments does |
| Compositions.BindFirstError | cjm_substrate/core/ports.py:174-222 | a failed binding names the first argument that does not bind |
| Compositions.BindLastWins | cjm_substrate/core/ports.py:202-222 | each name carries the value its last argument resolves to |
| Compositions.BindOnlyNames | cjm_substrate/core/ports.py:202-222 | exactly the named arguments are bound |
| Compositions.BindReadsDependencies | cjm_substrate/core/ports.py:83-87 | a binding depends on the results of the node's references only, and with those recorded fails only on a missing field |
| Validation.ReverseOf | cjm_substrate/core/ports.py:382-399 | the dependents map is the reverse of the dependency map, with an entry for every node |
| Validation.PeelLoop | cjm_substrate/core/ports.py:140-164 | Kahn's loop peels each node at most once, after all of its dependencies, and leaves the rest stuck |
| Validation.LeftoversReachCycles | cjm_substrate/core/ports.py:155-164 | what the loop leaves are exactly the nodes from which a cycle can be reached |
| Validation.PeeledAllIffAcyclic | cjm_substrate/core/ports.py:155-164 | the loop peels every node exactly when no node depends on itself |
| Validation.ValidateComposition | cjm_substrate/core/ports.py:120-164 | accepts exactly unique ids, known references and no cycle; each rejection names exactly the offending ids |
| CompositionRuns.AcceptedPlanValid | cjm_substrate/core/ports.py:382-399 | what validation accepts gives a plan whose maps agree and whose graph is acyclic |
| CompositionRuns.NewCompositionRun | cjm_substrate/core/ports.py:382-399 | a new run exists exactly for a valid composition, with every node pending and the reverse map built |
| CompositionRuns.ReadyMeaning | cjm_substrate/core/ports.py:270-285 | the ready list holds each ready node exactly once |
| CompositionRuns.ReadyKeepsOrder | cjm_substrate/core/ports.py:270-285 | the ready nodes come in the order in which they are listed |
| CompositionRuns.DerivedStatusSays | cjm_substrate/core/ports.py:343-371 | user intent comes first; under fail-fast a failure before a cancel; without it the status is cancelled exactly if some member is, and completed otherwise, whatever failed |
| CompositionRuns.CompositionRun.ReadyNodes | cjm_substrate/core/ports.py:270-285 | pending nodes whose dependencies have all completed, in listing order |
| CompositionRuns.CompositionRun.RecordStarted | cjm_substrate/core/ports.py:287-295 | only the started node changes, to running with its job |
| CompositionRuns.CompositionRun.RecordResult | cjm_substrate/core/ports.py:297-310 | only a terminal state is accepted, and only that node changes |
| CompositionRuns.CompositionRun.SkipDependents | cjm_substrate/core/ports.py:312-335 | exactly the pending transitive dependents are skipped, each listed once, and nothing else changes |
| JobQueues.JobQueue.SubmitComposition | cjm_substrate/core/queue.py:879-930 | an empty composition completes at once; otherwise the ready nodes are started, with all that a failed binding triggers |
| JobQueues.JobQueue.StartReadyNodes | cjm_substrate/core/queue.py:992-1043 | the loop over the ready list, re-entrant cancels included, is the one-after-the-other start of its nodes |
| JobQueues.JobQueue.StartMember | cjm_substrate/core/queue.py:1009-1042 | one node's turn: its bound arguments become its job, or its binding failure is recorded as a loss |
| JobQueues.JobQueue.LoseMember | cjm_substrate/core/queue.py:1016-1025 | a lost member is recorded, its pending dependents skipped, and under fail-fast the rest cancelled |
| JobQueues.JobQueue.AdvanceComposition | cjm_substrate/core/queue.py:1045-1094 | recording a member's outcome, with all it triggers, is one step of the state machine |
| JobQueues.JobQueue.CancelPendingMembers | cjm_substrate/core/queue.py:1096-1116 | cancelling member by member, each cancel re-entering the advance, ends as cancelling all at once |
| JobQueues.MemberCancelledOnTheWay | cjm_substrate/core/queue.py:1112-1116 | each re-entrant cancel stays on the way to the same final state |
| JobQueues.JobQueue.MaybeFinalize | cjm_substrate/core/queue.py:1118-1134 | the status is derived once, when every node is terminal, and says what happened to the members |
| JobQueues.JobQueue.Cancel | cjm_substrate/core/queue.py:511-571 | a pending job is cancelled and its composition advanced; a running one is only signalled |
| JobQueues.JobQueue.CancelComposition | cjm_substrate/core/queue.py:951-983 | user cancel marks pending nodes cancelled and cancels every queued member |
| RunInvariants.SubmittedInv | cjm_substrate/core/queue.py:879-930 | the invariant of all runs holds after submission |
| RunInvariants.StepKeepsInv | cjm_substrate/core/queue.py:992-1134 | every step of every job, cancel and refusal keeps the invariant |
| RunTheorems.RunsAreSafe | cjm_substrate/core/ports.py:83-87 | in every reachable state a running or completed member has its dependencies completed and carries exactly the evaluated arguments and result |
| RunTheorems.BindingsFindTheirProducers | cjm_substrate/core/ports.py:202-222 | while ready nodes are started, a binding never misses a recorded result |
| RunProgress.NoDeadlock | cjm_substrate/core/queue.py:1045-1094 | in every reachable state the run is over with its derived status, or some queue step is enabled |
| RunProgress.StepShortens | cjm_substrate/core/queue.py:992-1134 | every step but a user cancel uses up a step of some node |
| RunProgress.SchedulesAreBounded | cjm_substrate/core/queue.py:992-1134 | no schedule takes more than six steps for each node and one user cancel |
| RunTransitions.StepLowers | cjm_substrate/core/queue.py:992-1134 | a step moves a node's state towards a terminal one or leaves it, unless it revives the node |
| RunTransitions.AtMostTwoChanges | cjm_substrate/core/queue.py:992-1134 | on any schedule a node changes its state at most twice, and once more for each time it is revived |
| RunOutcomes.TerminalStatesAreFinal | cjm_substrate/core/queue.py:534-551 | a step changes a terminal node exactly when it reports a job cancelled after it was popped |
| RunExamples.CancelledMemberCompletes | cjm_substrate/core/queue.py:1655-1671 | from any state with a queued member whose work succeeds: after one schedule it reads cancelled, and when that schedule goes on with its begin, settle and report it reads completed |
| FailFast.LostMemberHaltsTheRest | cjm_substrate/core/queue.py:1085-1092 | under fail-fast a failed or cancelled member leaves no member waiting to begin |
| FailFast.BatchHaltsIffLastFails | cjm_substrate/core/queue.py:1009-1042 | working through a ready list leaves nothing waiting exactly if its last node fails to bind |
| FailFast.FailedBindingHaltsIffLast | cjm_substrate/core/queue.py:1009-1042 | a completion leaves nothing waiting exactly if the last node it unlocks fails to bind |
| FailFast.NothingStartsAfterALoss | cjm_substrate/core/queue.py:1096-1116 | once a member is lost under fail-fast, no later step creates a job |
| FailFast.UserCancelStops | cjm_substrate/core/queue.py:951-983 | a user's cancel turns exactly the unstarted nodes and the members whose jobs have not begun to cancelled, and leaves nothing waiting |
| FailFast.NothingStartsAfterACancel | cjm_substrate/core/queue.py:951-983 | after it no later step creates a job |
| RunExamples.FailedBindingLeavesSiblingWaiting | cjm_substrate/core/queue.py:1009-1042 | a concrete fail-fast run that starts a node after its sibling's binding failed |
| RunExamples.SiblingStillStarts | cjm_substrate/core/queue.py:1009-1042 | of two unlocked nodes the first fails to bind, which cancels the second, and the same step ends with the second running |
| Schedules.EndsAsEvaluated | cjm_substrate/core/ports.py:373-379 | a run without cancels and housekeeping ends, on any schedule, with the states and results of the recursive evaluation |
| Schedules.SchedulesAgree | cjm_substrate/core/ports.py:373-379 | two finished schedules of one composition end in the same states and results |
| Schedules.NeverRunsAbove | cjm_substrate/core/ports.py:312-335 | what depends on a node that yields nothing is never run |
| RunStatus.FinalStatus | cjm_substrate/core/ports.py:343-371 | when no step untells the status, that of a finished run says what happened, best-effort or fail-fast; when no step takes away an only cause, skipped nodes have a lost ancestor; with both, a fail-fast run that nobody cancelled is completed exactly if every node is |
| RunStatus.SkipsStayCausedIff | cjm_substrate/core/ports.py:312-335 | a step keeps a failed or cancelled node above each skipped one, unless it completes a cancelled node that is the only such one above some skipped node; and exactly then not |
| RunStatus.StatusStaysToldIff | cjm_substrate/core/ports.py:343-371 | a step leaves the status in disagreement with the members exactly when a finished run's only cancelled node takes another state, or under fail-fast a cancelled node is the first to fail |
| RunStatus.SkipsAlwaysCausedIff | cjm_substrate/core/ports.py:312-335 | skips have causes throughout a schedule exactly if no step takes away an only cause |
| RunStatus.StatusAlwaysToldIff | cjm_substrate/core/ports.py:343-371 | the status agrees with the members throughout a schedule exactly if no step untells it |
| RunExamples.RevivalLeavesSkipsUncaused | cjm_substrate/core/queue.py:1655-1671 | a run that ends with a node skipped, nothing failed or cancelled, and the status cancelled where the members derive completed |
| PublishWaves.Waves | scripts/pypi_pin_bridge.py:86-97 | the upload loop ends; its waves are the complete layers, and the cycle warning lists exactly the repositories that reach a cycle |
| PublishWaves.WaveAfterLatestFloor | scripts/pypi_pin_bridge.py:86-97 | a wave number is one more than the latest among the in-window floors |
| PublishWaves.WavesAreLeast | scripts/pypi_pin_bridge.py:86-97 | no order that uploads floors first uploads a repository in an earlier wave |
| PublishWaves.WaveIsLongestChain | scripts/pypi_pin_bridge.py:86-97 | a wave number is the length of the longest chain of unmet floors |
| RegistryInvariants.RegistryStaysSound | cjm_substrate/core/manager.py:1311-1442 | after any operations: ids key their instances, the listed capabilities are those loaded, a default instance is its metadata's canonical one, no two share a worker |
| RegistryInvariants.LoadKeepsSound | cjm_substrate/core/manager.py:1158-1362 | any load, whatever fails in it, keeps the registry sound |
| RegistryInvariants.UnloadKeepsSound | cjm_substrate/core/manager.py:1379-1429 | any unload keeps the registry sound |
| RegistryInvariants.ReloadKeepsSound | cjm_substrate/core/manager.py:2373-2407 | any reload keeps the registry sound, also when it loses the instance |
| RegistryOutcomes.LoadEnds | cjm_substrate/core/manager.py:1198-1362 | a load raises on a bad id, skips a loaded one, registers a new worker, or leaves the instances alone |
| RegistryOutcomes.GeneratedIdIsFirstFree | cjm_substrate/core/manager.py:916-930 | a generated id is the name with the first token whose id is not loaded, and there is none only if all are |
| RegistryOutcomes.LoadAnswersTruly | cjm_substrate/core/manager.py:1339-1362 | the answer says whether the instance is loaded unless it registered and the journal failed |
| RegistryOutcomes.PointersStayHome | cjm_substrate/core/manager.py:1323-1331 | after any operations metadata points at no live worker but its default instance's |
| RegistryOutcomes.CallersGetDeadWorkersIffStale | cjm_substrate/core/manager.py:1444-1459 | a caller is handed a cleaned-up worker exactly for an unloaded name with a stale pointer |
| RegistryOutcomes.PointersGoStaleIff | cjm_substrate/core/manager.py:1327-1331 | pointers go stale exactly at a named load that lists metadata with a leftover pointer |
| RegistryExamples.DeadWorkerIsHandedOut | cjm_substrate/core/manager.py:1413-1417 | load, unload and a named load hand out the dead worker |
| RegistryOutcomes.WorkersAreOrphanedIff | cjm_substrate/core/manager.py:1246-1300 | a worker without an instance appears exactly when a load or reload gives up after a worker process exists, on a rejected config or a worker that does not come up |
| RegistryExamples.RejectedConfigOrphansItsWorker | cjm_substrate/core/manager.py:1283-1300 | a rejected config leaves its worker running |
| RegistryExamples.UnjournaledLoadIsLoaded | cjm_substrate/core/manager.py:1339-1362 | a load answers False with the instance registered |
| InstanceState.ReloadEnds | cjm_substrate/core/manager.py:2373-2407 | a reload restarts the worker, changes nothing because cleanup failed, or loses the instance |
| InstanceState.ReloadAnswersTruly | cjm_substrate/core/manager.py:2396-2404 | the answer says whether the worker was restarted but for a failed cleanup or a failed journal entry |
| InstanceState.LongAutoIdsAreLost | cjm_substrate/core/manager.py:898-930 | a generated id is valid for reload exactly if the capability name is, with at most 57 characters; otherwise a reload loses it |
| RegistryExamples.ReloadOfNothingAnswersTrue | cjm_substrate/core/manager.py:2399-2404 | a reload answers True with the same worker |
| InstanceState.FlagsStayDurable | cjm_substrate/core/manager.py:803-838 | with a working store, after any operations a persistable instance is enabled as its record says |
| InstanceState.OverridesStick | cjm_substrate/core/manager.py:840-869 | whatever happens or fails in between, the store holds the last worker-env override set while the store worked and the id was not a loaded generated one |
| InstanceState.OverrideEnds | cjm_substrate/core/manager.py:840-869 | an override is taken exactly if the store works and the id is not a loaded generated one; then its record's override changes and nothing else |
| InstanceState.ConfigsStick | cjm_substrate/core/manager.py:803-838 | whatever happens or fails in between, a record holds the config of its last persist: the worker's answer, or else the instance's own config |
| InstanceState.UpdateEnds | cjm_substrate/core/manager.py:2309-2371 | a rejected config raises, a failing worker leaves all as it was, a failing journal leaves the validated config in force but not stored, else it is in force |
| InstanceState.LoadStartsAs | cjm_substrate/core/manager.py:1214-1320 | the registered instance has its record's flag and override, and as config the validated caller's, else the validated record's, else the defaults |
| InstanceState.ReloadStartsAs | cjm_substrate/core/manager.py:2373-2407 | a restarted instance starts from the config it was given, or the old worker's, as from a caller's |
| InstanceState.HashesStayLive | cjm_substrate/core/manager.py:2309-2371 | after any operations the config hash of every instance is that of its live config |
| InstanceState.RestartRestores | cjm_substrate/core/manager.py:1218-1320 | a new manager over the store that a run has left restores the flag, spawns with the override last taken, and validates the config last stored unless the caller gives one |
| InstanceState.RestartKeepsInstanceIff | cjm_substrate/core/manager.py:1214-1216 | a restart keeps flag, persistability and concurrency limit exactly for persistable instances without a limit |
| InstanceState.FlagsAgreeIff | cjm_substrate/core/manager.py:1295-1302 | a default instance and its metadata agree on being enabled until a default load without a record over metadata that says disabled |
| RegistryExamples.ReloadSplitsFlags | cjm_substrate/core/manager.py:1295-1302 | disabled while the store is down and reloaded, instance and metadata disagree |
| RegistryExamples.ReloadEnablesAutoInstance | cjm_substrate/core/manager.py:2400-2404 | a disabled auto-generated instance is enabled by a reload |
| ExecutionState.HooksWaitForDisabledIff | cjm_substrate/core/manager.py:2140-2205 | a hook waits for an enabled instance exactly after an enable while it waits |
| ExecutionState.EnabledAreNotToldDisabled | cjm_substrate/core/manager.py:871-896 | without such an enable, no run tells an enabled worker that it is disabled |
| ExecutionState.EnabledIsToldDisabled | cjm_substrate/core/manager.py:871-896 | after such an enable the end of the execution tells the enabled worker so |
| RegistryExamples.LateHookReachesEnabledWorker | cjm_substrate/core/manager.py:2150-2168 | a concrete run with a late hook |
| WorkerSignals.WorkersArePostedIff | cjm_substrate/core/manager.py:2140-2205 | a step leaves a worker knowing from its last signal whether its instance is enabled or its hook still waits, except exactly the end of an execution overtaken by an enable and the removal of a sibling while a disabled default's hook waits |
| WorkerSignals.WorkersStayPostedIff | cjm_substrate/core/manager.py:2140-2205 | over any run a worker is always right about its instance exactly if no step misleads it |
| RegistryExamples.SiblingUnloadDropsHook | cjm_substrate/core/manager.py:1396-1411 | disabled while it executes, an instance whose sibling is unloaded is never told |
| ExecutionState.FlightsChange | cjm_substrate/core/manager.py:1903-1990 | an execution comes into flight exactly when it begins on an enabled instance or is retried on a loaded one, and leaves exactly when it ends |
| ExecutionState.RunningSetStaysExactIff | cjm_substrate/core/manager.py:1396-1411 | the running set stays exact but for overlapping executions, the unload of a sibling of an executing default, and a reused id |
| RegistryExamples.SiblingUnloadHidesExecution | cjm_substrate/core/manager.py:1409-1411 | unloading a named sibling hides the default instance's execution |
| RegistryExamples.OverlapHidesExecution | cjm_substrate/core/manager.py:1971-1990 | the first of two executions to end hides the other |
| CapabilityManagers.CapabilityManager.LoadCapability | cjm_substrate/core/manager.py:1158-1362 | for every answer from outside the new state and the reply are those of the registry's load |
| CapabilityManagers.CapabilityManager.GenerateInstanceId | cjm_substrate/core/manager.py:916-930 | the first generated id that is not taken |
| CapabilityManagers.CapabilityManager.UnloadCapability | cjm_substrate/core/manager.py:1379-1429 | the new state and the reply are those of the registry's unload, by which the sound registry and the exact conditions above follow |
| CapabilityManagers.CapabilityManager.UnloadAll | cjm_substrate/core/manager.py:1431-1442 | in any order, what stays are the instances whose cleanup raises, less the default instances of still listed capabilities whose second cleanup succeeds; if no cleanup raises, registry and running sets are empty |
| CapabilityManagers.CapabilityManager.ReloadCapability | cjm_substrate/core/manager.py:2373-2407 | unload and load in sequence: the new state and the reply are those of the registry's reload, also when the unload fails |
| CapabilityManagers.CapabilityManager.PersistConfig | cjm_substrate/core/manager.py:803-838 | the record takes the worker's config or else the instance's own, and the flag, and keeps the override; `InstanceState.ConfigsStick` says so over whole runs |
| CapabilityManagers.CapabilityManager.EnableCapability | cjm_substrate/core/manager.py:2140-2168 | flag, metadata copy and record are set, and the worker hears of it only on a change |
| CapabilityManagers.CapabilityManager.DisableCapability | cjm_substrate/core/manager.py:2170-2205 | flag, metadata copy and record are set, and on a change the worker hears of it now, or later while it runs |
| CapabilityManagers.CapabilityManager.UpdateCapabilityConfig | cjm_substrate/core/manager.py:2309-2371 | computes the update: a failed journal entry leaves the new config unpersisted and answers False |
| CapabilityManagers.CapabilityManager.SetWorkerEnvOverride | cjm_substrate/core/manager.py:840-869 | only the override of one record changes; `InstanceState.OverrideEnds` says exactly when it is taken |
| CapabilityManagers.CapabilityManager.MaybeFireDisableHook | cjm_substrate/core/manager.py:871-896 | a waiting hook fires once, at the instance or the canonical worker |
| CapabilityManagers.CapabilityManager.ChooseResidents | cjm_substrate/core/manager.py:1601-1732 | idle eligible GPU residents, each once and the largest first, that free the sum of their footprints: all when the needy peak is not known, else enough for peak, margin and reported shortfall if all together can, and never more than needed |
| CapabilityManagers.CapabilityManager.ReloadResidents | cjm_substrate/core/manager.py:1715-1731 | the chosen are reloaded one by one, each with the config it had when chosen, and the state is what these reloads make of it |
| CapabilityManagers.EvictedKeepTheirConfig | cjm_substrate/core/manager.py:1715-1731 | each of the chosen is untouched until its turn, and if its worker is restarted it gets its own config back |
| CapabilityManagers.CapabilityManager.MakeRoom | cjm_substrate/core/manager.py:1930-1950 | room is made by reloading just such a choice of residents and then the needy instance with the config it has |
| CapabilityManagers.CapabilityManager.Execute | cjm_substrate/core/manager.py:1874-1990 | at most max_retries + 1 calls, each marked as running before and finished after; before every call but the first, and after a resource error, room is made in the state reached by then; the first other outcome is the reply; the final state follows the recorded operations; nothing is left in flight or running |
| CapabilityManagers.EvictionsLeaveOthers | cjm_substrate/core/manager.py:1689-1693 | after the evictions every instance that was not chosen is as it was |
| Evictions.Candidates | cjm_substrate/core/manager.py:1695-1712 | exactly the loaded instances that are neither spared nor hollow nor unmeasured, with live or peak footprint |
| Evictions.SortLargestFirst | cjm_substrate/core/manager.py:1713-1713 | the candidates, largest first |
| Evictions.Choose | cjm_substrate/core/manager.py:1715-1732 | a prefix that reaches the target with its last member and not before, or all |
| Evictions.LargestHoldMost | cjm_substrate/core/manager.py:1713-1732 | no n residents hold more than the n largest |
| Evictions.FewestEvictions | cjm_substrate/core/manager.py:1713-1732 | no smaller choice of residents reaches the target |
| Evictions.ReactiveChoice | cjm_substrate/core/manager.py:1624-1664 | all residents, or peak with margin and shortfall covered by the fewest that can; an unprofiled need takes all |
| Evictions.AdmissionChoice | cjm_substrate/core/manager.py:1780-1808 | all residents, or 1.25 times the shortfall covered by the fewest that can |
| Evictions.MostRecentGoesFirst | cjm_substrate/core/manager.py:1838-1859 | the sort key puts the most recently used candidate first; it is the least recently used one exactly if all are equally old |
| Evictions.RecentlyUsedIsEvicted | cjm_substrate/core/manager.py:1838-1859 | of one used at 100 and one at 200 the recent one is first |
| EmpiricalStores.EmpiricalStore.RecordSample | cjm_substrate/core/empirical_store.py:178-250 | only the key's row changes, by one fold |
| EmpiricalStores.RowsFollowHistory | cjm_substrate/core/empirical_store.py:178-250 | over any interleaving each row has its own samples' count, successes, means, maxima, usage sums and last time |
| EmpiricalStores.NextDescribes | cjm_substrate/core/empirical_store.py:214-233 | folding in one more sample keeps every aggregate right |
| EmpiricalStores.MeansStayBelowMaxima | cjm_substrate/core/empirical_store.py:219-227 | mean peaks are at most the worst peak, successes at most the count |
| EmpiricalStores.OrderDoesNotMatter | cjm_substrate/core/empirical_store.py:178-250 | samples in another order give the same row but for name and last time |
| EmpiricalStores.EmpiricalStore.AdmissionProfile | cjm_substrate/core/manager.py:346-376 | the row returned describes exactly the samples measured under the live config; none is returned exactly when there are none, or no hash |
| EmpiricalStores.ProfileIsOfTheLiveConfig | cjm_substrate/core/manager.py:346-376 | that row is made of the samples measured under that config and no other |
| AdmissionProfiles.RecordedUnderTheLiveConfig | cjm_substrate/core/manager.py:346-376 | through any loads, reloads, config updates and executions each sample is recorded under the hash of the config it was measured under |
| AdmissionProfiles.ProfilesDescribeTheLiveConfig | cjm_substrate/core/manager.py:346-376 | so the row under an instance's stored hash describes exactly the samples measured under its live config |
| Journals.Journal.Append | cjm_substrate/core/journal_store.py:244-272 | the event is appended with the next sequence number |
| Journals.Journal.Query | cjm_substrate/core/journal_store.py:275-318 | the matching rows in either order, cut to the limit |
| Journals.SelectedMeans | cjm_substrate/core/journal_store.py:292-318 | a read returns exactly the matching rows, in sequence order |
| Journals.Follow | cjm_substrate/cli.py:1155-1223 | what is shown is the matching journal from some point on: nothing missing, repeated or out of order, for any appends between polls |
| Journals.Poll | cjm_substrate/cli.py:1207-1223 | a poll shows exactly the matching rows appended since the cursor |
| Journals.TimeFiltersSelectTimes | cjm_substrate/core/journal_store.py:306-311 | the text filters select exactly the rows of the stretch of time |
| Journals.ClausesNarrow | cjm_substrate/core/journal_store.py:292-318 | each clause narrows a read to the rows with that value in its column; without clauses every row is read |
| Timestamps.StampsCompareAsTimes | cjm_substrate/core/journal_store.py:306-311 | comparing UTC isoformat stamps as text compares the times, also where the fraction is left out |
| Diagnostics.AgePassDeletesTheOlder | cjm_substrate/core/diagnostics_store.py:329-335 | the age pass deletes exactly what is older than the cutoff |
| Diagnostics.DiagnosticsStore.SizePass | cjm_substrate/core/diagnostics_store.py:337-360 | the size pass deletes the fewest batches of oldest rows that meet the budget or empty both tables, and ends |
| Diagnostics.DiagnosticsStore.ApplyRetention | cjm_substrate/core/diagnostics_store.py:313-362 | age then size; within budget or empty; the counts are the rows removed |
| Diagnostics.DiagnosticsStore.MaybeSweep | cjm_substrate/core/diagnostics_store.py:365-393 | sweeps exactly when due and records when; a due sweep leaves what age and size retention leave, and the tables are untouched otherwise |
| Diagnostics.SweepsAreSpaced | cjm_substrate/core/diagnostics_store.py:380-389 | exactly these calls sweep, whatever the clock does: the first, those that find the log grown, and those an interval or more after the sweep before them |
| Diagnostics.SweepsAreApart | cjm_substrate/core/diagnostics_store.py:380-389 | with a clock that does not go back, a sweep without a grown log is an interval after every earlier one |
| Diagnostics.BatchIsOldestFirstIff | cjm_substrate/core/diagnostics_store.py:321-352 | a batch deletes the oldest of both tables together exactly when the boundary rows meet |
| Diagnostics.NewRecordGoesFirst | cjm_substrate/core/diagnostics_store.py:344-352 | one record of 2026 goes while a chunk of 2025 stays |
| Workspaces.TreesMove | cjm_substrate/core/workspace.py:200-278 | a tree recorded under one root and read under another, on any disk: owned paths go to the manifest's workspace, or to the active one if they are only there; tokens are resolved; the rest stays |
| Workspaces.OwnedPathsAreFound | cjm_substrate/core/workspace.py:233-278 | an owned path read elsewhere exists exactly if it does in the manifest's workspace or the active one, the former first |
| Workspaces.NormalizedPathsKeepTheirRest | cjm_substrate/core/workspace.py:200-278 | a normalized owned path has its root replaced by the one where it is found, and nothing else |
| Workspaces.RoundTripsIff | cjm_substrate/core/workspace.py:200-278 | read in place a tree is unchanged exactly if no text is a token or an unnormalized owned path |
| Workspaces.RecordingTwiceIsOnce | cjm_substrate/core/workspace.py:200-230 | relativizing twice is relativizing once |
| Workspaces.SomeTextsDoNotSurvive | cjm_substrate/core/workspace.py:223-229 | a trailing slash and a token-like text do not come back |
| ModelCaches.HubDirsRoundTripIff | scripts/model_cache_inventory.py:72-91 | a hub directory's path is found again from its entry exactly if its kind ends in one s |
| ModelCaches.HubPruneStaysWithinTheRepo | scripts/model_cache_inventory.py:298-322 | the directory removed for an entry is listed under the entry's own repo id |
| ModelCaches.TagFileRoundTrips | scripts/model_cache_inventory.py:290-295 | a four-part tag without a colon is found again from its name |
| ModelCaches.TagFileKeepsTheName | scripts/model_cache_inventory.py:290-295 | the path removed for any entry is listed under the entry's own name |
| ModelCaches.OllamaStore.Prune | scripts/model_cache_inventory.py:329-357 | the dry run and the deletion name the same existing paths and blobs, and only the deletion changes the store |
| ModelCaches.OllamaStore.ReferencedBlobs | scripts/model_cache_inventory.py:270-287 | exactly the blobs that readable tags outside the excluded paths name |
| ModelCaches.WorkingSetIsSpared | scripts/model_cache_inventory.py:233-251 | on any layout, no removed tag is listed under a pinned or referenced name |
| ModelCaches.NamedBlobsAreKept | scripts/model_cache_inventory.py:329-341 | a blob named by a surviving readable tag is kept |
| ModelCaches.KeptBlobsAreNamedIff | scripts/model_cache_inventory.py:329-341 | the kept blobs are exactly those that surviving tags name if and only if every tag that goes along with a removed directory shares its blobs with tags that stay |
| ModelCaches.FilesLeaveNoStrays | scripts/model_cache_inventory.py:329-341 | in particular when every removed path is a file |
| ModelCaches.PruneIsExact | scripts/model_cache_inventory.py:298-322 | with four-part tags without colons exactly the tags outside the working set go |
| ModelCaches.DeeperTagGoes | scripts/model_cache_inventory.py:298-322 | a tag below a four-part path goes with that directory |
| ModelCaches.DeeperTagLeavesItsBlobs | scripts/model_cache_inventory.py:94-113 | the blobs of such a tag are kept although no tag is left to name them |

## Left out

- Job admission (concurrency caps, exclusivity, memory ledgers, priorities): any queued job may be popped next, so the theorems hold for every admission policy.
- Errors' texts, timestamps on jobs, events and journal rows of the queue: they do not influence a run.
- Retention of finished jobs in the queue's history: jobs of a run are taken to stay known until it ends.
- CapabilityManagers.CapabilityManager.Execute: the scheduler's answer includes its own eviction of other capabilities, whose reloads are not applied to the state; the default scheduler never asks for it.
- The asynchronous variants of load, execute and evict: the manager is one sequential class; overlapping executions appear as separate begin and end operations.
- Worker processes, their transport, progress polling and stall timers: each call to a worker has an arbitrary outcome.
- Config layering, schema validation and environment templates: the validated config is an arbitrary answer.
- CapabilityManagers.CapabilityManager.LoadCapability: adapter resolution and the environment are part of whether a worker process exists; the startup timeout, the schema and surface drift checks and the worker's taking its config are part of whether it starts.
- AdmissionProfiles.RecordedUnderTheLiveConfig: a sample of an execution whose instance is unloaded before it ends is not recorded; the source records it under the object it holds.
- Empirical measurement itself (sampling, caching of worker statistics, the single sample kept for ambient instances): the samples are given.
- SQLite, JSON, YAML and files: tables are maps and sequences, an existing path is a predicate, the database's size an arbitrary function of its rows.
- Workspaces.TreesMove: the root directory `/` as a workspace, and path texts that start with exactly two slashes below it, are not covered.
- Workspace discovery, layout and the doctor: straight-line file checks.
- ModelCaches.OllamaStore.Prune: flat checkpoints, hub lock directories, the chunk cache and byte counts are left out; their names are used as they stand.
- Which pins exist and which files are uploaded (`scripts/pypi_pin_bridge.py` before its wave loop): package index queries.
