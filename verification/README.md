# Control plane models

A Dafny model of the stateful cores of the Go control plane under `go-core`, with proofs of what they
keep over whole runs. `dafny verify dfyconfig.toml` checks everything.

| files | what they model |
|---|---|
| Basics, Text, Sorting, PlanGraph | shared small types, trimming and string order, stable sorting, dependency graphs |
| ConflictScheduling, PlanExecution, PlanCheckpoint, PlanExecutor | the parallel plan executor: greedy conflict scheduling, the run as a transition system, its two-part checkpoint over two backends, and the executor object with failures and resumes |
| Planner | the planner that feeds the executor, and the link between the two |
| PlanLanes | the lane scheduler of the managed coding runtime |
| SubmissionScheduler, SubmissionFairness, SubmissionPipeline, SubmissionOrder, SubmissionStranding | the fair submission scheduler, what it guarantees over runs, the protocol of submitters, consumer, filler and workers around it, the order of a group from end to end, and when a worker sleeps beside work |
| ExecutionSlots | the three-level slot acquisition |
| DeliveryHistory, MessageBus, DeliveryProtocol, DeliveryRetries, DeliveryCounters, DeliveryOutcomes | delivery records and ack replay, the message bus, the dispatch-retry-dead-letter protocol, its ledger, its counters and what handlers decide |
| ModelRegistration, RegistrationRounds | a model registration round over an array changed in place, and when a model asks again in later rounds |
| ProviderProbe | the single-flight provider prober |
| SweepLine | the sweep-line parallelism counter |

Objects and loops of the source are classes and loops here, proved against functions; the lemmas are
about those functions. Protocols between goroutines are state machines on values: a mutex section or a
channel operation is one step, an action names the goroutine that moves, and a run is any sequence of
enabled actions, so a statement about runs covers every interleaving. Results of agent work, probes,
store writes, scores, digests and case folding are parameters and may be anything; clocks only move
forward.

Where the code does less than it seems to, the model follows the code and says exactly when:

- The executor finishes a plan if and only if its ids carry no surrounding white space and its
  dependencies are closed and acyclic (`PlanExecution.RunOutcome`); a planner-built plan therefore
  never runs at all when the task id begins with white space (`Planner.PlannerRunOutcome`).
- Checkpoints are not kept apart by session: the file-system record of a plan carries its root id
  alone, trimmed, so a save shows in every session's load of that root and of a root that differs in
  trailing white space, and in no other (`PlanCheckpoint.PlansInterfereIffShared`,
  `PlanCheckpoint.StrangersLoadIt`).
- A failed save can leave the session store ahead of the file-system record from which a resume loads
  (`PlanCheckpoint.StoreRunsAhead`), and a task the store lists as completed is started again, after
  exactly which outcomes of the two writes `PlanExecutor.StoredTaskRestarts` says; every executable
  plan can get there (`PlanExecutor.EveryPlanCanRestart`). What is never restarted is what a resume loads.
- The bypass bound of the scheduler holds up to groups that join meanwhile. They can make it pass a
  ready group over any number of times if and only if the buffer has three places or more
  (`SubmissionFairness.StarvationNeedsThreePlaces`). The orchestrator itself always asks for 16 places
  or more (orchestrator.go:513-518), so a smaller buffer is only met by other callers of the
  constructor.
- A group is worked on in the order of submission if and only if there is at most one worker or a
  group may have one task in flight, the configured default (orchestrator.go:520-522); with two of
  each the newer task can start first (`SubmissionOrder.OrderNeedsOneAtATime`). A dispatch that keeps
  failing can go on without end (`SubmissionOrder.FailingTaskNeverRests`).
- The wake protocol never strands work for good, but a worker can sleep beside work while another is
  busy, if and only if there are at least two workers and two places
  (`SubmissionStranding.StrandingNeedsTwoAndTwo`).
- Availability and confirmation agree after a registration round for the models that took part; the
  others keep whatever they had (`ModelRegistration.AvailableMeansConfirmed`).
- A dispatch notes that its envelope is queued only after sending it, so a delivery already accepted
  can end up as queued, and a timeout sweep then sends it again or gives it up
  (`DeliveryOutcomes.AcceptedCanBeUndone`).

## Model

| member | source | states |
|---|---|---|
| ConflictScheduling.HasConflictKeys | go-core/internal/kernel/advanced_planner.go:700-711 | a task conflicts exactly when a trimmed non-blank key of its own is in use |
| ConflictScheduling.RegisterConflictKeys | go-core/internal/kernel/advanced_planner.go:713-721 | the keys in use afterwards are those before plus the task's trimmed non-blank keys |
| ConflictScheduling.ScheduleReadyArtifacts | go-core/internal/kernel/advanced_planner.go:654-687 | the loop over the sorted ready list computes `Schedule`, the specification the next seven rows are about |
| ConflictScheduling.ScheduleIsMaximal | go-core/internal/kernel/advanced_planner.go:654-687 | the chosen tasks are ready, pairwise conflict-free and clear of the running tasks' keys, and every task left out shares a key with a running task or with a chosen one that sorts no later |
| ConflictScheduling.LightestStarts | go-core/internal/kernel/advanced_planner.go:654-687 | of ready tasks that clash the lightest starts, ties going to fewer files and then to the smaller id: a task clear of the running ones and ahead of every ready task it clashes with is chosen |
| ConflictScheduling.LeftOutForALighterOne | go-core/internal/kernel/advanced_planner.go:654-687 | a ready task is left out only for something running it clashes with or for a chosen task it clashes with that is no heavier and, at the same weight, has no more files |
| ConflictScheduling.ShortcutAgrees | go-core/internal/kernel/advanced_planner.go:650-687 | the shortcut for lists of at most one task gives what the general greedy pass gives |
| ConflictScheduling.ScheduleIgnoresInputOrder | go-core/internal/kernel/advanced_planner.go:654-687 | with distinct ids any two arrangements of the ready list give the same choice |
| ConflictScheduling.IdleScheduleStarts | go-core/internal/kernel/advanced_planner.go:654-687 | with nothing running, a non-empty ready list always starts something |
| ConflictScheduling.AllStartIffDisjoint | go-core/internal/kernel/advanced_planner.go:654-687 | an idle executor starts every ready task at once if and only if no two of them share a key |
| PlanGraph.SomeStepIsReady | go-core/internal/kernel/advanced_planner.go:625-648 | in a closed acyclic graph some unfinished step has only finished dependencies, whatever has been finished so far |
| PlanGraph.RunnableIffSchedulable | go-core/internal/kernel/advanced_planner.go:297-322 | a graph has a dependency-respecting order of all its steps if and only if it is closed and acyclic |
| PlanExecution.CompletedSet | go-core/internal/kernel/advanced_planner.go:737-747 | the set of trimmed non-blank ids |
| PlanExecution.ReadyPlanArtifacts | go-core/internal/kernel/advanced_planner.go:625-648 | the loop computes, in plan order, the pending tasks all of whose dependencies are completed |
| PlanExecution.RemovePending | go-core/internal/kernel/advanced_planner.go:723-735 | removes the id and nothing else, and strictly shortens a list that holds it: the termination measure of a run |
| PlanExecution.CollectConflictKeys | go-core/internal/kernel/advanced_planner.go:689-698 | the union of the running tasks' keys |
| PlanExecution.TraceInv | go-core/internal/kernel/advanced_planner.go:297-357 | in every state of every run, before and after tasks start: pending and completed ids split the plan, completion respects dependencies, running tasks are conflict-free and unfinished, the start log has no repeats; pending shrinks with each result |
| PlanExecution.RunningTasksNeverConflict | go-core/internal/kernel/advanced_planner.go:296-324 | no two distinct running tasks ever share a conflict key, although running tasks stay pending and are reconsidered every round |
| PlanExecution.ExecutableNeverBlocks | go-core/internal/kernel/advanced_planner.go:297-322 | with work left on an executable plan something is always running after the start phase, so the blocked branch is not reached |
| PlanExecution.FinishedIsSchedule | go-core/internal/kernel/advanced_planner.go:342-357 | a run that empties the pending list has completed every id once, each after its dependencies, and so proves the plan executable |
| PlanExecution.LaunchedIsNew | go-core/internal/kernel/advanced_planner.go:283-316 | nothing completed before the run is started again, and no more tasks are started than the plan has, so the result channel of that size never overfills |
| PlanExecution.RunOutcome | go-core/internal/kernel/advanced_planner.go:297-368 | for every order of results, a run in which no task fails ends completed if and only if the plan is executable: ids free of surrounding white space, dependencies closed and acyclic |
| PlanCheckpoint.SaveThenLoad | go-core/internal/kernel/advanced_planner.go:97-229 | saving the static and the runtime half and loading gives the checkpoint back, whatever the backends held before and whichever of them exist |
| PlanCheckpoint.PlansInterfereIffShared | go-core/internal/kernel/advanced_planner.go:97-229 | saves of one plan can change what a session and root load if and only if those loads share records with it: with a file system when the two roots agree up to trailing white space, whatever the sessions; without one when session and root are both the same |
| PlanCheckpoint.StrangersLoadIt | go-core/internal/kernel/advanced_planner.go:97-193 | two collisions: after one save another session with the same root, and the same or another session whose root has one more blank, load this plan, its session id and its completed list, where nothing loaded before |
| PlanCheckpoint.NamesDiffer | go-core/internal/kernel/advanced_planner.go:477-491 | branch names of two roots agree only when the roots are equal, file-system paths when the roots agree up to trailing white space, and a runtime name is never a static one |
| PlanCheckpoint.SavesKeepFiled | go-core/internal/kernel/advanced_planner.go:154-193 | every record stays under names that its own root gives, the condition the interference row starts from |
| PlanCheckpoint.JoinedKeysAgree | go-core/internal/state/file_store.go:506-508 | where the file store joins session and branch into one key, the keys of two records, runtime or static, agree if and only if kind, session and root are the same or one session is the other followed by the separator and a piece the branches make up for |
| PlanCheckpoint.KindsMeet | go-core/internal/state/file_store.go:506-508 | they do meet that way, for every pair of kinds: a root id that goes on with the separator and a branch name, and a longer session id |
| PlanCheckpoint.HydrateKeepsRuntime | go-core/internal/kernel/advanced_planner.go:493-511 | filling in the static half leaves the runtime half alone |
| PlanCheckpoint.HydrateFillsGaps | go-core/internal/kernel/advanced_planner.go:493-511 | hydration keeps every part a record has; a record without its task or without tasks gets each part it lacks from the static record, if there is one; doing it twice is doing it once |
| PlanCheckpoint.LoadsUnderNames | go-core/internal/kernel/advanced_planner.go:97-152 | what a load finds has a root, a session and a branch: those on the record, or, where the record has none, those it was asked for; progress and status are the record's |
| PlanCheckpoint.StoreRunsAhead | go-core/internal/kernel/advanced_planner.go:154-193 | from a state in step, a save of new completions leaves the session store and what a resume loads out of step if and only if both backends are in use, the store write took effect, the file system already holds a record of the plan, and that record was not replaced, the store write having reported an error or the file-system write having had no effect |
| PlanExecutor.SaveRuntimeKeepsStored | go-core/internal/kernel/advanced_planner.go:154-193 | however a save's writes go, the plan stays stored, and a resume loads either what it would have loaded before or the new checkpoint; the latter when the save succeeds |
| PlanExecutor.StoredLoads | go-core/internal/kernel/advanced_planner.go:97-152 | what is stored loads as one consistent checkpoint: pending and completed split the plan, the batch number is one more than the completed count |
| PlanExecutor.NormalizeConsistent | go-core/internal/kernel/advanced_planner.go:231-260 | on a stored checkpoint the defaults filled in before a run change nothing |
| PlanExecutor.NormalizeOnlyFills | go-core/internal/kernel/advanced_planner.go:231-260 | the defaults fill in what is missing and change nothing that was set; filling in twice is filling in once |
| PlanExecutor.RunMeaning | go-core/internal/kernel/advanced_planner.go:231-368 | what a run from a consistent checkpoint means: started tasks are new and distinct; whatever is added to the completed list, in memory or in store, is a task that succeeded; it blocks only on plans that cannot be run; with reliable writes it finishes if and only if the plan is executable and every pending task succeeds, and a failure is on record with its task still pending |
| PlanExecutor.StoredTaskRestarts | go-core/internal/kernel/advanced_planner.go:154-193 | for every stored running plan, every task it starts and every outcome of the two writes of its result: the store lists the task as completed and the next resume starts it again if and only if both backends are in use, the store has the result, and the file-system write was not made or had no effect; and if and only if the store lists the task and the loaded checkpoint does not |
| PlanExecutor.EveryPlanCanRestart | go-core/internal/kernel/advanced_planner.go:14-193 | that is reached from any two backends by every executable non-empty plan, its preview and the first save of its run (`PlanExecutor.OneTaskPlan` is such a plan): a refused file-system write then makes the next resume start a task the store lists as completed |
| PlanExecutor.Executor.SaveParallelCheckpoint | go-core/internal/kernel/advanced_planner.go:154-193 | the method form: after any outcome a resume loads the old checkpoint or the new one, and the new one on success |
| PlanExecutor.Executor.PreviewExecutionPlan | go-core/internal/kernel/advanced_planner.go:14-69 | the first checkpoint is consistent, has everything pending, and on success is what a load returns |
| PlanExecutor.Executor.ExecuteParallelPlan | go-core/internal/kernel/advanced_planner.go:231-368 | the loop makes a run of the transition system from the loaded checkpoint; what is stored always lies between what was loaded and what was reached; a task joins the completed list only after success, a failed one stays pending with status and result saying so; how the run ended is stored when writes are reliable |
| PlanExecutor.Executor.ResumeExecutionPlan | go-core/internal/kernel/advanced_planner.go:86-95 | without a record it answers not found and changes nothing; otherwise nothing completed in the loaded checkpoint is started, the stored completed list only grows and only by tasks that succeed, and with reliable writes the resume finishes if and only if the plan is executable and every task still pending succeeds |
| PlanExecutor.Executor.RunExecutionPlan | go-core/internal/kernel/advanced_planner.go:71-84 | preview, load and run: with a backend and reliable writes it finishes if and only if the plan is executable and every task succeeds; nothing is found to run if and only if there is no backend |
| PlanExecutor.Executor.ResumeRepeatedly | go-core/internal/kernel/advanced_planner.go:86-229 | over any sequence of resumes, task failures and failed saves, the loaded completed lists form a chain and no later resume starts a task any of them lists |
| Planner.ClusterPlanFiles | go-core/internal/kernel/planner.go:225-249 | the clusters laid end to end are exactly the first `limit` files, in order, in chunks that are full except possibly a non-empty last one |
| Planner.CompactMeans | go-core/internal/kernel/planner.go:85-86 | the files a plan works on are those of the task, trimmed and without the blank ones, in order and with repeats |
| Planner.WorkIsReviewed | go-core/internal/kernel/planner.go:98-168 | in a plan that runs in line the steps ascend from context over work and review to tests: one step works, the next reviews it, and tests close exactly the code and fix plans and the sourcecraft test plans |
| Planner.CodeBranches | go-core/internal/kernel/planner.go:172-200 | branch i takes the i-th cluster as its files and conflict keys, waits for the analysis alone, and its id is the i-th of the list the merge waits for |
| Planner.BuildPlan | go-core/internal/kernel/planner.go:85-212 | for every cost of the steps the plan is closed, acyclic and of distinct ids, and can be run to the end if and only if the task id does not begin with white space; a parallelizable code task fans out from its analysis into branches that share out the first files in order, each within the cluster size, then merge and test; any other plan is a line |
| Planner.DecimalInjective | go-core/internal/kernel/planner.go:172-212 | branch numbers print differently, so parallel branch ids differ |
| Planner.DraftsOrdered | go-core/internal/kernel/planner.go:85-212 | in every plan the planner builds, suffixes are distinct and every dependency names an earlier step |
| Planner.PlannerPlanExecutable | go-core/internal/kernel/advanced_planner.go:391-459 | a planner-built plan is closed and acyclic, and the executor can run it to the end if and only if the task id does not begin with white space |
| Planner.PlannerRunOutcome | go-core/internal/kernel/advanced_planner.go:297-368 | with no failing step a planner-built plan completes if and only if the task id does not begin with white space; otherwise nothing at all is completed |
| Planner.FilesAreExclusive | go-core/internal/kernel/advanced_planner.go:391-459 | in every run of a planner-built plan, no two steps that work on a common file run together |
| PlanLanes.ReadyLanes | go-core/internal/kernel/managed_coding_runtime.go:577-602 | the lanes not started whose dependencies are complete, in launch order |
| PlanLanes.LaunchOrderFollowsPriority | go-core/internal/kernel/managed_coding_runtime.go:111-127 | within a round a lane whose worker is of one of the five classes (planning, retrieval, coding, review, test) launches behind no lane of a later class or of none |
| PlanLanes.TakeResult | go-core/internal/kernel/managed_coding_runtime.go:634-640 | a result keeps the invariant: running is started minus completed, completion respects dependencies |
| PlanLanes.BlockedMeansNotRunnable | go-core/internal/kernel/managed_coding_runtime.go:621-632 | nothing running and nothing ready with lanes left means the plan is not closed and acyclic |
| PlanLanes.AllDoneIsSchedule | go-core/internal/kernel/managed_coding_runtime.go:575-702 | a run that counts every lane complete has run each once, after its dependencies |
| PlanLanes.ResultsFitBuffer | go-core/internal/kernel/managed_coding_runtime.go:568-618 | no more lanes are ever started than the result buffer has places, so every lane can deliver its result even after an early return |
| PlanLanes.ExecutePlanLanes | go-core/internal/kernel/managed_coding_runtime.go:567-702 | the log of starts and results is proper throughout (each lane starts at most once, after its dependencies, and reports at most once); every lane counted complete succeeded, except the one a failure stops at; without cancellation, for every order of results, it completes if and only if the plan is closed and acyclic and every lane succeeds |
| SubmissionScheduler.PopMeaning | go-core/internal/kernel/orchestrator.go:378-413 | a pop fails if and only if no group is eligible; otherwise it returns the head of an eligible group, no eligible group has a head of higher score, and none closer in rotation one as high |
| SubmissionScheduler.EnqueueValid | go-core/internal/kernel/orchestrator.go:326-338 | an enqueue with room keeps the representation invariant: order lists the queues' keys once, no empty queue, the pending count is the number of items and within the buffer, in-flight counts within 1 and the cap, cursor in range |
| SubmissionScheduler.PopValid | go-core/internal/kernel/orchestrator.go:378-427 | a pop keeps the invariant, moves exactly its item out of the backlog, takes it from the front of its group's queue, leaves other queues alone and adds one to that group's in-flight count alone |
| SubmissionScheduler.FinishedValid | go-core/internal/kernel/orchestrator.go:366-376 | giving back a unit keeps the invariant and the items, and lowers that group's in-flight count alone, never below zero |
| SubmissionScheduler.FreshValid | go-core/internal/kernel/orchestrator.go:311-324 | a new scheduler is valid and empty for every configuration |
| SubmissionScheduler.Scheduler.constructor | go-core/internal/kernel/orchestrator.go:311-324 | the object form of the above, with no signal pending |
| SubmissionScheduler.Scheduler.TryEnqueue | go-core/internal/kernel/orchestrator.go:326-338 | one attempt goes through if and only if the buffer has room, and sets the wake signal if it does |
| SubmissionScheduler.Scheduler.FindBest | go-core/internal/kernel/orchestrator.go:382-408 | the scan with its running best index and score finds the first best offset |
| SubmissionScheduler.Scheduler.PopNext | go-core/internal/kernel/orchestrator.go:378-427 | the in-place edits of queues, order, cursor and counts are the specified pop |
| SubmissionScheduler.Scheduler.Done | go-core/internal/kernel/orchestrator.go:366-376 | gives back a unit and sets the wake signal |
| SubmissionFairness.GroupIsFifo | go-core/internal/kernel/orchestrator.go:326-427 | over any run, what a group hands out followed by what it still holds is what it held followed by what was accepted for it |
| SubmissionFairness.PopServesOrCloser | go-core/internal/kernel/orchestrator.go:378-427 | with equal head scores a pop serves the waiting group or brings it strictly closer to the cursor, through the cursor advance and the deletion from the order alike |
| SubmissionFairness.BypassIsBounded | go-core/internal/kernel/orchestrator.go:378-427 | while a group stays ready and heads score equally, others are served before it at most as often as its rotation distance plus the number of groups that join meanwhile |
| SubmissionFairness.NewGroupsCanStarve | go-core/internal/kernel/orchestrator.go:326-427 | the bound needs its second term: with the cursor on the second of two ready groups, joining groups of equal score make a pop pass the first one over any number of times |
| SubmissionFairness.CursorReachesSecond | go-core/internal/kernel/orchestrator.go:311-427 | a run from a new scheduler with room for three tasks that ends in such a state |
| SubmissionFairness.StarvationNeedsThreePlaces | go-core/internal/kernel/orchestrator.go:311-427 | a group can be passed over any number of times in some run from a new scheduler if and only if the buffer has at least three places; with fewer it is passed over at most once |
| SubmissionPipeline.StepKeepsInv | go-core/internal/kernel/orchestrator.go:326-376 | every step of submitters, consumer, filler and workers keeps the pipeline invariant, on the scheduler as specified above |
| SubmissionPipeline.ReachableStatesAreSound | go-core/internal/kernel/orchestrator.go:837-931 | in every state any interleaving reaches from the start: valid scheduler, every submission in exactly one place, in-flight counts equal to workers on the group, no sleeper without a wake-up on its way |
| SubmissionPipeline.StartInv | go-core/internal/kernel/orchestrator.go:311-324 | the start state of any number of workers satisfies the pipeline invariant |
| SubmissionPipeline.StepConserves | go-core/internal/delivery/message_bus.go:198-280 | no step loses or duplicates a task, including the negative acknowledgement that puts it back at the front of the bus |
| SubmissionPipeline.StepCounts | go-core/internal/kernel/orchestrator.go:366-427 | a group's in-flight count stays the number of workers on its items |
| SubmissionPipeline.StepKeepsAwake | go-core/internal/kernel/orchestrator.go:326-376 | no step loses a wake-up: a sleeping consumer beside a task, a sleeping filler beside room, or sleeping workers beside an eligible group always have a token set or a notifier between its change and its send |
| SubmissionPipeline.RestMeansAllAcknowledged | go-core/internal/kernel/orchestrator.go:837-931 | when no step is possible without a new submission, every submitted task has been acknowledged and every queue and hand is empty: the pipeline cannot deadlock with work left |
| SubmissionPipeline.PipelineDrains | go-core/internal/kernel/orchestrator.go:837-931 | every run is no longer than the work left at its start plus 22 steps for each submission and each failed dispatch in it, and if it ends where no step is possible everything submitted has been acknowledged |
| SubmissionPipeline.PipelineCanDrain | go-core/internal/kernel/orchestrator.go:837-931 | from every reachable state some continuation acknowledges everything |
| SubmissionPipeline.StartIsQuiet | go-core/internal/kernel/orchestrator.go:837-931 | with nothing submitted, a new pipeline comes to rest after at most one step a worker and two more |
| SubmissionStranding.StrandingNeedsTwoAndTwo | go-core/internal/kernel/orchestrator.go:326-376 | some run leaves a worker asleep beside an eligible group, with no token set and nobody about to wake it or to look, if and only if there are at least two workers and the buffer has at least two places |
| SubmissionStranding.WorkerCanIdleBesideWork | go-core/internal/kernel/orchestrator.go:348-364 | that state for any number of workers from two on: two enqueues left one token |
| SubmissionOrder.OrderNeedsOneAtATime | go-core/internal/kernel/orchestrator.go:837-931 | in every run the tasks of every group none of whose dispatches fails reach the workers in the order they were submitted, if and only if there is at most one worker or the effective cap is one task of a group in flight |
| SubmissionOrder.GroupsStartInOrder | go-core/internal/kernel/orchestrator.go:837-931 | under that condition, whatever other groups do: the tasks of a group started so far, followed by those waiting between bus, consumer, filler, queue and hands in that order, are those submitted |
| SubmissionOrder.NewerStartsFirst | go-core/internal/kernel/orchestrator.go:901-931 | otherwise, for every number of workers from two on, every cap from two on and every buffer: a run that submits two tasks of a group and starts the newer one first, no dispatch failing |
| SubmissionOrder.FailingTaskNeverRests | go-core/internal/delivery/message_bus.go:245-280 | with one submission alone, whose dispatch keeps failing, there is a run of more than any number of steps that starts the task any number of times; the bound on runs and the order of starts cannot do without their terms for failed dispatches |
| SubmissionOrder.FailedTaskIsNext | go-core/internal/delivery/message_bus.go:245-280 | a task whose dispatch failed is the next one the consumer takes, whatever happens in between, unless another dispatch fails |
| ExecutionSlots.WantedInOrder | go-core/internal/kernel/orchestrator.go:2910-2990 | the channels an execution sends to, absent ones passed over, come in strictly increasing order and each has room for somebody |
| ExecutionSlots.LimitsHold | go-core/internal/kernel/orchestrator.go:2910-2990 | in every reachable state no more executions run than the limits say: all told, for one agent, and on one model by its trimmed name; a limit that is not positive, and a blank agent or model, is no limit |
| ExecutionSlots.WaitsOnlyAtALimit | go-core/internal/kernel/orchestrator.go:2910-2990 | an execution that cannot take its next slot waits at a limit that others have used up: all told, of its agent or of its model |
| ExecutionSlots.NewcomersRun | go-core/internal/kernel/orchestrator.go:2910-2947 | in every reachable state: whoever comes while fewer than the limits allow hold slots, all told, for its agent and on its model, runs after at most three steps of its own |
| ExecutionSlots.OccupancyIsOwnership | go-core/internal/kernel/orchestrator.go:2910-2948 | in every reachable state each channel's occupancy is the number of executions holding it and at most its capacity |
| ExecutionSlots.GiveIsNeverBlocked | go-core/internal/kernel/orchestrator.go:2941-2947 | giving a slot back never blocks |
| ExecutionSlots.TakesAreGivenBack | go-core/internal/kernel/orchestrator.go:2929-2947 | in every run, however the others interleave, what an execution took of a slot and has not given back is what it holds; one that is gone gave back each slot as often as it took it |
| ExecutionSlots.GivesBackWhatItTook | go-core/internal/kernel/orchestrator.go:2941-2947 | left to itself, an execution that stopped, finished or cancelled half way, gives back in as many steps as it holds slots, one token of each slot it holds and nobody else's |
| ExecutionSlots.SomeoneCanMove | go-core/internal/kernel/orchestrator.go:2914-2947 | while some execution is not gone, one can move on without a cancellation and without an arrival: no deadlock |
| ExecutionSlots.EverybodyLeaves | go-core/internal/kernel/orchestrator.go:2910-2948 | once arrivals stop every schedule ends within a fixed number of steps, and where it ends everyone is gone and every channel is empty |
| SweepLine.MaxObservedParallelism | go-core/cmd/verify-orchestrator/main.go:919-950 | the result is the maximum over all instants of the number of measured traces running, both ends included: no instant exceeds it and some instant attains it |
| SweepLine.NetIsOverlap | go-core/cmd/verify-orchestrator/main.go:924-930 | the edges in effect at an instant add up to the traces running then |
| SweepLine.PrefixIsReached | go-core/cmd/verify-orchestrator/main.go:934-948 | right after a start edge at least as many traces run as the sweep has counted, because starts sort before ends |
| SweepLine.EndsFirstUndercounts | go-core/cmd/verify-orchestrator/main.go:934-939 | a counterexample for the other tie order: two traces meeting at an instant would never be counted together |
| DeliveryHistory.ReplayIsIdempotent | go-core/internal/delivery/supervisor.go:436-501 | for every history, replaying it twice leaves status, handshake, validation, receiver, reason and the two times as replaying it once |
| DeliveryHistory.ReplayAbsorbsPrefix | go-core/internal/delivery/supervisor.go:117-170 | a record that already absorbed the start of a history may replay all of it: same result as on the untouched record |
| DeliveryHistory.StatusIsLastAck | go-core/internal/delivery/supervisor.go:436-501 | after a replay the status is that of the last recognised ack, the receiver that of the last ack a receiver sends, the reason that of the last ack that gives one |
| DeliveryHistory.CompletionIsFinal | go-core/internal/delivery/supervisor.go:465-498 | a record is completed after a replay if and only if it was before or the history has a terminal ack; a set completion time never changes, and a new one is that of the first terminal ack |
| DeliveryHistory.EstablishedMeansAccepted | go-core/internal/delivery/supervisor.go:436-501 | a handshake ends established if and only if some ack accepts a payload validated by then, or it was established before, and no later ack validates anew, retries or dead-letters |
| DeliveryHistory.DeliveryRecord.ApplyHistory | go-core/internal/delivery/supervisor.go:436-501 | the loop over the record's fields is the replay |
| DeliveryHistory.DeliveryRecord.Snapshot | go-core/internal/delivery/supervisor.go:117-143 | a snapshot replays on a copy: looking at a record does not change it |
| DeliveryHistory.DeliveryRecord.TakenFromMailbox | go-core/internal/delivery/supervisor.go:145-170 | fetching moves the record to received and then replays the history |
| MessageBus.MessageBus.Publish | go-core/internal/delivery/message_bus.go:107-113 | appends to the agent's queue and touches no other |
| MessageBus.MessageBus.RequeueFront | go-core/internal/delivery/message_bus.go:115-122 | puts the envelope at the front of the agent's queue and touches no other |
| MessageBus.MessageBus.Consume | go-core/internal/delivery/message_bus.go:124-134 | takes the oldest envelope addressed to the agent, if there is one, and the queues still agree with the protocol's mailbox |
| MessageBus.MessageBus.SendEnvelope | go-core/internal/delivery/message_bus.go:366-379 | queues the envelope with one more hop or dead-letters it, as the protocol's send does; the task is unacknowledged if and only if it was queued |
| MessageBus.MessageBus.Ack | go-core/internal/delivery/message_bus.go:385-394 | appends to the history; a task stays unacknowledged exactly while its last send is newer than its last terminal ack |
| MessageBus.MessageBus.MarkDeadLetterEnvelope | go-core/internal/delivery/message_bus.go:409-416 | records the envelope once, flagged as a dead letter, and closes the task |
| MessageBus.HeadIsNext | go-core/internal/delivery/message_bus.go:124-134 | the per-topic queues and the single mailbox of the protocol agree: the head of a topic is the oldest envelope addressed to it, and removing it leaves other topics alone |
| DeliveryRetries.StepKeepsInv | go-core/internal/delivery/supervisor.go:73-353 | every step of workers, sweeps, dispatches and foreign senders keeps the ledger of sends, the records and the mail |
| DeliveryRetries.SendsAreBounded | go-core/internal/delivery/worker_pool.go:198-260 | for every interleaving, sends made or on their way are exactly one plus the retries counted on the record, and at most 1 + max(0, maxRetries - initial retry count) envelopes of a dispatch enter the mail |
| DeliveryRetries.HandlersSeeWhatWasDispatched | go-core/internal/delivery/worker_pool.go:166-196 | a handler is only given a payload whose digest is the one taken at dispatch, and every retry carries the dispatched envelope but for its count |
| DeliveryRetries.OwnMailIsNeverRefused | go-core/internal/delivery/supervisor.go:172-196 | when all mail comes from the supervisor no payload check ever fails, and a task reaches workers no more often than it was published |
| DeliveryRetries.StepKeepsMail | go-core/internal/delivery/message_bus.go:107-134 | every envelope put in the mail is still there or was received, once |
| DeliveryCounters.IdleCountersAddUp | go-core/internal/delivery/worker_pool.go:274-343 | whenever a pool has no active worker, processed = succeeded + failed + validation failures and failed + validation failures = retried + dead-lettered |
| DeliveryCounters.StepKeepsBalance | go-core/internal/delivery/worker_pool.go:166-343 | between those moments each difference is exactly the number of workers that still owe the count |
| DeliveryOutcomes.CountersTellOutcomes | go-core/internal/delivery/worker_pool.go:166-196 | over any run, for every agent, successes counted or about to be are the handlers that returned no error; failures counted or about to be are the handlers that returned one and the handshakes missed |
| DeliveryOutcomes.HandlerDecides | go-core/internal/delivery/worker_pool.go:185-196 | whatever others do meanwhile: after a handler without error the worker marks the delivery accepted and counts a success; after one with an error it counts a failure and goes on to decide on a retry |
| DeliveryOutcomes.GivesUpAtTheLimit | go-core/internal/delivery/worker_pool.go:198-260 | a delivery is given up, by a worker or a sweep, only when every send it is allowed has been made or is on its way |
| DeliveryOutcomes.RetriesUntilTheLimit | go-core/internal/delivery/worker_pool.go:226-246 | below the limit a failed delivery is sent again as it was dispatched, with its retry count one higher |
| DeliveryOutcomes.SweepsFollowTheLimit | go-core/internal/delivery/supervisor.go:291-353 | a sweep retries an unfinished delivery if and only if it is below its limit, and gives it up if and only if it is not |
| DeliveryOutcomes.SmoothRunsSendOnce | go-core/internal/delivery/worker_pool.go:166-196 | without foreign mail, sweeps and failing handlers every task is sent and received at most once, nothing fails, and no worker is ever on the way to a retry or a dead letter |
| DeliveryOutcomes.CheckDecides | go-core/internal/delivery/supervisor.go:172-196 | in every reachable state, a worker's check validates the delivery if and only if the payload has the digest taken at dispatch; anything else, an unknown task included, is refused |
| DeliveryOutcomes.RefusedIsDeadLettered | go-core/internal/delivery/worker_pool.go:172-178 | whatever others do meanwhile: a refused delivery is marked failed and counted, then dead-lettered and counted, and no handler sees it |
| DeliveryOutcomes.StrangersAreRefused | go-core/internal/delivery/supervisor.go:172-186 | mail that no dispatch put there can come and is refused, so that no refusal happens holds for the supervisor's own mail alone |
| DeliveryOutcomes.RetriesAreSent | go-core/internal/delivery/worker_pool.go:236-244 | a retry marks the delivery retrying, sends the envelope once with one more hop unless its hops are used up, and is then counted |
| DeliveryOutcomes.ValidatedMeansReceived | go-core/internal/delivery/supervisor.go:172-196 | in every reachable state a validated delivery has had an envelope of its task received |
| DeliveryOutcomes.AcceptedCanBeUndone | go-core/internal/delivery/supervisor.go:73-115 | for every envelope with hops left: a run without any failure in which the delivery is accepted and then set to queued by its own dispatch, with no mail and no busy worker left, so that a timeout sweep takes it for unfinished |
| ModelRegistration.PrioritizeModelValidation | go-core/internal/kernel/model_registry.go:510-530 | the two loops build `Order` |
| ModelRegistration.OrderIsPermutation | go-core/internal/kernel/model_registry.go:510-530 | the validation order visits every model once, with the default model first when there is one |
| ModelRegistration.ScreenModel | go-core/internal/kernel/model_registry.go:469-484 | what happens to a model before the queue is looked at, and whether it asks for a place; what that means is in the `RegistrationRounds` rows |
| ModelRegistration.AdmitModels | go-core/internal/kernel/model_registry.go:464-494 | the first loop: the queue is the first `queueLimit` candidates and the probes the first `validationLimit` of those (all when 0); every other model is marked as its rank says |
| ModelRegistration.ProbeModels | go-core/internal/kernel/model_registry.go:496-500 | the second loop changes exactly the probed models |
| ModelRegistration.RemarkWaiting | go-core/internal/kernel/model_registry.go:502-504 | the last loop leaves the whole array as it was |
| ModelRegistration.ValidateDiscoveredModels | go-core/internal/kernel/model_registry.go:454-507 | after the round every model in the array is its `Outcome`, the specification the next four rows are about |
| ModelRegistration.AvailableMeansConfirmed | go-core/internal/kernel/model_registry.go:600-793 | after the round a model that took part is available if and only if it is confirmed; one that did not take part is as it was |
| ModelRegistration.RankDecides | go-core/internal/kernel/model_registry.go:486-494 | a candidate is probed, queued at its place or turned away by its rank among the candidates alone |
| ModelRegistration.QueuePlacesAreContiguous | go-core/internal/kernel/model_registry.go:493-504 | of the models that took part, exactly one holds each place from the first not probed to the last admitted, and none holds any other |
| ModelRegistration.ProbesAreCounted | go-core/internal/kernel/model_registry.go:704-714 | a model's attempt count goes up by one if and only if it is among the probed, and of the models that took part exactly the holders of a place say they are queued |
| ModelRegistration.QueuedAgainIsSame | go-core/internal/kernel/model_registry.go:688-694 | marking a queued model again with its place changes nothing, state-change time included |
| RegistrationRounds.WhoAsks | go-core/internal/kernel/model_registry.go:469-484 | a model asks for a place (it is left probed, queued or turned away) if and only if it takes part, its transport applies, its confirmation no longer holds, and the time set for its next verification has come |
| RegistrationRounds.FailedModelsComeBack | go-core/internal/kernel/model_registry.go:659-664 | after a failed probe, through any rounds: the model asks in none held before the cooldown is over and in the first one held then or later; at once when the failure was final or there is no cooldown |
| RegistrationRounds.ConfirmationsRunOut | go-core/internal/kernel/model_registry.go:600-664 | after a confirmation, through any rounds: the model stays available and asks in none held within its time to live, and asks in the first one held later |
| RegistrationRounds.UnprobedAskAgain | go-core/internal/kernel/model_registry.go:486-504 | a model that was queued or turned away without a probe asks again in the next round |
| RegistrationRounds.ProbeTells | go-core/internal/kernel/model_registry.go:704-772 | what a round says of a model it probed: status, reason, and the runs of successes and failures the answer extends or ends |
| RegistrationRounds.WaitTells | go-core/internal/kernel/model_registry.go:688-702 | what it says of a model that asked and was not probed: queued or turned away, one more cycle waited, the runs of successes and failures untouched, the expiry of an old success kept or found |
| RegistrationRounds.RestTells | go-core/internal/kernel/model_registry.go:609-686 | what it says of a model that took part and did not ask: still confirmed, not reachable by this transport, or cooling down until the date it had |
| RegistrationRounds.ClockStartsOnce | go-core/internal/kernel/model_registry.go:632-645 | the clock of the pending time to live starts in the first round that prepares a model for verification, and no later round moves it, whatever becomes of the model |
| ProviderProbe.ProbesAreSingleFlight | go-core/internal/kernel/provider_probe_manager.go:64-145 | under every interleaving of observers and workers a provider is queued or being dequeued at most once, exactly when flagged so, probed by at most one worker, exactly when flagged so, and never both |
| ProviderProbe.RequestsExactlyWhenDue | go-core/internal/kernel/provider_probe_manager.go:64-90 | in every reachable state an observation gets a request queued, at the end, if and only if it asks for a probe and has a reporter and a name, the queue has room, the provider is nowhere queued, taken or in flight, and its last finished probe, if any, is as long ago as its finding demands: the delay after an answer, the rate-limit or the failure cooldown after another |
| ProviderProbe.RequestsAreServed | go-core/internal/kernel/provider_probe_manager.go:103-113 | a request taken off the queue leads to a probe if and only if the last observation of its provider came with a reporter; otherwise the worker is free again |
| ProviderProbe.RequestsAreWorkedOff | go-core/internal/kernel/provider_probe_manager.go:92-145 | from every reachable state the workers alone take a bounded number of steps, and where they can take no more nothing is queued and nobody is at work |
| ProviderProbe.ProbesAreRateLimited | go-core/internal/kernel/provider_probe_manager.go:103-164 | with every delay at least d, a run in which n probes of a provider finished lasted at least (n - 1) * d since the first |
| ProviderProbe.ProbeManager.Observe | go-core/internal/kernel/provider_probe_manager.go:64-90 | the method form of an observation; it asks for a probe if and only if one is due and the queue has room |
| ProviderProbe.ProbeManager.BeginProbe | go-core/internal/kernel/provider_probe_manager.go:103-113 | the method form of a worker's start; without a reporter nothing is put in flight |
| ProviderProbe.ProbeManager.FinishProbe | go-core/internal/kernel/provider_probe_manager.go:125-145 | the method form of a worker's finish: both flags cleared, both waits scheduled |

## Left out

- SubmissionPipeline.ReachableStatesAreSound: cancellation of the context is not modelled, so the negative acknowledgement of a filler that is cancelled while waiting is not either.
- SubmissionPipeline.PipelineDrains: bounds a run by its failed dispatches; that it cannot do without them is `SubmissionOrder.FailingTaskNeverRests`.
- SubmissionOrder.OrderNeedsOneAtATime: is about the order within one group; nothing is promised across groups, where scores decide.
- SubmissionFairness.BypassIsBounded: says nothing when head scores differ; the age bonus of a score is capped, so priorities can keep a group waiting.
- ExecutionSlots.EverybodyLeaves: an execution that never finishes keeps its slots; that each one does finish is taken for granted. Runtime capacity snapshots are not modelled.
- PlanCheckpoint.PlansInterfereIffShared: records of the session store are keyed by the pair of session and branch, as in the table store; where the file store joins the two, `PlanCheckpoint.JoinedKeysAgree` says which pairs meet.
- PlanExecutor.Executor.ResumeRepeatedly: resumes follow one another; two resumes of the same plan at the same time are not modelled. What is never restarted is what the loaded checkpoint lists, not what the session store alone lists.
- PlanExecutor.Executor.PreviewExecutionPlan: the plan is given, with distinct trimmed ids, and the session and root ids are not empty; the planner that builds it is modelled on its own.
- DeliveryRetries.SendsAreBounded: task ids are dispatched once; a second dispatch of an id replaces its record. Broker-managed buses take another retry path, which is not modelled. The mailbox fetch of supervisor.go:145-170, which replays the ack history onto the shared record, is modelled by `DeliveryHistory.DeliveryRecord.TakenFromMailbox` and is not a step of the protocol.
- DeliveryHistory.ReplayIsIdempotent: is about replay; a live ack overwrites the completion time each time.
- MessageBus.MessageBus.SendEnvelope: the queue insertion and the bookkeeping that follows are one step here, two mutex sections in the code. Task and result lists and the signals of the bus appear in SubmissionPipeline; the two buses are not one object.
- ModelRegistration.ValidateDiscoveredModels: starts after the merge with what was known of each model, and leaves metadata other than the probe status, transports and error records aside. A negative validation limit is not a legal configuration.
- ProviderProbe.ProbesAreSingleFlight: which of a cached and a fallback health report is shown is not modelled.
- PlanLanes.ExecutePlanLanes: lane time limits, events, session state and the aggregation of results are not modelled; the outcome of a lane is a parameter.
- Planner.BuildPlan: titles, prompts, capabilities, worker classes and context budgets of steps are not modelled, nor is the cost estimate, which is an arbitrary weight.
- The dead-letter list of the protocol, the handshake strings of live acks, latency averages and the last-error fields of the pools: plain recording.
- That dead-lettering happens once, that a terminal ack is final and that every workflow waiter is woken: the code does not keep these.
- Read errors of the checkpoint backends, payload encoding, time stamps and integer overflow: encoding and decoding are taken as exact inverses, integers are unbounded.
- Workers, pools and supervisors as objects: their interleaved steps are a state machine on values, so aliasing of a record between goroutines is represented by the shared records map. Unlocked reads and updates in the timeout sweep are taken as atomic.
- HTTP and streaming endpoints, databases, the RabbitMQ bus, routing, memory, retrieval and self-learning, environment parsing: input and output, or outside these cores.
