# A verified model of Maze's scheduling core

Maze is a distributed scheduler for agent workflows. Its hard logic sits in a few
lock-protected state machines that must stay right under duplicate messages, timeouts,
failed writes and crashes. This project models those machines in Dafny 4.11 and proves
what they keep over every run. Check it with `dafny verify dfyconfig.toml`.

Every machine is written the same way. A datatype holds its state, with *history* fields
for facts the program does not store (which actors were killed, which routes are out,
what was ever sent). `Step` is one atomic region: a lock region, a database transaction,
a semaphore or queue operation, a persist, a send. `Run` is any list of steps, so a
theorem about `Run` from the initial state is a theorem about every interleaving. Where
the source updates an object in place, a class has the source's fields and each of its
methods is proved to take exactly one step (or the steps it says); loops of the source
are loops of the method.

| file | what it models |
|---|---|
| `ActorStart.dfy`, `ActorStartProgress.dfy`, `ActorStartDelivery.dfy` | starting a model actor whose creation may never return: slots, late kills, cancellation, shutdown; that every start comes to an end; and which starts end with a registered actor |
| `DaemonPool.dfy` | the bounded worker pool for calls that may never return |
| `InstanceFleet.dfy`, `FleetOperations.dfy`, `LlmInstanceManager.dfy` | readiness, routing, release, memory recovery, scale-in claims, stop ownership, forgetting; the machine, what each operation does, and the manager object |
| `Demand.dfy` | pending model requests, the cached anchor, deployment counts |
| `TaskAttempts.dfy` | which scheduler messages count, and the transaction around each |
| `DispatchJournal.dfy` | the durable start of a run, its failure, cleanup, retries and recovery |
| `FinishSaga.dfy` | the resumable continuation after a task finished |
| `RunInputs.dfy` | encoding run inputs on the client and binding them on the server |
| `ArtifactStore.dfy` | the content-addressed store with capabilities, access rows and the reaper |
| `ResourceMemory.dfy` | the memory history and the recommendation made from it |
| `TaskQueues.dfy` | the three priority queues |
| `Counting.dfy`, `Options.dfy` | counting in sequences; optional values |

## What was found

Six statements a reader might expect are false of the code. Each has a run that shows it
and a theorem that says exactly when it holds.

- In-flight counts lose track in two ways. An instance id is registered again while a
  route to its predecessor is out, because a release looks the instance up by id and
  ignores the generation the route carries (`InstanceFleet.ReusedIdLosesTheCount`); or one
  route is released twice while its instance counts requests, because a release does not
  ask whether the route is still out (`InstanceFleet.RouteReleasedTwiceLosesTheCount`).
  `InstanceFleet.RequestsAreConservedIff` is the exact condition. These are failures at
  the manager's interface: its production callers draw instance ids with `uuid4`, reuse
  one only for an instance that never became ready, and clear a task's route when they
  release it.
- A run can be announced and cleared twice when two finish continuations are still open
  as it succeeds: `FinishSaga.RunClearedTwice`. `FinishSaga.ClearedOnceIff` says when it
  cannot.
- A stored run can be left with nobody to end it. There are exactly five ways
  (`DispatchJournal.StoredRunsAreLookedAfterIff`):
  - a first persist takes effect and still raises (`ForgottenRunIsNeverSent`: submitting
    the run again answers with its id);
  - the capabilities of a prepared run whose start failed cannot be revoked
    (`UnrevokedRunIsStuck`: loaded, its capability live, without a retry entry);
  - the cleanup request of a run past prepared whose start failed cannot be persisted
    (`UnpersistedCleanupWaits`: waiting for a cleanup that is not retried until somebody
    stops the run or the scheduler exits);
  - recovery cannot read the run and passes it over (`UnreadRunIsPassedOver`);
  - after a recovery, a retry tick cannot read the run and takes it for one that waits for
    nothing (`UnreadRunIsNotRetried`).

  A restart on a working disk ends them all (`DispatchJournal.CrashedRunsEnd`); for a
  loaded run a configured deadline, a stop by hand or a scheduler exit may come first. A
  run dropped in none of these ways ends by itself once its reads and writes succeed
  (`DispatchJournal.StoredRunsEnd`).
- Deployment counts drift after an untagged mark or clear: `Demand.UntaggedMarkMiscounts`,
  `Demand.CountsAreRightIff`. This too is a failure at the manager's interface: the
  scheduler always passes the instance id.
- A queue label is wrong after a task is put or restored while another queue still holds
  it: `TaskQueues.TaskPutTwiceIsMislabelled`, `TaskQueues.LabelsAreRightIff`.
- A queued item is repeated when it is restored while it is not out:
  `TaskQueues.ItemRestoredTwiceIsRepeated`, `TaskQueues.TasksAreConservedIff`. The
  scheduler restores an item once for each time it takes it.

## Model

| member | source | states |
|---|---|---|
| ActorStart.AdmissionErrorUnreachable | maze/core/scheduler/llm_instance.py:1265-1272 | in every interleaving of starts, cancels, shutdowns, timeouts and creation callbacks no thread raises "Stale actor cleanup admission invariant was violated", and whenever a kill is about to be queued the queue has room |
| ActorStart.SlotsAreConserved | maze/core/scheduler/llm_instance.py:157-215 | permits plus slots in use always equal the capacity; a claimed, unfinished kill holds a slot; a generation releases its slot at most once |
| ActorStart.ActorHasOneFate | maze/core/scheduler/llm_instance.py:1216-1226 | an actor is registered at most once or claimed for the late kill at most once, never both; a start cancelled before delivery is never delivered |
| ActorStart.QuiescenceLosesNothing | maze/core/scheduler/llm_instance.py:1228-1294 | when no thread has a turn left, every created actor was registered once or killed after one claim, nothing is pending, the kill queue is empty and every permit is back |
| ActorStartProgress.EveryStartEnds | maze/core/scheduler/llm_instance.py:1216-1294 | from any point of any run, when Ray answers and without a deadline passing, at most 26 turns for each start lead to a state where no thread has a turn left, every created actor was registered or killed once, nothing is pending and every permit is back |
| ActorStartProgress.NoTurnLeftIsQuiescent | maze/core/scheduler/llm_instance.py:2427-2605 | no deadlock: when every turn that Ray's answers allow would change nothing, everybody is finished |
| ActorStartProgress.TurnsAreBounded | maze/core/scheduler/llm_instance.py:1228-1294 | however starts, cancellations and shutdowns interleave, all threads together take at most 26 turns for each start: nobody spins |
| ActorStartDelivery.UndisturbedStartIsDelivered | maze/core/scheduler/llm_instance.py:2545-2605 | in every run: a current, admitted start in time that nobody cancels, shuts down or forgets, whose creation succeeds and whose deadline does not pass, stays current whatever else interleaves, and when its threads are done its actor is the registered one, registered once and never claimed for a kill |
| ActorStartDelivery.BeginIs | maze/core/scheduler/llm_instance.py:2427-2443 | a start begins, on its way to delivery and with one slot, exactly while launches are accepted, the id is neither cancelled, registered nor pending, and a slot is free; otherwise nothing changes |
| ActorStartDelivery.StartEndsRegistered | maze/core/scheduler/llm_instance.py:2545-2605 | from any point of any run a start that may begin can be carried, with Ray answering and no deadline passing, to the state in which its actor is registered once and nothing claimed it |
| ActorStartDelivery.CancelledStartIsNeverDelivered | maze/core/scheduler/llm_instance.py:1145-1198 | a start cancelled or caught by a shutdown before its delivery is never delivered, whatever follows |
| ActorStart.NoLostWakeUp | maze/core/scheduler/llm_instance.py:1274-1281 | a starter waiting although its start was overtaken or its creation is being reported goes on without its timeout |
| ActorStart.RoomForTheKill | maze/core/scheduler/llm_instance.py:45-50 | a claimed kill that is not queued implies that the kill queue, which is as long as there are slots, is not full |
| ActorStart.RunKeeps | maze/core/scheduler/llm_instance.py:2386-2605 | the slot, generation and queue invariants together survive any interleaving |
| ActorStart.InvalidateOneMore | maze/core/scheduler/llm_instance.py:1145-1152 | invalidating pending starts one after another, in any order, is invalidating them all at once |
| ActorStart.ActorStartManager.BeginStart | maze/core/scheduler/llm_instance.py:2427-2443 | a generation is published, with a slot, exactly when launches are accepted, the id is neither cancelled, registered nor pending, and a permit is free |
| ActorStart.ActorStartManager.InvalidatePendingStart | maze/core/scheduler/llm_instance.py:1154-1187 | pops the pending generation, cancels and wakes it, and gives its slot back only if its creation can no longer run |
| ActorStart.ActorStartManager.RequestStartCancellation | maze/core/scheduler/llm_instance.py:1189-1198 | the id is refused from now on and no start of it is pending |
| ActorStart.ActorStartManager.DecideDelivery | maze/core/scheduler/llm_instance.py:2556-2603 | takes the deciding turn of the machine: the actor is registered exactly when its start is current, launches are accepted, the id is neither cancelled nor registered, and the deadline has not passed; otherwise it must be disowned |
| ActorStart.ActorStartManager.Commit | maze/core/scheduler/llm_instance.py:2556-2603 | what the locked region decided: the generation, its pending entry and the registration change together |
| ActorStart.ActorStartManager.ClaimLateKill | maze/core/scheduler/llm_instance.py:1222-1226 | the claim succeeds exactly when the actor was neither delivered nor claimed |
| ActorStart.ActorStartManager.SubmitLateKill | maze/core/scheduler/llm_instance.py:1265-1272 | the kill is appended to the queue; the branch that raises the admission error is dead |
| ActorStart.ActorStartManager.InvalidateAllPending | maze/core/scheduler/llm_instance.py:1147-1152 | the loop leaves what invalidating every pending start at once would leave |
| ActorStart.ActorStartManager.BeginShutdown | maze/core/scheduler/llm_instance.py:1145-1152 | afterwards nothing is pending and no launch is accepted |
| DaemonPool.WorkersAreConserved | maze/core/scheduler/llm_instance.py:63-154 | after any stuck calls, abandons and completions exactly max_workers workers will serve again, one retiring worker exists per abandoned call, and live threads never exceed max_workers plus the abandoned calls |
| DaemonPool.EachAbandonedCallRetiresOneWorker | maze/core/scheduler/llm_instance.py:107-122 | an abandoned call is held by one retiring worker or has retired exactly one; no other call retires any |
| DaemonPool.RetiringNeverBlocks | maze/core/scheduler/llm_instance.py:152-154 | a retiring worker always finds room in the retired queue |
| DaemonPool.TasksAreServedOnce | maze/core/scheduler/llm_instance.py:134-151 | no call is held by two workers or both held and queued |
| DaemonPool.StuckPoolServesTheQueue | maze/core/scheduler/llm_instance.py:107-122 | what abandoning is for: in any state, abandoning one stuck call while there is room lets the new worker alone serve the whole queue, though no stuck call returns; every queued call not cancelled gets its outcome |
| DaemonPool.QueueIsServed | maze/core/scheduler/llm_instance.py:134-151 | the turns of one idle worker, at most four for each call, empty the queue; exactly the queued calls not cancelled were run |
| DaemonPool.SubmitIs | maze/core/scheduler/llm_instance.py:99-105 | refused exactly when a bounded queue is full, else last, pending and held by nobody |
| DaemonPool.CancelIs | maze/core/scheduler/llm_instance.py:139-140 | a cancellation changes exactly a call that does not run yet |
| DaemonPool.AbandonIs | maze/core/scheduler/llm_instance.py:107-122 | exactly for a running call not abandoned before, with room and a thread that starts: its worker is to retire and one idle worker is added; otherwise nothing changes |
| DaemonPool.TakeIs | maze/core/scheduler/llm_instance.py:135-136 | an idle worker takes the call that waited longest |
| DaemonPool.TurnIs | maze/core/scheduler/llm_instance.py:134-154 | a taken call runs unless cancelled, a running one gets its outcome, abandoned or not, and its worker then goes idle or, exactly if the call was abandoned, retires |
| DaemonPool.ReaperIs | maze/core/scheduler/llm_instance.py:124-132 | the reaper takes the worker that retired first and, once its thread is over, frees exactly the place of its call |
| DaemonPool.BoundedDaemonExecutor.constructor | maze/core/scheduler/llm_instance.py:66-88 | starts max_workers idle workers and an empty pool |
| DaemonPool.BoundedDaemonExecutor.Submit | maze/core/scheduler/llm_instance.py:99-105 | the task is queued last, or refused exactly when the queue is full |
| DaemonPool.BoundedDaemonExecutor.Abandon | maze/core/scheduler/llm_instance.py:107-122 | answers true exactly when the call runs and either was abandoned before or there is room and the thread starts; a new abandonment adds exactly one idle worker; a refusal or a thread that cannot start changes nothing |
| DaemonPool.BoundedDaemonExecutor.TakeTask | maze/core/scheduler/llm_instance.py:135-136 | takes the head of the queue, nothing exactly when it is empty |
| DaemonPool.BoundedDaemonExecutor.BeginCall | maze/core/scheduler/llm_instance.py:139-140 | a call that was cancelled in the queue is never run |
| DaemonPool.BoundedDaemonExecutor.FinishCall | maze/core/scheduler/llm_instance.py:141-146 | the outcome is set, abandoned or not |
| DaemonPool.BoundedDaemonExecutor.CheckRetirement | maze/core/scheduler/llm_instance.py:147-151 | the worker retires exactly when its call was abandoned while it ran |
| DaemonPool.BoundedDaemonExecutor.Retire | maze/core/scheduler/llm_instance.py:152-154 | the worker is queued for the reaper, which never blocks it |
| DaemonPool.BoundedDaemonExecutor.ReapOne | maze/core/scheduler/llm_instance.py:124-132 | the oldest retired worker is joined and its call leaves the abandoned set |
| InstanceFleet.IndexAgrees | maze/core/scheduler/llm_instance.py:2676-2691 | in every reachable state an instance is indexed under a model and backend exactly when it is ready with that key, and every workflow affinity names a ready instance of its model |
| InstanceFleet.StopsAreExclusive | maze/core/scheduler/llm_instance.py:2770-2814 | an instance is stopping exactly when it is claimed or owned, never both, and never by two callers |
| InstanceFleet.StatesMoveAlongEdges | maze/core/scheduler/llm_instance.py:2318-2384 | every step moves every instance along a coded edge of the state machine or not at all |
| InstanceFleet.OnlyConfirmedAreForgotten | maze/core/scheduler/llm_instance.py:2693-2768 | an actor is forgotten only after one control transaction confirmed its termination and its process cleanup, and a stopped instance already has that confirmation |
| InstanceFleet.LoadIsBounded | maze/core/scheduler/llm_instance.py:2014-2064 | in-flight requests never exceed the configured maximum, in any run |
| InstanceFleet.LoadGrowsOnlyWithRoom | maze/core/scheduler/llm_instance.py:2014-2064 | a step adds at most one request, only to a ready instance below its limit; a limit cut to one stays one |
| InstanceFleet.CutAdmissionDrains | maze/core/scheduler/llm_instance.py:2159-2171 | after admission was cut, the load of an instance only drains to one as long as it exists |
| InstanceFleet.ClaimedOrDrainedServesNothing | maze/core/scheduler/llm_instance.py:2318-2363 | from a scale-in claim or a drain the in-flight count stays 0 until the instance is ready again or gone |
| InstanceFleet.StepConservesIff | maze/core/scheduler/llm_instance.py:2112-2124 | from a state where counts equal outstanding routes, a step keeps that exactly when it neither makes an id ready that still has routes outstanding nor releases a route that is not out while its instance counts requests |
| InstanceFleet.RequestsAreConservedIff | maze/core/scheduler/llm_instance.py:1985-2066 | over a whole run in-flight counts equal the issued, unreleased routes throughout exactly when no step does either |
| InstanceFleet.FreshIdsAreConserved | maze/core/scheduler/llm_instance.py:2112-2124 | in particular whenever no id is registered again before its routes are released and every route is released only while it is out |
| InstanceFleet.ReusedIdLosesTheCount | maze/core/scheduler/llm_instance.py:2112-2124 | a run in which a count is zero while a request is still served |
| InstanceFleet.RouteReleasedTwiceLosesTheCount | maze/core/scheduler/llm_instance.py:2112-2124 | a run in which one route is released twice and the count is zero while another request is still served |
| InstanceFleet.RoutesToTheLeastLoaded | maze/core/scheduler/llm_instance.py:1985-2056 | a route goes to the workflow's own instance while that serves, else to a ready, matching instance below its limit with the fewest requests in flight, among those the least recently used, among those the first id; it fails exactly when no instance serves |
| InstanceFleet.RouteAndDemand | maze/core/scheduler/llm_instance.py:2006-2067 | a failed route leaves its request pending, a successful one removes it, no other request is touched |
| InstanceFleet.RunKeeps | maze/core/scheduler/llm_instance.py:1431-2915 | index, load, custody, confirmation and demand invariants survive any interleaving |
| FleetOperations.RegisterIs | maze/core/scheduler/llm_instance.py:1431-1476 | an unknown id is launching under an actor nobody had before; a known one changes nothing; no other instance is touched |
| FleetOperations.ReadyIs | maze/core/scheduler/llm_instance.py:1346-1429 | exactly a launching instance with that actor is ready and indexed under its own model only, with no request in flight, the limit its model is cut to or the maximum, and without deployment mark |
| FleetOperations.UnhealthyIs | maze/core/scheduler/llm_instance.py:1816-1828 | exactly a ready instance with that actor becomes unhealthy, out of index and affinities |
| FleetOperations.CancelIs | maze/core/scheduler/llm_instance.py:1199-1210 | exactly a launching or ready instance becomes a claimed stop |
| FleetOperations.ClaimIs | maze/core/scheduler/llm_instance.py:2318-2363 | a claim is granted exactly for a ready instance with nothing in flight, idle long enough since its last use, else since it became ready, since when the caller believes, and without pending requests when asked; then it is stopping and in no index and no affinity |
| FleetOperations.CancelClaimIs | maze/core/scheduler/llm_instance.py:2365-2384 | exactly an untaken claim is undone, and the instance is ready and indexed under its model again |
| FleetOperations.StopBeginIs | maze/core/scheduler/llm_instance.py:2782-2811 | the caller becomes the owner of the stop of an instance with the expected actor, unless it is stopped or already being stopped without a claim; it is out of routing then |
| FleetOperations.StopEndIs | maze/core/scheduler/llm_instance.py:2852-2881 | stopped exactly when both were confirmed in time, else waiting for cleanup; the confirmation stays |
| FleetOperations.FinalizeIs | maze/core/scheduler/llm_instance.py:2889-2915 | exactly a stopped instance with the expected actor leaves every dictionary |
| FleetOperations.RecoveryIs | maze/core/scheduler/llm_instance.py:2159-2175 | a ready instance with requests in flight, and its model, are cut to one; an idle one is drained; no other changes |
| FleetOperations.RouteIs | maze/core/scheduler/llm_instance.py:2045-2082 | a route counts one request more at the selected instance only, used now, and makes it the workflow's own for that model; without a selection no count changes |
| FleetOperations.ReleaseIs | maze/core/scheduler/llm_instance.py:2112-2124 | a release counts one request fewer at the named instance only, never below zero, used now |
| FleetOperations.DecideIs | maze/core/scheduler/llm_instance.py:1540-1548 | a decision tells the checkpoint that one instance serves |
| FleetOperations.ClearWorkflowIs | maze/core/scheduler/llm_instance.py:2084-2101 | exactly the workflow's affinities and pending requests go |
| LlmInstanceManager.LlmInstanceManager.constructor | maze/core/scheduler/llm_instance.py:1110-1143 | an empty manager whose maximum is at least one |
| LlmInstanceManager.LlmInstanceManager.RegisterStartingInstance | maze/core/scheduler/llm_instance.py:1431-1476 | a new instance is launching under its own actor; an id already registered is an error |
| LlmInstanceManager.LlmInstanceManager.MarkReady | maze/core/scheduler/llm_instance.py:1346-1429 | exactly a launching instance with that actor becomes ready, indexed, and loses its deployment mark; an admission cut of its model applies |
| LlmInstanceManager.LlmInstanceManager.MarkUnhealthy | maze/core/scheduler/llm_instance.py:1816-1828 | a ready instance of that actor leaves routing and is unhealthy; otherwise nothing changes |
| LlmInstanceManager.LlmInstanceManager.RemoveRoutingRegistration | maze/core/scheduler/llm_instance.py:2676-2691 | the instance leaves the index, and every affinity to it goes and no other |
| LlmInstanceManager.LlmInstanceManager.RequestStartCancellation | maze/core/scheduler/llm_instance.py:1199-1210 | a launching or ready instance becomes a claimed stop; the earlier state is the answer |
| LlmInstanceManager.LlmInstanceManager.ClaimLruScaleIn | maze/core/scheduler/llm_instance.py:2318-2363 | claims exactly a ready, idle instance that was idle since the expected time, long enough, and without pending requests when asked |
| LlmInstanceManager.LlmInstanceManager.CancelLruScaleInClaim | maze/core/scheduler/llm_instance.py:2365-2384 | an untaken claim is dropped and the instance is ready and indexed again |
| LlmInstanceManager.LlmInstanceManager.FinalizeStoppedInstance | maze/core/scheduler/llm_instance.py:2889-2915 | exactly a stopped instance with the expected actor is forgotten everywhere |
| LlmInstanceManager.LlmInstanceManager.BeginStop | maze/core/scheduler/llm_instance.py:2782-2811 | the caller becomes owner exactly when the instance exists, is not stopped, and is not already being stopped without a claim |
| LlmInstanceManager.LlmInstanceManager.TakeScaleInClaim | maze/core/scheduler/llm_instance.py:2802-2804 | a claim passes to exactly one caller |
| LlmInstanceManager.LlmInstanceManager.EndStop | maze/core/scheduler/llm_instance.py:2852-2881 | the owner leaves the instance stopped exactly when termination and cleanup were both confirmed in time, else pending cleanup |
| LlmInstanceManager.LlmInstanceManager.LeastLoaded | maze/core/scheduler/llm_instance.py:2045-2052 | the loop finds, of the available instances, the one with the fewest requests in flight, among those the least recently used, among those the first id |
| LlmInstanceManager.LlmInstanceManager.SelectInstance | maze/core/scheduler/llm_instance.py:1985-2052 | computes the routing decision, affinity first |
| LlmInstanceManager.LlmInstanceManager.RouteModelRequest | maze/core/scheduler/llm_instance.py:1956-2082 | takes the routing step: load, last use, affinity, demand and the issued route all change together, and only to a candidate with room |
| LlmInstanceManager.LlmInstanceManager.ReleaseModelRoute | maze/core/scheduler/llm_instance.py:2112-2124 | one request fewer, never below zero, whether or not the route is still out; a forgotten instance and no route at all are left alone |
| LlmInstanceManager.LlmInstanceManager.PrepareMemoryRecovery | maze/core/scheduler/llm_instance.py:2159-2175 | raises exactly for an instance that is not ready; admission of instance and model is cut to one while requests are in flight, else the instance is drained |
| LlmInstanceManager.LlmInstanceManager.RecordModelDemand | maze/core/scheduler/llm_instance.py:1846-1868 | the request is pending with its anchor, and the count of pending requests is the answer |
| LlmInstanceManager.LlmInstanceManager.SatisfyModelDemand | maze/core/scheduler/llm_instance.py:2065-2067 | the request and its anchor are gone and the cached anchor follows |
| LlmInstanceManager.LlmInstanceManager.RefreshPendingAnchor | maze/core/scheduler/llm_instance.py:2177-2184 | the cached anchor is the first of the largest, or absent without anchors |
| LlmInstanceManager.LlmInstanceManager.MarkModelDeploying | maze/core/scheduler/llm_instance.py:1870-1884 | counts once per tagged instance; a second mark of an instance is refused |
| LlmInstanceManager.LlmInstanceManager.ClearModelDeploying | maze/core/scheduler/llm_instance.py:1886-1904 | takes back one mark, of the instance's own model when tagged |
| LlmInstanceManager.LlmInstanceManager.ClearWorkflowState | maze/core/scheduler/llm_instance.py:2084-2104 | every request and affinity of the workflow goes, in every model, and nothing else |
| Demand.DemandAgreesWithTheRun | maze/core/scheduler/llm_instance.py:1846-1868 | after any operations the pending requests of a model are those recorded and neither satisfied nor cleared, each with one anchor, and the cached anchor is a largest one or absent |
| Demand.PendingIsOpen | maze/core/scheduler/llm_instance.py:1846-1868 | the pending requests of a model are those recorded and neither satisfied nor cleared since |
| Demand.Assign | maze/core/scheduler/llm_instance.py:1862 | a dictionary assignment keeps keys unique and replaces exactly one value |
| Demand.Largest | maze/core/scheduler/llm_instance.py:2180-2182 | one of the anchors, and no anchor needs more memory |
| Demand.LargestIsFirst | maze/core/scheduler/llm_instance.py:2177-2184 | of the anchors that need most memory, the one recorded first |
| Demand.RecordedAnchorStands | maze/core/scheduler/llm_instance.py:1846-1868 | what was recorded last for a request is its anchor; no other request's anchor is changed and no other model's list |
| Demand.MarkIs | maze/core/scheduler/llm_instance.py:1870-1884 | a mark counts one deployment more of its model alone, and nothing for an instance already tagged |
| Demand.ClearIs | maze/core/scheduler/llm_instance.py:1886-1904 | a clear takes one deployment back from the tagged instance's own model, or the named one, never below zero, and the tag with it |
| Demand.ClearKeeps | maze/core/scheduler/llm_instance.py:2088-2101 | clearing a workflow removes exactly its requests and keeps the three views of demand in agreement |
| Demand.ClearOneMore | maze/core/scheduler/llm_instance.py:2088-2101 | the clearing loop, one model at a time, is clearing all models at once |
| Demand.CountsStayRightIff | maze/core/scheduler/llm_instance.py:1870-1904 | a step keeps every deploying count equal to the number of tagged instances exactly when it is not an effective untagged mark or clear |
| Demand.CountsAreRightIff | maze/core/scheduler/llm_instance.py:1870-1904 | the same over whole runs |
| Demand.UntaggedMarkMiscounts | maze/core/scheduler/llm_instance.py:1870-1884 | a mark without an instance counts a deployment that no instance is tagged for |
| TaskAttempts.AcceptedEventsAreOrdered | maze/core/path/path.py:898-979 | for any deliveries, repeated and reordered, accepted attempt numbers of a task never decrease, one number has one identity, no event is accepted twice, nothing follows a terminal one |
| TaskAttempts.AttemptsMatchGrammar | maze/core/path/path.py:934-979 | the accepted events of an attempt are optional start, then optionally finish, exception, or retry and at most one capacity exception |
| TaskAttempts.RejectionIsAlone | maze/core/path/path.py:906-923 | a rejection before dispatch is the only event its task ever has |
| TaskAttempts.OneManifestPerTask | maze/core/path/path.py:981-1007 | at most one file manifest per task is published and it carries the identity of the accepted finish |
| TaskAttempts.AcceptedFinishMayPublish | maze/core/path/path.py:989-1000 | the check before publishing never refuses the finish that was just accepted |
| TaskAttempts.AcceptedIffExpected | maze/core/path/path.py:898-1007 | in every reachable world a message whose handler commits is accepted if and only if the log expects it: a rejection only as the task's first event; anything else with a valid identity, and a fitting manifest for a finish, as a first event, as a legal next event of the same attempt, or with a higher attempt number; then exactly that event is appended, and a manifest is published exactly for such a finish with a valid output |
| TaskAttempts.InvalidIff | maze/core/path/path.py:981-1000 | the manifest error is raised exactly for a finish of a task that is not over whose manifest is not for its attempt |
| TaskAttempts.CommittedWriteStays | maze/core/path/path.py:863-866 | the last write of a handler that commits stays in the run |
| TaskAttempts.RollbackLeavesNoTrace | maze/core/path/path.py:868-896 | a refused, invalid or aborted message leaves attempts, rejections and run state as they were |
| TaskAttempts.OnlyCommittedMessagesMatter | maze/core/path/path.py:828-896 | processing only the committed messages gives the same world and commits every one of them again |
| TaskAttempts.AttemptMonitor.BeginTransaction | maze/core/path/path.py:828-861 | the snapshot holds the task's entry, its rejection and its run's state |
| TaskAttempts.AttemptMonitor.AcceptTaskAttemptEvent | maze/core/path/path.py:898-979 | accepts exactly what the task's log expects; the verdict and the one entry it writes |
| TaskAttempts.AttemptMonitor.RollbackTransaction | maze/core/path/path.py:868-896 | restores exactly the entry, the rejection and the run of the transaction |
| TaskAttempts.AttemptMonitor.ProcessMessage | maze/core/path/path.py:4216-4260 | a message is committed exactly when it was accepted and its handler got to the commit; otherwise the state is the one before |
| DispatchJournal.SentMeansStored | maze/core/path/path.py:1480-1488 | if any root was ever sent, the stored status is past prepared, at every crash point |
| DispatchJournal.TerminalIsJustified | maze/core/path/path.py:1653-1706 | a run is given up only if nothing was sent, its own cleanup request was confirmed, runtime cleanup was verified, or shutdown was requested; and then no capability of it is left |
| DispatchJournal.OneSubmissionSends | maze/core/path/path.py:1338-1359 | the roots of one run id are sent by at most one submission |
| DispatchJournal.RootsAreSentOnceInOrder | maze/core/path/path.py:1480-1488 | whatever fails and wherever the process dies, the roots sent are the first ones, each once and in order, and a stored active status means all of them |
| DispatchJournal.RecoveryResolves | maze/core/path/path.py:1911-1949 | after a crash anywhere, recovery on a working, readable disk goes through, whatever becomes of its messages, and leaves the stored run active, given up, or waiting for a cleanup request that the retry loop holds |
| DispatchJournal.RetriesEnd | maze/core/path/path.py:1881-1909 | the retry loop stops, whatever becomes of its messages: while the run can be read and its failure recorded, after the remaining attempts and one more due tick it is given up and its entry dropped, because its request was confirmed or scheduler shutdown was requested |
| DispatchJournal.CrashedRunsEnd | maze/core/path/path.py:1881-1949 | a crash anywhere, then recovery, then the retry loop alone, whatever becomes of its messages and while reads and writes succeed: the run ends active or given up |
| DispatchJournal.StoredRunsEnd | maze/core/path/path.py:1881-1949 | a stored run that no step dropped ends active or given up by recovery, if that is to come, and due ticks alone, while reads and writes succeed |
| DispatchJournal.StoredRunsAreLookedAfterIff | maze/core/path/path.py:1424-1494 | over whole runs with crashes, failing reads and recoveries and lost requests, a stored run is always done, under way, retried or to be recovered exactly when no first persist fails after it took effect, no failing start of a prepared run fails to revoke its capabilities, no failing start of any other fails to persist its cleanup request, no tick fails to read a waiting run that is not loaded, and no recovery fails to read one that is not done |
| DispatchJournal.StoredRunsAreLoadedIff | maze/core/path/path.py:1421-1430 | a stored run stays in memory throughout exactly when the process does not crash and no first persist fails after it took effect |
| DispatchJournal.ForgottenRunIsNeverSent | maze/core/path/path.py:1338-1348 | a first persist that took effect and raised leaves a stored, unloaded, unsent run that no submission, tick, response or cleanup request changes |
| DispatchJournal.UnrevokedRunIsStuck | maze/core/path/path.py:1684-1693 | a failed preparation whose revocation fails too leaves a stored, loaded, prepared run with its capability live and no retry entry, which nothing but a restart changes |
| DispatchJournal.UnpersistedCleanupWaits | maze/core/path/path.py:1785-1797 | a failed start whose cleanup request cannot be persisted waits for a cleanup without a retry entry, until a cleanup is requested again or the scheduler exits |
| DispatchJournal.UnreadRunIsPassedOver | maze/core/workflow/static_run.py:934-943 | a crash while dispatching and a recovery that cannot read the record leave a run that nothing but a restart touches |
| DispatchJournal.UnreadRunIsNotRetried | maze/core/path/path.py:1864-1888 | a recovery whose cleanup request is lost and a tick that cannot read the record leave a waiting run without a retry entry, which nothing but a restart touches |
| DispatchJournal.RunKeeps | maze/core/path/path.py:1361-1494 | the start's place, both records and the evidence stay consistent over any steps and crashes |
| DispatchJournal.ConfirmationEnds | maze/core/path/path.py:1807-1840 | the confirmation of the request a run waits for ends it, revoked; any other confirmation changes no record |
| DispatchJournal.RuntimeCleanupEnds | maze/core/path/path.py:2588-2624 | a verified cleanup after a scheduler exit ends a waiting run and drops its retry entry |
| DispatchJournal.TickResends | maze/core/path/path.py:1881-1909 | before the last attempt a due tick sends the awaited request again and counts it; one that is not due changes nothing |
| DispatchJournal.RecoveryIs | maze/core/path/path.py:1911-1949 | an active or ended record is left, a prepared one is given up, any other waits for a stored request that was sent and is retried; a request stored before is used again |
| DispatchJournal.CleanupRequestIs | maze/core/path/path.py:1785-1805 | a dispatching run gets a new stored request, a waiting one keeps its own; it is sent and retried; any other run is left alone |
| DispatchJournal.Dispatcher.PersistStaticRun | maze/core/path/path.py:1424-1425 | memory changes first, then disk unless the write failed before taking effect |
| DispatchJournal.Dispatcher.FinishWorkflowDispatchFailure | maze/core/path/path.py:1653-1682 | read unless loaded, revoke, mark, persist, once; raises when the reading, the revocation or the record fails, and a failed reading or revocation changes no record |
| DispatchJournal.Dispatcher.RevokeDispatchArtifacts | maze/core/path/path.py:1539-1554 | revokes exactly an owned dispatch that is not revoked yet, and may raise only then |
| DispatchJournal.Dispatcher.ConfirmWorkflowCleanup | maze/core/path/path.py:1807-1840 | only a confirmation of the pending request gives the run up; the retry entry goes when the request is not pending or the failure was recorded, and stays when the run cannot be read or recording the failure raises |
| DispatchJournal.Dispatcher.CleanupIsPending | maze/core/path/path.py:1864-1879 | the run waits for exactly this request; one that is neither loaded nor readable waits for nothing |
| DispatchJournal.Dispatcher.SendWorkflowCleanupRequest | maze/core/path/path.py:1743-1783 | counts the attempt, then sends; a send that raises is caught and nothing was handed over, or nothing heard; an immediate confirmation is acted on, and an error doing so is raised |
| DispatchJournal.Dispatcher.RequestWorkflowCleanup | maze/core/path/path.py:1785-1805 | a new request id is persisted before it is sent; a failed persist sends nothing; a pending request is sent again |
| DispatchJournal.Dispatcher.RetryPendingWorkflowCleanup | maze/core/path/path.py:1881-1909 | drops what is no longer pending or cannot be read, resends when due, gives up after the last attempt |
| DispatchJournal.Dispatcher.HandleSchedulerExit | maze/core/path/path.py:2588-2612 | a loaded run that waits for its cleanup gets a retry entry without a request, one still dispatching asks for cleanup |
| DispatchJournal.Dispatcher.RecoverIncompleteWorkflowDispatch | maze/core/path/path.py:1911-1949 | prepared runs are given up, dispatching and pending ones ask for cleanup, others and unreadable ones are passed over; the process dies and recovery stays to come exactly when one of these raises |
| DispatchJournal.Dispatcher.RecoverStored | maze/core/path/path.py:1925-1949 | what recovery does with a record it has read |
| DispatchJournal.Dispatcher.PersistPrepared | maze/core/path/path.py:1424-1430 | a failure takes the run out of memory again |
| DispatchJournal.Dispatcher.PersistDispatching | maze/core/path/path.py:1480-1482 | no root is sent before the dispatching status was persisted |
| DispatchJournal.Dispatcher.SendRoots | maze/core/path/path.py:1484-1485 | the positions sent are the roots from the first on, each once and in order, as many as reach the scheduler before the first failure; success means all |
| DispatchJournal.Dispatcher.SendAndActivate | maze/core/path/path.py:1480-1494 | sends every root, then stores active; fails exactly when a send or one of the persists does |
| DispatchJournal.Dispatcher.FailWorkflowDispatch | maze/core/path/path.py:1684-1706 | gives a prepared run up, asks for cleanup of any other |
| DispatchJournal.Dispatcher.RunWorkflow | maze/core/path/path.py:1338-1494 | the start succeeds if and only if the run is not stored yet and every persist, preparation and send of the script succeeds, and then every root was sent once in order, the run is stored active and served; a stored run is left as it is; each failing step leaves what the source leaves: nothing loaded after a failed first persist, a prepared run given up and revoked, a run past prepared waiting for a stored, sent and retried cleanup request; and all of it is a run of the machine |
| FinishSaga.SagaIsOrdered | maze/core/path/path.py:3556-3665 | for any failures and any number of resumes, what a continuation has done is a prefix of notify, advance, dispatch each ready task, record, announce, clear, complete; completed means all of it |
| FinishSaga.SuccessIsAnnounced | maze/core/path/path.py:3628-3665 | a continuation open when its run succeeded completes only after recording, announcing and clearing, each once |
| FinishSaga.ReadyTasksAreDispatchedOnce | maze/core/path/path.py:3610-3626 | no task is dispatched twice in the whole run, by whatever continuation |
| FinishSaga.ClearedOnceIff | maze/core/path/path.py:3628-3665 | the scheduler is told to clear a run at most once whatever follows its success, exactly when at most one continuation was open at that moment |
| FinishSaga.RunClearedTwice | maze/core/path/path.py:3628-3665 | two accepted finishes, success, then both calls: the scheduler is told twice to clear the run |
| FinishSaga.CallCompletes | maze/core/path/path.py:3556-3665 | an undisturbed call, of a run that succeeded or not and for whatever `finish_task` returns as ready, completes its continuation by exactly the steps left to it, all of them its own, and touches no other |
| FinishSaga.CallIsEnough | maze/core/path/path.py:3556-3665 | a call that may do as much as is left completes its continuation |
| FinishSaga.FinishIsCarriedOut | maze/core/path/path.py:3556-3665 | after any run: a newly accepted finish of a run neither over nor being cleaned up, undisturbed, notifies, advances, dispatches the ready tasks in order and, if the run succeeded meanwhile, records, announces and clears; then it is completed, and it did nothing else |
| FinishSaga.ListenersHear | maze/core/path/path.py:3571-3655 | in any run a notification or announcement is delivered exactly when the run has a listener then |
| FinishSaga.StaticRunFinisher.DispatchReady | maze/core/path/path.py:3610-3626 | the loop dispatches the ready tasks not yet marked sent, in order, up to the failure |
| FinishSaga.StaticRunFinisher.Conclude | maze/core/path/path.py:3628-3665 | what follows the dispatches: the announcements of a run that succeeded, then completion |
| FinishSaga.StaticRunFinisher.AnnounceSuccess | maze/core/path/path.py:3628-3662 | record, announce, clear, each skipped when already done |
| FinishSaga.StaticRunFinisher.ContinueStaticFinish | maze/core/path/path.py:3556-3665 | a call takes the saga's next steps in order until something raises or it is completed, and completes when it may do what is left; a run whose dispatch needs cleanup is left alone |
| RunInputs.EncodeFlag | maze/client/maze/workflow_authoring.py:44-62 | the flag is true exactly when the value holds a run input |
| RunInputs.EncodeThenResolve | maze/core/path/path.py:297-323 | for every value without literal marker keys, resolving its encoding substitutes the bound values, turns tuples into lists and returns exactly the inputs in it, or reports the first that cannot be bound |
| RunInputs.NothingBadIff | maze/core/path/path.py:284-305 | resolving succeeds exactly when every input has a name and a bound value |
| RunInputs.RoundTripIff | maze/core/path/path.py:284-323 | for every value: resolving its encoding binds, and to the same, exactly as substitution does under all bindings if and only if the value has no literal marker key or holds an input without a name, which never binds; without marker keys the errors are the same too |
| RunInputs.EmptyNameFails | maze/core/path/path.py:284-323 | a value with an input without a name never resolves, whatever else is in it |
| RunInputs.BindSucceedsIff | maze/core/path/path.py:326-386 | a bind succeeds exactly when no constant is overridden, no name is unknown, nothing required is missing, every from_run parameter resolves to a reference, and the references are exactly the contract |
| RunInputs.BindErrorIs | maze/core/path/path.py:326-386 | which error is reported: overridden constants first, then unknown names, then missing ones, then the first bad reference, then the names on which references and contract differ; each set of names exactly |
| RunInputs.BoundLeavesNoReference | maze/core/path/path.py:366-386 | a successful bind has every required input, leaves no from_run parameter, touches no other one, refers to exactly the contract, and resolves under the provided values, with the defaults for the runtime inputs not provided |
| RunInputs.AuthoredWorkflowIsBound | maze/core/path/path.py:326-386 | end to end: what the author wrote, with the inputs' provided or default values in their places, is what the tasks get |
| RunInputs.BindWorkflowRunInputs | maze/core/path/path.py:326-386 | the loop over the parameters, in place, computes that bind; the first bad parameter decides the error |
| ArtifactStore.PrivateBytesNeedAGrant | maze/core/files/artifact_store.py:280-301 | bytes written under a private row are readable exactly by a currently granted, existing capability, in every reachable state |
| ArtifactStore.PrivateBytesStayPrivate | maze/core/files/artifact_store.py:307-407 | from then on no interleaving or crash makes them readable without a capability while they exist |
| ArtifactStore.PublicBytesSurvive | maze/core/files/artifact_store.py:214-257 | a blob written while its digest had no row is never unlinked |
| ArtifactStore.PublicBytesReturnToPublic | maze/core/files/artifact_store.py:170-212 | such a blob is public exactly while no grant protects it: again once its last grant is revoked |
| ArtifactStore.StepKeepsOrigins | maze/core/files/artifact_store.py:214-257 | a step unlinks a blob only if it is private and an orphan, and never replaces one |
| ArtifactStore.RunKeeps | maze/core/files/artifact_store.py:307-348 | over every run an unmanaged row has a blob and at least one grant, and origins match the rows |
| ArtifactStore.ReapingTerminates | maze/core/files/artifact_store.py:214-257 | as many turns as there are orphans end the reaping loop, and leave none |
| ArtifactStore.RevocationSparesOtherOwners | maze/core/files/artifact_store.py:170-212 | the revocation transaction takes exactly the one owner's capabilities and the grants to them; everybody else's stay, and it unlinks nothing |
| ArtifactStore.OthersStillRead | maze/core/files/artifact_store.py:170-257 | in every reachable state: after a revocation and the reaping, bytes are there exactly if they were public or a capability of no concern to that owner has a grant, and each such capability reads them as before |
| ArtifactStore.ReadableIff | maze/core/files/artifact_store.py:280-301 | in every reachable state, bytes are readable exactly when public without any grant, or with an existing capability that has one |
| ArtifactStore.WritesIff | maze/core/files/artifact_store.py:350-408 | a private write takes place exactly with a grant of an existing capability, a public one exactly without a row or with a grant; the bytes are private exactly when they have a row |
| ArtifactStore.NothingIsReplaced | maze/core/files/artifact_store.py:350-408 | a write over existing bytes, or one that fails, changes nothing |
| ArtifactStore.ReservationIs | maze/core/files/artifact_store.py:307-348 | reserving gives exactly the known capability a grant, and a row that is managed exactly when the bytes were not there or are private; other rows and grants stay |
| ArtifactStore.NewCapabilityIs | maze/core/files/artifact_store.py:150-168 | a new capability has no grant, and its owner, if any, owns it; nothing else changes |
| ArtifactStore.RevocationIsComplete | maze/core/files/artifact_store.py:170-212 | uninterrupted, a revocation leaves the owner no capability, nothing private readable with an old one, no managed row without a grant, and removes exactly the managed bytes no other grant protects |
| ArtifactStore.LocalCASArtifactStore.CreateCapability | maze/core/files/artifact_store.py:150-168 | a new token is stored with its owner; an existing one is refused |
| ArtifactStore.LocalCASArtifactStore.MarkPrivate | maze/core/files/artifact_store.py:307-348 | the row and the grant exist exactly when the capability is known; the row is managed when the blob was not there first or already was |
| ArtifactStore.LocalCASArtifactStore.PutPrivateBlob | maze/core/files/artifact_store.py:350-376 | writes only under a private row and a grant still in force |
| ArtifactStore.LocalCASArtifactStore.PutPublicOrAuthorizedBlob | maze/core/files/artifact_store.py:378-408 | writes without a row, or with a grant for it; never over an existing blob |
| ArtifactStore.LocalCASArtifactStore.Put | maze/core/files/artifact_store.py:437-503 | a private put ends readable with its own capability and with none otherwise |
| ArtifactStore.LocalCASArtifactStore.MayRead | maze/core/files/artifact_store.py:280-301 | the permission the tables give |
| ArtifactStore.LocalCASArtifactStore.ReapRevokedManagedBlobs | maze/core/files/artifact_store.py:214-257 | the loop removes exactly the orphans, row and blob |
| ArtifactStore.LocalCASArtifactStore.RestorePublicRows | maze/core/files/artifact_store.py:196-209 | the loop deletes exactly the touched unmanaged rows that lost their last grant |
| ArtifactStore.LocalCASArtifactStore.RevokeOwnerCapabilities | maze/core/files/artifact_store.py:170-212 | exactly the owner's capabilities are counted and gone; other owners' capabilities and grants stay, and the bytes that go are those only this owner's grants protected |
| ResourceMemory.SummaryAgreesWithTheLog | maze/core/resource_history.py:165-213 | a profile is always the summary of the observations recorded for it since it was last pushed out, and exists exactly when there are any |
| ResourceMemory.WindowHoldsTheLastIds | maze/core/resource_history.py:167-213 | the stored ids are the last 8192 among the observations that counted, so a recording is ignored exactly when its id is one of them |
| ResourceMemory.SummaryIsTheMaximum | maze/core/resource_history.py:174-203 | while a profile is never pushed out, its peak and bound are the maxima over all observations that count in the whole log, repeated ids at later times and with other contents included |
| ResourceMemory.OrderDoesNotMatter | maze/core/resource_history.py:174-203 | two logs in which the same observations count, in any order and at any times, teach the same peak and bound |
| ResourceMemory.RepeatsTeachNothing | maze/core/resource_history.py:167-168 | when a repeated id repeats its observation at another time, what counts is every observation of the log, times apart |
| ResourceMemory.RecommendsTheMaximum | maze/core/resource_policy.py:162-214 | the recommended amount is the maximum over the declared amount, the model's declared estimates and loaded weights, the scaled success peaks, the bounds of the observations that count for the context and its base, and, after an out-of-memory failure, what was in use, else the peak, and the failed allocation with a margin, the declared amount and a quarter, and the declared amount and 256 MiB; only a limit below it stops it |
| ResourceMemory.JustRecordedIsVictimIff | maze/core/resource_history.py:204-210 | the profile just recorded is pushed out exactly when it is one too many and the clock puts it strictly before all others |
| ResourceMemory.EvictionIs | maze/core/resource_history.py:204-210 | a profile goes only when there is one too many: one observed least recently, of those the first in file order, the new one last |
| ResourceMemory.ProfilesAreBounded | maze/core/resource_history.py:205-210 | never more than the maximum number of profiles |
| ResourceMemory.RetriesAreBounded | maze/core/resource_policy.py:191-207 | under a limit, out-of-memory re-anchoring happens at most (limit - start) / 256 times |
| ResourceMemory.ResourceHistoryStore.UpdateProfile | maze/core/resource_history.py:174-204 | counts, peak and bound move exactly for eligible observations |
| ResourceMemory.ResourceHistoryStore.Oldest | maze/core/resource_history.py:205-210 | finds the least recently observed profile, ties in file order with the new key last |
| ResourceMemory.ResourceHistoryStore.Record | maze/core/resource_history.py:165-227 | a known id changes nothing; otherwise the profile learns, the oldest may go, the id window moves |
| ResourceMemory.RecommendResources | maze/core/resource_policy.py:162-214 | the reassigned local amount ends at the recommendation, or the limit is exceeded |
| TaskQueues.TasksAreConserved | maze/core/scheduler/queues.py:43-110 | over any operations that restore only items that are out, the queues and the items out hold exactly what was put, each number once |
| TaskQueues.TasksAreConservedIff | maze/core/scheduler/queues.py:43-110 | throughout a run that holds exactly when no item is restored that is not out |
| TaskQueues.ItemRestoredTwiceIsRepeated | maze/core/scheduler/queues.py:83-91 | a task put, taken and restored twice is in the queue twice |
| TaskQueues.PeekIsMinimal | maze/core/scheduler/queues.py:60-66 | peeking answers a task whose fresh key is least, and neither loses nor adds a task |
| TaskQueues.PutIsLast | maze/core/scheduler/queues.py:43-58 | a put is last in its own queue with the next number and a fresh key, its task labelled so; no other queue or label changes |
| TaskQueues.RestoredIsLast | maze/core/scheduler/queues.py:83-91 | a restored item is last, unchanged, in the named queue, else the one of its task's label, else cpu; no other queue or label changes |
| TaskQueues.SnapshotIs | maze/core/scheduler/queues.py:100-110 | all three queues are sorted, none loses or gains a task, and every queued task is labelled with a queue that holds it |
| TaskQueues.LessIs | maze/core/scheduler/queues.py:132 | one key is less than another exactly when some position decides it, all before being equal |
| TaskQueues.TakenAndRestoredKeepsItsTurn | maze/core/scheduler/queues.py:71-91 | with a first-come key a refresh shows arrival order, also after any item was taken and restored, as long as only items that are out are restored |
| TaskQueues.LabelsStayRightIff | maze/core/scheduler/queues.py:43-110 | a step keeps every task in the queue it is labelled with exactly when it does not put or restore a task another queue holds |
| TaskQueues.LabelsAreRightIff | maze/core/scheduler/queues.py:43-110 | over a whole run every task is in the queue it is labelled with throughout exactly when no step does so |
| TaskQueues.TaskPutTwiceIsMislabelled | maze/core/scheduler/queues.py:43-58 | a task put twice is in the gpu queue and labelled cpu |
| TaskQueues.SortSorts | maze/core/scheduler/queues.py:132 | the sort orders by Python's tuple order |
| TaskQueues.SortIsStable | maze/core/scheduler/queues.py:132 | items with equal keys keep their order |
| TaskQueues.HeterogeneousTaskQueues.PutTask | maze/core/scheduler/queues.py:43-58 | appended with the next number to the normalised queue and labelled; without a queue name the strategy's is used |
| TaskQueues.HeterogeneousTaskQueues.PeekTask | maze/core/scheduler/queues.py:60-66 | refreshes one queue and answers its head, nothing exactly when it is empty |
| TaskQueues.HeterogeneousTaskQueues.TakeTask | maze/core/scheduler/queues.py:71-81 | removes the head, or the first item of the named task found by the loop, and leaves every other item and queue in place; an empty queue or an absent task is an error and changes nothing |
| TaskQueues.HeterogeneousTaskQueues.RestoreTask | maze/core/scheduler/queues.py:83-91 | whatever item is handed back is appended with its number to the named or labelled queue |
| TaskQueues.HeterogeneousTaskQueues.RefreshQueue | maze/core/scheduler/queues.py:119-133 | the loop recomputes every key, then the list is sorted |
| TaskQueues.HeterogeneousTaskQueues.QueueSnapshot | maze/core/scheduler/queues.py:100-110 | all three queues are refreshed and their tasks labelled with them |

## Left out

- ActorStart.RunKeeps: one manager per process; a second manager would share the slots and the kill queue. Generations are records in a list, not heap objects, so aliasing of a generation is not modelled.
- ActorStartProgress.EveryStartEnds: takes Ray's answers as given; a creation call or a kill that never returns leaves its start unfinished. Replacing the worker of a stuck creation is `DaemonPool`'s subject.
- InstanceFleet.StopsAreExclusive: about ownership; an abandoned control transaction that ran out of time may still be running. Stop events and the callers that wait on them are not modelled.
- InstanceFleet.IndexAgrees: `register_instance` is modelled from its production caller `_mark_ready`; registering a ready instance again under another model is not.
- InstanceFleet.RunKeeps: telemetry fields of the metadata (endpoint, address, totals, memory samples) are not part of the state, and ids are ordered as numbers.
- TaskAttempts.OneManifestPerTask: a manifest write that fails is taken to write nothing, and the write and the commit that follows it to be one step. Resource-history effects and graph marks inside the transaction are not rolled back by the source and not modelled.
- TaskAttempts.AttemptMonitor.AcceptTaskAttemptEvent: the merged node and the copied error of an entry are not modelled; fields are hashable JSON values.
- DispatchJournal.RunKeeps: one run id at a time; the cleanup maps of different runs do not meet, and a recovery aborted by another run's record is not modelled. The digest check that turns a resubmission with other content into a conflict is not modelled, and neither are `stop_workflow`, a deadline or a scheduler exit of a prepared or active run, which end it outside the dispatch record. An error while one run is given up also ends that tick for the runs after it; ticks are modelled run by run.
- DispatchJournal.RetriesEnd: about the retry loop alone; deadline sweeps that resend between the ticks only count further attempts.
- DaemonPool.BoundedDaemonExecutor.Abandon: one step, although the source reads `future.running()` before it adds to the set; only the worker's own `set_result` can fall between the two, and the membership check that follows it needs the lock `abandon` holds.
- FinishSaga.SagaIsOrdered: one process; a crash loses the flags set since the last persist. A send that raises is taken not to have been made.
- FinishSaga.ReadyTasksAreDispatchedOnce: `workflow.finish_task` is taken to return a task as ready at most once.
- RunInputs.EncodeThenResolve: dictionary keys are strings, as they are after the JSON transport.
- ArtifactStore.RunKeeps: starts from a fresh database with collision-free digests; the legacy migration is not modelled, and neither is reading the bytes after the permission check.
- ResourceMemory.RecommendsTheMaximum: margins are exact rationals rounded up, not floating point; the list of sources in a decision is not modelled.
- ResourceMemory.ResourceHistoryStore.Record: the diagnostic aggregates by task and by model and the recent observations feed no decision and are not modelled.
- TaskQueues.HeterogeneousTaskQueues.PutTask: the strategy's keys and queue choice are parameters; letters are lowered in ASCII only, which is exact for the three names.
- Finish continuations of dynamic runs, which share the saga's shape without the dispatch guard.
- Ray, HTTP, ZeroMQ, subprocesses, files and SQLite themselves: they are steps that may succeed, fail or time out.
- Scale-out recommendations, metrics, traces, the CLI and the server endpoints: they only read what is modelled.
