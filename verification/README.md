# Thundernetes in Dafny

Thundernetes is a Kubernetes operator that keeps game servers standing by,
hands them out to players and scales them down. This project models the parts
of it whose correctness spans several functions or processes, and proves what
they promise. `dafny verify dfyconfig.toml` checks all of it.

## The parts

**The build controller and the allocator, as one system.** `ApiStore` is the
API server: objects with a full version history and resource versions that are
never reused, and a cache that has followed each history up to some point.
`ReconcilePlan` holds what one pass decides from the list it reads.
`ClusterRuns` is the state machine: passes of the controller with every single
API call as a step, the gates of the expectations, snapshots the allocator
took, patches and deletes with preconditions, writes and deletes by anybody
else, cache syncs, failed calls and controller restarts. `ClusterInvariant`
proves its invariant, `ClusterTheorems` the safety of all runs,
`ClusterWitnesses` runs that show why the conditions of these theorems are
needed. `ExpectationGates` says exactly when the gates can open again,
`CrashTally` which crashes are counted, and `CrashWitnesses` has a run that
loses one. `Convergence`, `CalmPasses` and `CalmProgress` prove
self-stabilisation, first on the arithmetic, then on runs of the system, and
last that such runs exist.

**The same code as objects and loops.** `Expectations`, `ScaleDown` and
`BuildReconciler` are the controller's classes and methods; their contracts say
that the calls they make are those of a pass of the system model
(`PassTranscripts`), and `PassesInRuns` proves that such calls are runs and the
passes of runs such calls.

**The queues.** `GameServerHeap` is the binary heap with its sifting,
`GameServersQueue` the queue per build and the index over all builds, both in
place; `QueueSpec` is the value model they refine. `AllocationApi` is the
request handler with its retry loop over these queues.

**The host ports.** `PortWalk` is the circular scan, `PortLedger` the registry
as a state machine, `PortTheorems` what holds of it, `PortRegistry` the class
that refines it. `HostPortAssignment` distributes the ports over the containers
and has the checks of the webhook (`PodPorts` is the data it shares). `PortOwners`
puts the creation of servers and the registry together.

**The environment strings.** `EnvCodec` is the operator's printer and the init
container's parser over the string functions in `GoStrings`.

**The node agent.** `AgentSteps` is what it keeps for one server and how events
change it, `AgentTheorems` what holds along all runs, `HeartbeatTheorems` what
exactly each heartbeat and each check brings about, `NodeAgent` the classes.

`GameServers`, `MapSums` and `Options` are shared definitions.

## How to read the contracts

A method that changes state equates the new state with a function or relation
of the old one, defined on values; the lemmas in the table then prove what the
source promises about that function or relation, over all inputs or all runs.
Where the source would index out of range, the model has a result for it
instead of a precondition.

Where the code and its comments disagree the model follows the code:

- A deleted build should clear its crash tally (gameserverbuild_controller.go:95-97),
  but the key is made from the empty object: see `MissingBuildKeepsTally`.
- Scale-down claims never to touch active servers; that holds of scale-down,
  but not of the deletes of unhealthy servers in the same pass: see
  `ScaleDownSparesActive`, `SweepRemovesActiveExactly` and
  `SweepCanRemoveActive`.
- The comment that each port to expose exists only once among the container
  ports (controller_utils.go:127) is checked nowhere: see
  `AssignmentIsTotal` and `AcceptedButOutOfRange`.
- Ports granted to a server whose creation then fails are never given back by
  the same controller: see `HoldersExisted`.
- A crash whose pass fails after the server was deleted is never counted: see
  `CrashIsTalliedExactly`. It takes no failing service: scale-down looks at the
  state of a server only, so it may choose an unhealthy one that the sweep of
  the same pass has just deleted; the second delete finds nothing, which is an
  error but no conflict, and the pass ends without a status update. See
  `CalmPassFinishesExactly` and `UnhealthyTargetLosesCrash`.
- The check of heartbeats is said to mark a server that stays silent; it
  does so once per entry only: see `MarkedOnce`.

## Model

| member | source | states |
|---|---|---|
| ClusterTheorems.MaxIsRespected | pkg/operator/controllers/gameserverbuild_controller.go:118-234 | In every run from an empty build, with any interleaving of passes, cache lag, failed calls, outside writes and deletes, allocations and controller restarts, the live servers number at most the largest Max a pass read, not counting those that the last pass to create one read but matched to no branch |
| ClusterTheorems.MaxIsRespectedByAll | pkg/operator/controllers/gameserverbuild_controller.go:118-234 | If no pass reads an unmatched server, all live servers number at most Max |
| ClusterTheorems.UnmatchedExactly | pkg/operator/controllers/gameserverbuild_controller.go:143-181 | The servers that match no branch are exactly those with an empty health whose state is Initializing, StandingBy, Active or GameCompleted |
| ClusterWitnesses.MaxNeedsTheCondition | pkg/operator/controllers/gameserverbuild_controller.go:143-181 | A run in which a server completes its game before it ever reports a health: it is neither counted nor deleted, and two servers live under a Max of one |
| ClusterInvariant.InvKept | pkg/operator/controllers/gameserverbuild_controller.go:118-234 | Every event keeps the invariant of the whole system: cache, expectations, progress of the pass, allocation tickets and crash tally |
| ClusterInvariant.BeginCovers | pkg/operator/controllers/gameserver_expectations.go:71-132 | If every live server is cached or expected, then at the beginning of a pass, after both gates, every live server is in the list the pass read from the cache |
| ClusterInvariant.CreationStaysBounded | pkg/operator/controllers/gameserverbuild_controller.go:204-234 | Each creation of a pass keeps the bound, whatever happened to the listed servers since they were read |
| ClusterTheorems.AllocationFindsStandingBy | pkg/operator/controllers/allocation_api_server.go:276-330 | A successful allocation patch finds its server live and StandingBy in the API server at that moment, in every run with stale queue entries and arbitrary other writers |
| ClusterTheorems.NoSecondAllocation | pkg/operator/controllers/allocation_api_server.go:276-330 | Between two successful allocations of one server somebody wrote it back to StandingBy |
| ClusterTheorems.ScaleDownSparesActive | pkg/operator/controllers/gameserverbuild_controller.go:329-366 | A scale-down delete that succeeds removes a server whose live state is the cached one, never an Active one |
| ClusterTheorems.LiveActiveExactly | pkg/operator/controllers/allocation_api_server.go:303-311 | In every run a live server is Active exactly when a write or an allocation made it so and no write has changed that since |
| ClusterTheorems.SweepRemovesActiveExactly | pkg/operator/controllers/gameserverbuild_controller.go:154-180 | A delete of finished or unhealthy servers removes an Active server exactly when it was made Active and not written otherwise since, whatever the pass read; the live server is the one read if its version still is |
| ClusterWitnesses.SweepCanRemoveActive | pkg/operator/controllers/gameserverbuild_controller.go:154-180 | The delete of unhealthy servers carries no precondition: a run in which it removes a server that was allocated after it was read |
| ClusterTheorems.CountedHaveCrashed | pkg/operator/controllers/gameserverbuild_controller.go:162-180 | A server stands in the crash tally only if some version of it had crashed or was unhealthy |
| ClusterTheorems.CrashesAreCountedOnce | pkg/operator/controllers/gameserverbuild_controller.go:162-180 | The recorded total is exactly the number of distinct servers tallied, each of which had crashed or was unhealthy and is gone |
| ClusterTheorems.CrashTotalGrows | pkg/operator/controllers/gameserverbuild_controller.go:369-382 | While the controller is not restarted the recorded total never decreases |
| CrashTally.FinishesExactly | pkg/operator/controllers/gameserverbuild_controller.go:162-237 | In every run a pass reaches the status update exactly when the controller is not restarted, all deletes of the sweep and all creations succeed, and no scale-down delete fails but by a conflict |
| CrashTally.DoomedTargetFails | pkg/operator/controllers/gameserverbuild_controller.go:329-346 | In every run the scale-down delete of a server that the sweep of the same pass has removed fails |
| CrashTally.CrashIsTalliedExactly | pkg/operator/controllers/gameserverbuild_controller.go:162-180 | As long as the controller lives, the crash of a removed server is part of the recorded total exactly if nothing failed in the pass that removed it; otherwise it is never counted, not even after a restart, and so it is whenever scale-down chose a server the sweep had removed |
| CrashTally.CalmPassFinishesExactly | pkg/operator/controllers/gameserverbuild_controller.go:143-237 | With nobody else acting and every possible call carried out, a pass finishes exactly when scale-down chose none of the servers that the sweep removed |
| CrashTally.CalmPassTallies | pkg/operator/controllers/gameserverbuild_controller.go:162-180 | Such a pass adds all the crashed and unhealthy servers to the total, or none: none exactly in that case |
| CrashWitnesses.LosingPlan | pkg/operator/controllers/gameserverbuild_controller.go:162-189 | A list of a silent unhealthy server and a good one, with none to stand by: scale-down chooses the very server the sweep deletes |
| CrashWitnesses.UnhealthyTargetLosesCrash | pkg/operator/controllers/gameserverbuild_controller.go:318-356 | A run from the empty build to that list and an undisturbed pass over it: the server is removed and the total stays zero |
| ExpectationGates.ExpectAlong | pkg/operator/controllers/gameserver_expectations.go:71-132 | In every run the servers expected to go are removed, those expected to appear exist or have existed, and no server is both |
| ExpectationGates.OrphanBlocksForever | pkg/operator/controllers/gameserver_expectations.go:105-132 | A created server that is deleted before the gate sees it blocks every later pass of the build until the controller restarts |
| ExpectationGates.CacheOpensGates | pkg/operator/controllers/gameserver_expectations.go:71-132 | Without an orphan, steps of the cache and the gates alone empty both expectations |
| ExpectationGates.GatesOpenExactly | pkg/operator/controllers/gameserver_expectations.go:71-132 | In every reachable state between two passes the cache alone can open both gates exactly when no expected server is orphaned |
| CalmProgress.PassCanBegin | pkg/operator/controllers/gameserverbuild_controller.go:118-138 | Between two passes nothing but the gates keeps the next one from beginning |
| ClusterWitnesses.OrphanReachable | pkg/operator/controllers/gameserver_expectations.go:105-132 | A run that gets there: create, outside delete, cache sync |
| ApiStore.VersionPins | pkg/operator/controllers/gameserverbuild_controller.go:359-366 | An object whose live version number is that of a version in its history is that version: what a resource-version precondition buys |
| ApiStore.HistoryGrows | pkg/operator/controllers/allocation_api_server.go:185-193 | A version once in the history of an object stays in it, so an old snapshot is never mistaken for a new one |
| ReconcilePlan.TrimOrGrow | pkg/operator/controllers/gameserverbuild_controller.go:184-234 | Scale-down deletes and creations never occur in the same pass |
| ReconcilePlan.CreateBudgetIsGuard | pkg/operator/controllers/gameserverbuild_controller.go:211-213 | Another server is created exactly while StandingBy, Max and the limit per pass all leave room for it |
| ReconcilePlan.NonActiveCount | pkg/operator/controllers/gameserverbuild_controller.go:143-184 | The three counters together count exactly the servers that are not active |
| ReconcilePlan.CrashCount | pkg/operator/controllers/gameserverbuild_controller.go:162-180 | The crash counter counts exactly the crashed and unhealthy servers of the list |
| ReconcilePlan.CountersByState | pkg/operator/controllers/gameserverbuild_controller.go:143-181 | Each of the five counters by state and health: new servers that are not unhealthy, the healthy ones initializing, standing by and active, and the crashed and unhealthy ones |
| ReconcilePlan.DoomedByState | pkg/operator/controllers/gameserverbuild_controller.go:154-180 | The sweep deletes, in list order, exactly the crashed and unhealthy servers and the healthy ones whose game is over |
| ReconcilePlan.CountedNamesBound | pkg/operator/controllers/gameserverbuild_controller.go:143-184 | The names of the counted servers number at most what the counters add up to |
| Convergence.ApproachFromBelow | pkg/operator/controllers/gameserverbuild_controller.go:184-234 | One pass below the target goes up and never beyond it |
| Convergence.FallFromAbove | pkg/operator/controllers/gameserverbuild_controller.go:184-202 | One pass above the target takes exactly what is over StandingBy, or over Max, up to the limit per pass; with both exceeded the first amount and then that again on top of what is over Max |
| Convergence.AtRest | pkg/operator/controllers/gameserverbuild_controller.go:184-234 | A pass leaves the number of servers as it is exactly at the target |
| Convergence.OverDeletesExactly | pkg/operator/controllers/gameserverbuild_controller.go:189-196 | A pass deletes below a target that is not zero exactly when both delete triggers fire and add up to more than either asks for; with a limit that cuts neither off, exactly when both fire |
| Convergence.BothTriggersOverDelete | pkg/operator/controllers/gameserverbuild_controller.go:189-196 | A concrete case: everything is deleted although five servers should stay |
| Convergence.Settles | pkg/operator/controllers/gameserverbuild_controller.go:184-234 | From any number, within as many passes as the larger of that number and the target, the target is reached and kept |
| CalmPasses.CalmPassResult | pkg/operator/controllers/gameserverbuild_controller.go:143-234 | In the system model, every undisturbed pass with a synced cache, whatever finished, crashed or unhealthy servers it finds, leaves the active servers alone and only counted ones besides; it removes the doomed ones and its targets and creates what it planned |
| CalmPasses.TrimFailsExactly | pkg/operator/controllers/gameserverbuild_controller.go:329-346 | In such a pass a scale-down delete fails exactly when the sweep has removed its target |
| CalmPasses.QuietPassResult | pkg/operator/controllers/gameserverbuild_controller.go:184-234 | If all servers are counted the pass finishes and changes the number of those not active as the arithmetic says |
| CalmPasses.CyclesFollowArithmetic | pkg/operator/controllers/gameserverbuild_controller.go:184-234 | So does every sequence of such passes from a state of counted servers, with the cache catching up in between |
| CalmPasses.Stabilises | pkg/operator/controllers/gameserverbuild_controller.go:184-234 | From any state without unmatched servers, repeated passes reach exactly max(0, min(StandingBy, Max - active)) servers that are not active, and stay there |
| CalmProgress.CalmPassExists | pkg/operator/controllers/gameserverbuild_controller.go:118-236 | From every such state there is a complete undisturbed pass |
| CalmProgress.PassEndsCalmly | pkg/operator/controllers/gameserverbuild_controller.go:143-234 | Every such pass ends with all servers counted and no server orphaned |
| CalmProgress.QuietAgain | pkg/operator/controllers/gameserver_expectations.go:71-132 | After it the cache and the gates alone lead to a quiet state with the same servers |
| CalmProgress.TargetIsReached | pkg/operator/controllers/gameserverbuild_controller.go:184-234 | So from every state without unmatched servers such passes exist that reach the target number |
| Expectations.GameServerExpectations.constructor | pkg/operator/controllers/gameserver_expectations.go:43-49 | Nothing is expected at first |
| Expectations.GameServerExpectations.AddGameServerToUnderDeletionMap | pkg/operator/controllers/gameserver_expectations.go:52-58 | The name joins the deletions of its build, and nothing else changes |
| Expectations.GameServerExpectations.AddGameServerToUnderCreationMap | pkg/operator/controllers/gameserver_expectations.go:61-67 | The name joins the creations of its build, and nothing else changes |
| Expectations.GameServerExpectations.GameServersUnderDeletionWereDeleted | pkg/operator/controllers/gameserver_expectations.go:71-100 | Opens exactly when the cache misses every server under deletion; names it misses are forgotten even when the gate stays closed |
| Expectations.GameServerExpectations.GameServersUnderCreationWereCreated | pkg/operator/controllers/gameserver_expectations.go:105-132 | Opens exactly when the cache has every server under creation; what is forgotten on the way was in the cache |
| Expectations.GatesAreRun | pkg/operator/controllers/gameserver_expectations.go:71-132 | What the gates of one reconciliation without a pass forget is a run of the system model |
| Expectations.ForgetDeletedMany | pkg/operator/controllers/gameserver_expectations.go:78-89 | Forgetting several deleted names is a sequence of steps of the system model |
| Expectations.ForgetCreatedMany | pkg/operator/controllers/gameserver_expectations.go:111-122 | Forgetting several created names is a sequence of steps of the system model |
| ScaleDown.ChosenRankLowest | pkg/operator/controllers/gameserverbuild_controller.go:326-349 | The chosen servers number min(k, candidates); no pending server is spared for one of another state, and no initializing one for one standing by |
| ScaleDown.ChosenByState | pkg/operator/controllers/controller_utils.go:448-466 | Exactly how many of each state are deleted: pending servers first, then initializing ones, then those standing by |
| ScaleDown.Swap | pkg/operator/controllers/controller_utils.go:446 | The two places trade their servers and no other place changes |
| ScaleDown.SortByState | pkg/operator/controllers/gameserverbuild_controller.go:329 | The list becomes sorted by state and stays a permutation of itself |
| PassTranscripts.FollowOn | pkg/operator/controllers/gameserverbuild_controller.go:118-234 | Following a list of calls is following its parts one after the other |
| PassTranscripts.NamesExactly | pkg/operator/controllers/gameserverbuild_controller.go:154-226 | Expected to go are exactly the servers a delete of either kind removed, expected to come exactly those created |
| PassTranscripts.SweepFollows | pkg/operator/controllers/gameserverbuild_controller.go:154-180 | The deletes of finished and crashed servers, in list order, follow the plan |
| PassTranscripts.TrimFollows | pkg/operator/controllers/gameserverbuild_controller.go:330-355 | Scale-down makes all its calls whatever fails, and fails only on an error that is no conflict |
| PassTranscripts.GrowFollows | pkg/operator/controllers/gameserverbuild_controller.go:211-234 | Creation makes all its calls whatever fails, and fails if one does |
| BuildReconciler.GameServerBuildReconciler.Sweep | pkg/operator/controllers/gameserverbuild_controller.go:143-181 | Counts every server by its branch and deletes the finished and crashed ones in order, up to the first failure, which ends the pass; names deleted are expected to go |
| BuildReconciler.GameServerBuildReconciler.DeleteNonActiveGameServers | pkg/operator/controllers/gameserverbuild_controller.go:318-356 | Deletes the lowest-ranked servers that are not active, with their cached versions as preconditions; conflicts are skipped, other errors reported after all calls |
| BuildReconciler.GameServerBuildReconciler.CreateMissing | pkg/operator/controllers/gameserverbuild_controller.go:211-234 | Makes exactly as many creations as the budget allows and expects those that succeeded |
| BuildReconciler.GameServerBuildReconciler.UpdateStatus | pkg/operator/controllers/gameserverbuild_controller.go:240-279 | Patches only when something changed or crashed; the total written is all crashes tallied so far |
| BuildReconciler.GameServerBuildReconciler.GetExistingCrashes | pkg/operator/controllers/gameserverbuild_controller.go:369-382 | Returns the crashes tallied before and adds the new ones |
| BuildReconciler.GameServerBuildReconciler.PassGates | pkg/operator/controllers/gameserverbuild_controller.go:118-132 | Both gates in order; open exactly when all deletions left and all creations entered the cache; what they forget is met in the cache, and other builds are not touched |
| BuildReconciler.GameServerBuildReconciler.RunPass | pkg/operator/controllers/gameserverbuild_controller.go:141-234 | The loops make the calls of a complete pass over the list, as the system model has them |
| BuildReconciler.GameServerBuildReconciler.Reconcile | pkg/operator/controllers/gameserverbuild_controller.go:88-237 | Makes API calls only when both gates open, then exactly those of a pass; the expectations end as the names removed and created; without a pass they lose only what the cache shows to be met, and those of other builds never change; the tally moves only when the whole pass succeeded |
| BuildReconciler.StatusTellsTruth | pkg/operator/controllers/gameserverbuild_controller.go:240-279 | After a pass the status tells the true number of servers of each kind; it is patched exactly if it did not or servers crashed, and the crash total and health it carries follow from the tally and the limit |
| BuildReconciler.StopsExactly | pkg/operator/controllers/gameserverbuild_controller.go:109-115 | A patched build stands still exactly if the patch found its limit reached and its limit is still reached; a raised or removed limit lets it go on |
| BuildReconciler.MissingBuildKeepsTally | pkg/operator/controllers/gameserverbuild_controller.go:92-99 | The tally of a deleted build is not cleared: the key is taken from the object that could not be read |
| PassesInRuns.CallsFollowPlan | pkg/operator/controllers/gameserverbuild_controller.go:118-234 | In a run, the calls between the beginning and the end of a pass follow the plan of its beginning |
| PassesInRuns.SetsFollowCalls | pkg/operator/controllers/gameserverbuild_controller.go:154-226 | While a pass of a run is under way, the expectations are the names its calls have deleted and created, whoever else acts |
| PassesInRuns.RunMakesPass | pkg/operator/controllers/gameserverbuild_controller.go:118-237 | A pass of the cluster, to its end in whatever way but a restart, has the calls and leaves the expectations that the contract of Reconcile states |
| PassesInRuns.PassIsRun | pkg/operator/controllers/gameserverbuild_controller.go:118-237 | Conversely, calls as Reconcile makes them, each with an answer the API server can give, are a run of the cluster with the same end |
| PassesInRuns.FinishedPassIsComplete | pkg/operator/controllers/gameserverbuild_controller.go:118-234 | A pass that finishes in a run made the calls of a complete successful pass |
| GameServerHeap.RootIsMinimum | pkg/operator/controllers/gameserverqueue.go:164-166 | In a heap no entry has a lower node age than the first |
| GameServerHeap.GameServerQueue.Up | pkg/operator/controllers/gameserverqueue.go:159-174 | Sifting up repairs the one place out of order and keeps all entries |
| GameServerHeap.GameServerQueue.Down | pkg/operator/controllers/gameserverqueue.go:159-174 | Sifting down repairs the places below and keeps all entries |
| GameServerHeap.GameServerQueue.PushToQueue | pkg/operator/controllers/gameserverqueue.go:176-195 | The new entry joins, and the heap stays a heap |
| GameServerHeap.GameServerQueue.PopFromQueue | pkg/operator/controllers/gameserverqueue.go:183-201 | Takes out exactly one entry, with the least node age, and keeps the heap |
| GameServerHeap.GameServerQueue.RemoveAt | pkg/operator/controllers/gameserverqueue.go:124-140 | Takes out exactly the entry at an index in the middle, and keeps the heap |
| GameServersQueues.GameServerQueueForBuild.PushToQueue | pkg/operator/controllers/gameserverqueue.go:99-109 | A name that is queued already is left with its old version; otherwise the entry joins. Name set and heap agree |
| GameServersQueues.GameServerQueueForBuild.PopFromQueue | pkg/operator/controllers/gameserverqueue.go:112-121 | Nothing exactly when nothing is queued; otherwise the entry of least node age and its name leave |
| GameServersQueues.GameServerQueueForBuild.RemoveFromQueue | pkg/operator/controllers/gameserverqueue.go:124-140 | Exactly the entry with that namespace and name leaves, and its name |
| GameServersQueues.GameServersQueue.PushToQueue | pkg/operator/controllers/gameserverqueue.go:31-43 | The three maps change as the push of the value model says |
| GameServersQueues.GameServersQueue.PopFromQueue | pkg/operator/controllers/gameserverqueue.go:46-58 | Returns nothing exactly when no server of the build is queued; a queue that became empty is dropped, the index entry stays |
| GameServersQueues.GameServersQueue.RemoveFromQueue | pkg/operator/controllers/gameserverqueue.go:61-76 | Changes queue, name set and index as the removal of the value model says |
| QueueSpec.InvKept | pkg/operator/controllers/gameserverqueue.go:31-140 | Every operation keeps: no stored queue is empty, names are unique in a queue, entries are in the queue of their build |
| QueueSpec.PushQueues | pkg/operator/controllers/gameserverqueue.go:31-43 | A pushed server is queued under its build afterwards, with its old entry if it had one; nothing else changes but the index, which names that build |
| QueueSpec.QueuesAgree | pkg/operator/controllers/gameserverqueue.go:31-140 | In every run in which each server is pushed with its one build and namespaces have no slash, all this holds, and every queued entry is indexed to its build |
| QueueSpec.KeyInjective | pkg/operator/controllers/gameserverqueue.go:204-206 | Namespaced names of namespaces without a slash are distinct |
| QueueSpec.RemovalIsComplete | pkg/operator/controllers/gameserverqueue.go:61-76 | A removal leaves no entry of the server exactly when it was queued in no other build than the indexed one |
| QueueSpec.RemovalClears | pkg/operator/controllers/gameserverqueue.go:61-76 | In runs where a namespaced name always carries one build and namespaces have no slash, a removed server is in no queue |
| QueueSpec.TwoBuildsDefeatRemoval | pkg/operator/controllers/gameserverqueue.go:61-76 | A run of two pushes and a removal after which a server that was queued for two builds is still queued |
| AllocationApi.AllocationApiServer.Reconcile | pkg/operator/controllers/allocation_api_server.go:171-196 | A server seen StandingBy is pushed with its cached version, a missing one is removed, and nothing else changes the queue |
| AllocationApi.AllocationApiServer.HandleAllocationRequest | pkg/operator/controllers/allocation_api_server.go:199-274 | Each answer by its cause: invalid requests, unknown builds, failed listings, a session with several servers; one with exactly one server gets it again. The queue is touched only if none of these answers, and then the retry loop serves the request |
| AllocationApi.AllocationApiServer.AllocateFromQueue | pkg/operator/controllers/allocation_api_server.go:276-346 | Pops and patches one server after the other, at most as often as there are tries, while others act on the queues in between; each refused one is put up for another look |
| AllocationApi.PathLosesNothing | pkg/operator/controllers/allocation_api_server.go:279-329 | What was queued for a build when a request began is still queued, was popped by the request, or was taken by others meanwhile |
| AllocationApi.PathConserves | pkg/operator/controllers/allocation_api_server.go:283 | Undisturbed, what was popped and what is left make up the build's queue; other builds are untouched |
| AllocationApi.PopsByAge | pkg/operator/controllers/allocation_api_server.go:283 | Each server tried is on a node no older than any queued then, so than any tried later or left that was not pushed meanwhile |
| AllocationApi.ThreeTries | pkg/operator/controllers/allocation_api_server.go:279-330 | A request fails with an error exactly after three refused patches; each server popped is patched once, in order, and only the last can succeed |
| AllocationApi.NothingIsLost | pkg/operator/controllers/allocation_api_server.go:279-346 | Every server queued when a request began is still queued, or was taken by others, handed out or put up for another look; too many requests means none is left |
| PortWalk.Visit | pkg/operator/controllers/port_registry.go:184-199 | One visit of the circular scan takes the port exactly when its count on entry and the laps before leave room |
| PortTheorems.InvKept | pkg/operator/controllers/port_registry.go:59-95 | Every operation keeps: free count = node count x range size - all counts, and each count = its start-up count + its occurrences among the ports held |
| PortTheorems.CapacityIsConserved | pkg/operator/controllers/port_registry.go:127-159 | In every run the free count is the capacity less all counts, and no count is below the occurrences of its port |
| PortTheorems.RunsDryNever | pkg/operator/controllers/port_registry.go:201-204 | The pigeonhole: as long as the free count covers the request no round of the scan comes back empty, also after node removals |
| PortTheorems.AllocationSucceedsExactly | pkg/operator/controllers/port_registry.go:165-209 | A call succeeds exactly when the free count covers it and the name is new; a failing call changes nothing |
| PortTheorems.GrantedPortsFit | pkg/operator/controllers/port_registry.go:184-191 | Each port granted is in the range and its count ends within the node count |
| PortTheorems.GrantsFirstAvailable | pkg/operator/controllers/port_registry.go:177-205 | If enough ports have room on entry, the result is exactly the first such ports round the circle, pairwise distinct, and the next scan begins just past the last |
| PortTheorems.ReleaseUndoesAllocation | pkg/operator/controllers/port_registry.go:206-231 | Granting and releasing a name leaves no trace in counts and free count, whatever other names and nodes did between; every port is given back, and a second release does nothing |
| PortRegistries.PortRegistry.constructor | pkg/operator/controllers/port_registry.go:54-71 | All counts of the range are zero and all capacity is free |
| PortRegistries.ExposedPorts | pkg/operator/controllers/port_registry.go:82-92 | The buffer of a container holds its host ports, with a zero for each port without one |
| PortRegistries.PortRegistry.AssignRegisteredPorts | pkg/operator/controllers/port_registry.go:236-244 | Each port given raises its own count by one and costs one free port |
| PortRegistries.PortRegistry.NewPortRegistry | pkg/operator/controllers/port_registry.go:49-99 | Refuses an empty range; otherwise the counts are exactly the host ports of the listed servers, zeros included, no server holds any, and the invariant holds |
| PortRegistries.PortRegistry.ScanForPort | pkg/operator/controllers/port_registry.go:184-200 | At most one round: stops just past the first port with room, or finds that no port of the range has any |
| PortRegistries.PortRegistry.CollectPorts | pkg/operator/controllers/port_registry.go:177-205 | The nested loops collect the ports of the circular walk, or stop with every port of the range full |
| PortRegistries.PortRegistry.GetNewPorts | pkg/operator/controllers/port_registry.go:165-209 | Changes the registry as the allocation of the value model says, in each of its four outcomes |
| PortRegistries.PortRegistry.DeregisterPorts | pkg/operator/controllers/port_registry.go:212-232 | Gives back all ports of the name and forgets it; an unknown name changes nothing |
| PortRegistries.PortRegistry.OnNodeAdded | pkg/operator/controllers/port_registry.go:144-149 | One more node, one more set of free ports |
| PortRegistries.PortRegistry.OnNodeRemoved | pkg/operator/controllers/port_registry.go:154-159 | One node less, one set of free ports less |
| PortRegistries.CountSchedulable | pkg/operator/controllers/port_registry.go:119-124 | Counts exactly the nodes that are ready and schedulable |
| PortRegistries.IsNodeReadyAndSchedulable | pkg/operator/controllers/controller_utils.go:415-424 | True exactly for a schedulable node with a ready condition that holds |
| PortRegistries.PortRegistry.Reconcile | pkg/operator/controllers/port_registry.go:102-141 | Ends with the node count equal to the ready and schedulable nodes, through single steps in one direction; nothing happens when listing fails |
| HostPortAssignment.ValidatePortsToExpose | pkg/operator/api/v1alpha1/gameserverbuild_webhook.go:173-204 | The grouping loops report the faults that the value model lists |
| HostPortAssignment.ErrorsTellFaults | pkg/operator/api/v1alpha1/gameserverbuild_webhook.go:161-204 | A fault is reported exactly when a number to expose has it: no matching port off the host network, a matching port without a name, or one with a host port |
| HostPortAssignment.AssignHostPorts | pkg/operator/controllers/controller_utils.go:134-147 | The nested loops run out of host ports exactly when more container ports are exposed than there are host ports; otherwise they place them in order |
| HostPortAssignment.NewGameServer | pkg/operator/controllers/controller_utils.go:126-149 | Asks for as many ports as there are numbers to expose, and fails without a trace when the registry refuses |
| HostPortAssignment.PlaceAt | pkg/operator/controllers/controller_utils.go:137-147 | Ports that are not exposed stay as they are; the others get the next host port and, with the host network, that number as container port |
| HostPortAssignment.HandsOutInOrder | pkg/operator/controllers/controller_utils.go:134-147 | Read off in traversal order, the exposed ports carry the host ports from the first on, each once |
| HostPortAssignment.AssignmentIsTotal | pkg/operator/api/v1alpha1/gameserverbuild_webhook.go:173-204 | For accepted builds off the host network with distinct numbers, the assignment stays in bounds exactly when no number matches two container ports, and then uses every host port |
| HostPortAssignment.AcceptedButOutOfRange | pkg/operator/controllers/controller_utils.go:127-147 | Two containers with the same exposed port pass the webhook, and the assignment of their host ports indexes out of range |
| PortOwners.CreateGameServer | pkg/operator/controllers/gameserverbuild_controller.go:216-226 | Ports are asked for and only if they are granted is the server created; when the creation fails the ports stay held by its name |
| PortOwners.ReconcileMissing | pkg/operator/controllers/gameserver_controller.go:102-112 | The reconciliation of a server that exists no longer gives its ports back |
| PortOwners.LeaksExactly | pkg/operator/controllers/gameserverbuild_controller.go:217-225 | While the controller lives, a name no server has holds ports exactly when a creation failed after its ports were granted |
| PortOwners.LeakKeepsPorts | pkg/operator/controllers/gameserverbuild_controller.go:217-225 | The ports of such a creation stay held as long as the controller lives |
| PortOwners.HoldersExisted | pkg/operator/controllers/gameserverbuild_controller.go:217-225 | All names that hold ports belong to servers that existed exactly when no creation failed after its ports were granted |
| PortOwners.RefusedCreationHolds | pkg/operator/controllers/gameserverbuild_controller.go:217-225 | A run of one refused creation after which the only port of the range is held by the name of no server |
| GoStrings.SplitTerminated | pkg/operator/controllers/controller_utils.go:316-331 | Splitting the trimmed string of pieces, each followed by the separator, finds the pieces again |
| GoStrings.AtoiItoa | cmd/initcontainer/main.go:143-152 | A number of 64 bits printed in decimal reads as itself, any other is refused; no separator is in it |
| GoStrings.AtoiExactly | cmd/initcontainer/main.go:143-152 | Exactly the decimal forms of 64-bit numbers, with leading zeros and a sign allowed, read as numbers |
| EnvCodec.PrintPorts | pkg/operator/controllers/controller_utils.go:316-331 | Prints the ports with a host port, in order, without a separator at the end |
| EnvCodec.PrintMetadata | pkg/operator/controllers/controller_utils.go:333-340 | Prints the metadata items in order, without a separator at the end |
| EnvCodec.ParsePorts | cmd/initcontainer/main.go:133-161 | Reads piece by piece; a piece with fewer than three fields is read out of range, a bad number is an error |
| EnvCodec.ParseBuildMetadata | cmd/initcontainer/main.go:116-130 | Reads piece by piece, the last value of a key counting; a piece without a comma is read out of range |
| EnvCodec.PortPieceRead | cmd/initcontainer/main.go:137-159 | A piece with fewer than three fields is read out of range, one whose second or third field is no number is an error, and fields after the third are ignored |
| EnvCodec.ItemPieceRead | cmd/initcontainer/main.go:121-127 | A piece without a comma is read out of range; fields after the second are ignored |
| EnvCodec.CommaCutsValue | cmd/initcontainer/main.go:125-126 | A metadata value with a comma comes back cut at it |
| EnvCodec.PortsRoundTrip | pkg/operator/controllers/controller_utils.go:316-331 | Parsing what was printed gives back the exposed ports in order, with their numbers, exactly when no exposed port name holds a comma or a question mark |
| EnvCodec.MetadataRoundTrip | pkg/operator/controllers/controller_utils.go:333-340 | Metadata without separators comes back with the last value of each key; with distinct keys, metadata with separators never does |
| EnvCodec.SeparatorPanics | cmd/initcontainer/main.go:121-127 | A value that goes on after a question mark makes the parser read out of range |
| AgentTheorems.StatesMoveForward | cmd/nodeagent/nodeagentmanager.go:443-520 | While an entry lives, its previous state is empty, Initializing, StandingBy or Active and never goes back in this order |
| AgentTheorems.ActiveReplyHasAllocation | cmd/nodeagent/nodeagentmanager.go:406-431 | An Active reply is sent only to a StandingBy heartbeat, after an Active and Healthy version was delivered, and carries the latest delivered session |
| AgentTheorems.NeverActiveTwice | cmd/nodeagent/nodeagentmanager.go:462-465 | Once an Active heartbeat was accepted, Active is never replied again while the entry lives |
| AgentTheorems.PunctualIsNeverMarked | cmd/nodeagent/nodeagentmanager.go:118-148 | A server whose first heartbeat and every later one come within the two timeouts is not marked by any check up to the last of them |
| AgentTheorems.SilentIsMarked | cmd/nodeagent/nodeagentmanager.go:102-148 | A server that falls silent while not unhealthy and not marked before is marked within a timeout of its deadline, so within twice the timeout of its last heartbeat, if checks come that often and patches succeed |
| AgentTheorems.MarkedOnce | cmd/nodeagent/nodeagentmanager.go:135-145 | At most one successful mark is sent for an entry, even if the server recovered and falls silent again |
| HeartbeatTheorems.ReplyExactly | cmd/nodeagent/nodeagentmanager.go:406-431 | From the delivery of an allocation on, every answer carries the latest session, and each StandingBy heartbeat is told to go active; before it none is |
| HeartbeatTheorems.HeartbeatOutcome | cmd/nodeagent/nodeagentmanager.go:443-589 | For every heartbeat of a run: exactly which patch is sent, what is remembered, the player count, and whether the answer is an error |
| HeartbeatTheorems.MemoryIsOfHeartbeats | cmd/nodeagent/nodeagentmanager.go:516-520 | State, health and player count an entry remembers are what its last heartbeat left, and nothing at first |
| HeartbeatTheorems.BirthOf | cmd/nodeagent/nodeagentmanager.go:226-236 | Every entry was made by one delivery, and lives since |
| HeartbeatTheorems.TimesAreEvents | cmd/nodeagent/nodeagentmanager.go:226-236 | The times of an entry are those of its first delivery and its last heartbeat |
| HeartbeatTheorems.MarkedExactly | cmd/nodeagent/nodeagentmanager.go:111-148 | A check marks a server exactly when none has marked it before, it is not remembered as unhealthy, and its last heartbeat or else its first delivery is longer ago than the timeout |
| AgentTheorems.RestartOverwritesActive | cmd/nodeagent/nodeagentmanager.go:471-508 | After a restart the status patch, which has no resource version, writes StandingBy over an allocated server |
| NodeAgent.NodeAgentManager.GameServerCreatedOrUpdated | cmd/nodeagent/nodeagentmanager.go:201-281 | Makes the entry if it is missing and takes in the session of an Active and Healthy server; other entries stay |
| NodeAgent.NodeAgentManager.GameServerDeleted | cmd/nodeagent/nodeagentmanager.go:284-316 | The entry goes; other entries stay |
| NodeAgent.NodeAgentManager.UpdateHealthAndStateIfNeeded | cmd/nodeagent/nodeagentmanager.go:444-520 | Accepts unchanged or forward states, patches what is news, and keeps the old values when the patch fails |
| NodeAgent.NodeAgentManager.UpdateConnectedPlayersIfNeeded | cmd/nodeagent/nodeagentmanager.go:523-589 | Takes the new player count exactly when the server is active, the count differs and the patch succeeds |
| NodeAgent.NodeAgentManager.HeartbeatHandler | cmd/nodeagent/nodeagentmanager.go:347-441 | Entry, patch and reply are those of the value model, for valid, unknown and rejected heartbeats; other entries stay |
| NodeAgent.NodeAgentManager.HeartbeatTimeChecker | cmd/nodeagent/nodeagentmanager.go:118-148 | Every entry is checked once and marked exactly when it is overdue, not unhealthy and not marked before |

## Left out

- An API call that is reported as failed is modelled as not performed; a call that took effect but whose answer was lost is not modelled.
- The Kubernetes client, informers, field indexes, HTTP, TLS, certificates, metrics, logging and recorded events are not modelled; the model has their outcomes as parameters or arbitrary results.
- JSON, regular expressions and random name generation are not modelled: requests arrive decoded, and a created server's name is arbitrary but new.
- Goroutines and mutexes: the parallel deletes and creates of a pass are made one after the other, each call being a step of its own that others can interleave with; each public operation of the registry, the queues and the node agent is one step.
- One build is modelled in the system of `ClusterRuns`, since the expectations are keyed by build name without the namespace; builds with the same name in two namespaces share expectations and are not covered.
- GatesOpenExactly: says that the cache can open the gates, not that it will; how fast a cache catches up is not modelled.
- A restarted controller is modelled with a cache that has caught up and no call of its predecessor under way; the source waits for the first listing only.
- Stabilises: assumes a synced cache at the start of each pass, no unmatched server (no pass ever counts or removes one), no call failing that can be carried out, a fixed spec, and active servers that stay the same between passes.
- BuildReconciler.GameServerBuildReconciler.CreateMissing: an index out of range while host ports are assigned ends the process in the source; here that is a restart of the system model, not an outcome of one creation. `PortOwners.CreateGameServer` has it as an outcome.
- ScaleDown.SortByState: an insertion sort stands in for the sort of the Go library, whose order among servers of equal state is not specified; the theorems hold for every sorted permutation.
- GameServerHeap.GameServerQueue.Replace: cuts the list before sifting up where `container/heap` sifts first, which makes no difference as sifting up never looks past its start.
- AllocationApi.AllocationApiServer.AllocateFromQueue: others act on the queues between its pops, but `events` and the log of patches are those of this request alone.
- The channel that puts refused servers up for another look is bounded in the source and a sequence in the model.
- PortRegistries.PortRegistry.GetNewPorts: port numbers are unbounded integers; a range that ends at the largest 32-bit number would wrap around in the source.
- PortRegistries.PortRegistry.NewPortRegistry: the ports held before a restart are not attributed to their servers in the source, so no release of them is claimed.
- PortRegistries.PortRegistry.Reconcile: restricting the list to nodes with the game server label is left to the listing.
- HostPortAssignment.AssignHostPorts: the port lists of the containers are values that are reassigned, so the sharing of the copied template's slices is not captured.
- NodeAgent.NodeAgentManager.HeartbeatHandler: requests for one server are handled one after the other; concurrent heartbeats, and a heartbeat that overlaps a deletion, are not modelled.
- PunctualIsNeverMarked: the clock is positive and does not go backwards.
- The GameServerDetail objects of the node agent are not modelled; creating one has no effect on the entry, and patching one is an outcome.
- Whether one session gets one server under concurrent requests depends on a cached index and is not claimed.
- `cmd/standby-forecaster` (forecasting in floating point through other libraries), `cmd/gameserverapi`, `cmd/latencyserver` and `cmd/server-load-simulator` would only add thin wrappers.
- The construction of pods, the sidecar that turns pod events into server states, the generated code and the configuration parsing are straight-line copying.
- validateStandingBy and the checks of build ids in the webhook are single comparisons.
