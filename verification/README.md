# Verified model of the Chimaera runtime

Chimaera runs tasks written as coroutines on a pool of workers, routes them between
nodes, keeps a registry of pools and their containers, and lets clients send tasks and
wait for them across server restarts. This project models the parts of `context-runtime`
(and the socket loops of `context-transport-primitives`) whose correctness spans many
functions and many steps, and proves what they keep over every run.

`dafny verify dfyconfig.toml` checks everything.

## How it is organised

| file | what it holds |
|---|---|
| Sums | totals over finite maps in any commutative monoid |
| Scheduler | the worker scheduler and the local half of routing as one transition system: 24 actions, each an effect of one worker, of the network, or a choice a coroutine body makes |
| Workers | the same operations as methods that update the shared state in place |
| Conservation, Completion, CompletionRuns | the invariant, and the two theorems drawn from it: the completion protocol and task conservation |
| Answers, Itinerary | where each step takes its task, who is answered when it ends, and that tasks are routed before they run |
| Accounting | load and work books, and what plugging a container promises |
| ContainerBooks, WorkerBooks | the books of each single container and of each single worker, step by step and over runs |
| SchedulerLimits, NetworkLimits | runs outside the discipline, and the exact conditions |
| Driving, PathFrames, Lineage | paths without any discipline: what every step leaves alone, how to steer the scheduler, and how a suspended task can be woken |
| Waking | the same within the discipline, so that waking one task loses and strands no other |
| AwaitLimits, PlugLimits | exactly when an await is sound, and exactly when a plugged container stays quiet, over all ways of going on |
| PoolQueries, Routing, Forwarding | queries, their resolution from node to node, and forwarding to a container that migrates |
| PoolRegistry, Wal | get-or-create with rollback, containers, and the address table log |
| ClientProtocol | pending responses, the receive thread, resending |
| LockOwners, CoLocks, CoRwLocks, TaskIdentity | the reentrant locks and the owner ids that task ids give them |
| Sockets | gathering send and exact receive |
| PeriodicQueues | polling queues of a worker and its suspend period |
| Membership | host table, dead nodes, host cache, leader |
| PoolQueryText | printing and parsing of pool queries and unique ids |
| LoadModel | the load predictor, for tasks one after the other and for tasks that overlap |

Code that changes objects step by step is a class whose methods are proved against
specification functions; the theorems over whole runs are about those functions. A run is
a sequence of actions, and every theorem over runs quantifies over all of them, hence over
all interleavings.

## Premises of the scheduler theorems

`Scheduler.Disciplined` says what coroutine bodies, queries and the network must respect.
`DisciplineIsExact` proves that from any reachable state a step keeps the invariant if and
only if it is disciplined; the members named below say what goes wrong otherwise.

- A coroutine awaits a subtask only when it has no other outstanding one, and finishes or
  yields for a time only when it has none. `await_suspend` records the coroutine, not the
  future it waits for (`context-runtime/include/chimaera/task.h:872-894`), so any
  subtask's event resumes it (`TwoOutstandingBreak`). `AwaitIsSoundIff` gives the exact
  condition at the await, over all ways of going on: no other outstanding subtask, or the
  awaited one has already ended and its event is ahead of the others'.
- It never yields for zero microseconds: such a task is put in no queue
  (`context-runtime/src/worker.cc:736-744`; `ZeroYieldLosesTask`).
- Queries resolve to something. RouteTask gives a task up when its query resolves to
  nothing, and ProcessNewTask then drops it, neither complete nor in any queue
  (`context-runtime/src/ipc_manager.cc:2164-2176`; `UnresolvedIsLost`). That happens
  exactly for a null pool id and for an empty range (`UnresolvedIff`).
- A task refused before it can be routed has no parent waiting for it: the refusal sets
  FUTURE_COMPLETE and sends no event (`context-runtime/src/worker.cc:371-392`;
  `RejectStrandsParent`).
- A periodic task that comes back from the network does so on the worker that sleeps it.
  The code does not see to that: RecvOut ends the task on the worker it runs on
  (`context-runtime/modules/admin/src/admin_runtime.cc:916-946`), which puts it to sleep
  there without moving its event queue (`context-runtime/src/worker.cc:1210-1246`).
  `PeriodicReturnIff` proves that this keeps the invariant exactly on the right worker,
  and `StrayReturnBreaks` is a run in which it does not.

What is no premise: a started task may meet a plugged container and enter the retry queue,
which starts it again (`context-runtime/src/worker.cc:1198`). Completion, conservation and
plugging survive that; the books do not, and `AccountsBalance` says by how much they are
too high (`RetryBalancesIff`, `BooksAreExactIff`). Tasks may come back from the network onto
a plugged container; `NetReturnAdmitsIff` says exactly when that admits one.

## Premises of the other theorems

- The load predictor learns soundly from a task whose cost was predicted with the current
  coefficient. The code predicts when the first segment returns
  (`context-runtime/src/worker.cc:708-712`) and learns when the task ends
  (`context-runtime/src/worker.cc:791-799`), so two suspended tasks of one method make the
  second prediction stale. `StaysInHull`, `ErrorDecays` and `StepApproachesIff` have that
  premise; `MovedStaysIff`, `NextEndStaysIff`, `OverlapsStay` and `StaleStepApproachesIff`
  are about any prediction. With the default rate 0.2
  (`context-runtime/include/chimaera/container.h:111`) six overlapping tasks are enough to
  leave the range (`BatchStaysIff`, `SixMakeItNegative`).
- Task ids name a thread by its process, thread id and node, and every new thread counts
  from zero (`context-runtime/src/chimaera_manager.cc:66-75`). `OwnersAreChains` and
  `UnrelatedChainsExclude` ask that no thread id is given out again and no counter goes
  round; `RootsCollideIff`, `OwnersIff` and `HoldersCollide` ask for neither, and
  `ReusedThreadCollides` shows what the first is for.

- Only contexts that are awake are put to sleep in a worker's periodic queues; `BucketsHold`,
  `DueRunsInTime`, `SleepsUntilDue` and their like are about such careful runs. That a task
  is in one place at a time is `TasksConserved`.

## Where the code and its comments differ

The model follows the code.

- A hashed task is said to keep its container id so that every node can look it up again
  (`context-runtime/src/ipc_manager.cc:2437-2441`). The second node turns the id into a
  node (`context-runtime/src/ipc_manager.cc:2382-2403`), and the third executes whatever
  it is sent. `ForwardingBound` proves the promise; `HashReachesOwnerIff`,
  `IdReachesOwnerIff`, `HashFindsOwnerIff`, `IdFindsOwnerIff` and `StaleRelayMisses` say
  exactly when the code keeps it.
- The header gives 16 and 32 iterations as the polling frequency of the first two periodic
  queues (`context-runtime/include/chimaera/worker.h:461-468`); the code uses 4 and 8.
- `GetSuspendPeriod` is said to return the minimum over all queued contexts
  (`context-runtime/src/worker.cc:425-426`); it looks at the front of each queue.
- `PlugContainer` waits for a container's work counter to reach zero; the counter does not
  see tasks that are routed but not started, and it drifts when a live task is bound to
  another container or started again (`PlugWaitMissesAdmitted`, `StepKeepsBooksIff`);
  `PluggedIsQuietIff` says what to wait for instead.
- A thread's counter is said to make task ids unique
  (`context-runtime/include/chimaera/types.h:449-452`); a subtask takes the rest of its id
  from its parent, so two threads can give two tasks of one chain the same id (`SameIdIff`,
  `TwoThreadsAgree`).
- `LoadHostfile` resets node states but not the list of dead nodes, and a failed read
  leaves the table empty.

## Model

| member | source | states |
|---|---|---|
| CompletionRuns.CompletionSafety | context-runtime/src/worker.cc:994-1029 | On every disciplined run, in every interleaving of workers: a future about to be popped is not complete, its stored pointer still names its own parent, and that parent is suspended on exactly this future and not freed |
| SchedulerLimits.EarlyCompletionBreaks | context-runtime/src/worker.cc:858-877 | The variant that sets FUTURE_COMPLETE in EndTask has a disciplined run after which a queued event is already complete, its parent is freed, and its pointer names another task at the reused address |
| SchedulerLimits.TwoOutstandingBreak | context-runtime/include/chimaera/task.h:872-894 | With two outstanding subtasks the code itself has a run in which a parent passes await_resume of a subtask that has not even started |
| AwaitLimits.AwaitIsSoundIff | context-runtime/include/chimaera/task.h:872-894 | After any run, a coroutine that awaits a subtask can on no way of going on consume it before it is complete, exactly when it has no other outstanding subtask, or the awaited one has ended and its event is ahead of the others' |
| AwaitLimits.StepKeeps | context-runtime/src/worker.cc:994-1029 | While the parent sleeps after such an await, no enabled step whatever, disciplined or not, lets it consume the subtask early |
| Waking.SleepersWakeInDiscipline | context-runtime/src/worker.cc:994-1029 | After any run that leaves no running coroutine with two outstanding subtasks, every suspended task is resumed, on its own container and past the subtask it waits for, by some disciplined continuation; so every other task keeps its one place and can be woken in the same way |
| Waking.TwoOutstandingStick | context-runtime/include/chimaera/task.h:872-894 | A running coroutine with two outstanding subtasks is still running with both after any disciplined run, so it never gives its worker back |
| Lineage.SleepersCanWake | context-runtime/src/worker.cc:994-1029 | After any run at all, every suspended task can be resumed like that on some enabled way of going on, which may lose or strand other tasks |
| Driving.Finish | context-runtime/src/worker.cc:346-422 | From wherever a subtask is queued, held, or sent, some steps bring it to its end and queue its event for its parent's worker, leaving chosen sleepers asleep; other tasks may be lost on the way |
| Driving.Rouse | context-runtime/src/worker.cc:994-1029 | A parent at the head of an intact chain of awaited subtasks can be woken, with a chosen task spared from completing |
| CompletionRuns.TasksConserved | context-runtime/src/worker.cc:346-422 | On every disciplined run, so with resolvable queries, each unfinished task is in exactly one place (one index of one queue, one worker's hand, or suspended), and a finished one in none |
| Conservation.StepConserves | context-runtime/src/worker.cc:673-749 | No action but a zero yield and a task given up unresolved, in either variant of EndTask, loses or duplicates a task when the event it pops is live |
| CompletionRuns.StepInv | context-runtime/src/worker.cc:776-878 | Every disciplined action keeps the invariant that ties records, heap, events, queues and awaiting parents together |
| SchedulerLimits.DisciplineIsExact | context-runtime/src/worker.cc:776-878 | From any reachable state an enabled step keeps this model's invariant (Completion.Inv) if and only if it is disciplined |
| SchedulerLimits.ZeroYieldLosesTask | context-runtime/src/worker.cc:736-744 | From any conserving state, a zero-microsecond yield leaves an unfinished task in no place at all |
| SchedulerLimits.UnresolvedIsLost | context-runtime/src/ipc_manager.cc:2164-2176 | From any conserving state, a task whose query resolves to nothing ends up unfinished and in no place at all |
| SchedulerLimits.RejectStrandsParent | context-runtime/src/worker.cc:371-392 | In any reachable state, refusing a subtask that is awaited completes it while no event will ever name it |
| SchedulerLimits.PeriodicReturnIff | context-runtime/modules/admin/src/admin_runtime.cc:916-946 | In any reachable state, the return of a periodic task from the network keeps the invariant exactly when it is processed on the worker that sleeps the task |
| NetworkLimits.StrayReturnBreaks | context-runtime/src/worker.cc:1210-1246 | A run whose only undisciplined step is such a return on another worker ends with an event queued for an idle worker while the parent it names is running elsewhere |
| Accounting.AccountsBalance | context-runtime/src/worker.cc:700-714 | On every disciplined run: load summed over workers is the sum of the predictions of started, unended tasks, and work summed over containers is their number less the tasks ended without having started, plus exactly what restarts from the retry queue left behind, however tasks change worker or container |
| Accounting.BooksAreExactIff | context-runtime/modules/admin/src/admin_runtime.cc:916-946 | The work counters are exact exactly when restarts of started tasks and ends without a start cancel out, the loads exactly when no prediction was left behind (by arithmetic from AccountsBalance) |
| SchedulerLimits.RetryBalancesIff | context-runtime/src/worker.cc:1167-1208 | In any balanced state, running a non-periodic task from the retry queue leaves the balance as it is exactly when the task had not started |
| Accounting.PlugIsFinal | context-runtime/src/pool_manager.cc:265-274 | Once a container is plugged, the set of tasks admitted to it never grows again on any disciplined run, but for periodic tasks that come back from the network onto it |
| Accounting.NetReturnAdmitsIff | context-runtime/modules/admin/src/admin_runtime.cc:916-946 | A return from the network adds to the tasks admitted to a container exactly when the task is periodic, is returned onto it, and was not on it before |
| Accounting.RunsOnPluggedWereAdmitted | context-runtime/src/ipc_manager.cc:2251-2273 | Whatever runs on a plugged container after any run had been admitted to it before the plug, or is a periodic task returned onto it since |
| ContainerBooks.StepKeepsBooksIff | context-runtime/src/worker.cc:687-695 | In any reachable state with every container's counter right, a step keeps them all right exactly when it neither binds a live non-periodic task to another container (by routing, by a resume from hand, blocked queue or event, by a return) nor starts one again |
| ContainerBooks.OwnTasks | context-runtime/src/worker.cc:700-714 | On every run without such a step each container's counter is the number of its own live non-periodic tasks less those that ended on it without having started |
| ContainerBooks.ResumeKeepsBooksIff | context-runtime/src/worker.cc:687-695 | Resuming a task from a worker's hand keeps every single container's work counter right exactly when the repeated look-up finds nothing or the container the task was on |
| ContainerBooks.EndKeepsBooks | context-runtime/src/worker.cc:776-814 | Ending a task on the container it holds keeps each container's own counter right |
| PlugLimits.PlugWaitMissesAdmitted | context-runtime/src/pool_manager.cc:265-274 | A run from the start in which a container is plugged, its counter is zero, and a task routed to it before is then started on it |
| PlugLimits.PluggedIsQuietIff | context-runtime/src/pool_manager.cc:265-274 | After any run, no way of going on that returns nothing onto a plugged container runs anything there, exactly when no task bound to it runs, waits, is blocked, or is routed and in a lane or in hand; such tasks are among those admitted |
| ContainerBooks.PluggedAndEmptyIsQuiet | context-runtime/src/pool_manager.cc:265-274 | Once no unfinished task holds a plugged container, no disciplined run has a task running on it again but a periodic one returned onto it |
| Workers.Runtime.ExecTask | context-runtime/src/worker.cc:673-749 | In place: binds the container, starts or resumes, and books load and work, as the transition system's Enter |
| Workers.Runtime.EndTask | context-runtime/src/worker.cc:776-878 | In place, as the transition system's End: settles the books, and answers by the task's flags. Periodic: back to sleep, unstarted. Fire-and-forget: deleted. For another node or a network client: last of the net queue, neither complete nor deleted. For a shared-memory client: complete and deleted. For a live parent: its event last of that worker's queue, not complete. Else complete |
| Workers.Runtime.ProcessEvent | context-runtime/src/worker.cc:994-1029 | In place: completes the future, follows its parent pointer and resumes what lives there |
| Workers.Runtime.ProcessRetry | context-runtime/src/worker.cc:1167-1208 | In place: the front of the retry queue runs, waits again or leaves for the network |
| Workers.RetriedIsStep | context-runtime/src/worker.cc:1167-1208 | Each outcome for a retry entry is one enabled action of the transition system |
| Workers.Runtime.RouteHere | context-runtime/src/ipc_manager.cc:2237-2293 | In place: a routed task keeps the worker, goes to another lane or to the retry queue |
| Answers.ReturnAnswers | context-runtime/src/worker.cc:810-877 | The same of a coroutine that returns, in the transition system |
| Answers.NetReturnAnswers | context-runtime/modules/admin/src/admin_runtime.cc:916-946 | The same of a task whose outputs come back from another node |
| Answers.EveryTaskIsAnswered | context-runtime/src/worker.cc:810-877 | On every disciplined run: only what owes the network an answer is in its reply queue; a finished task is not periodic; if it owed the network an answer it was in that queue; one for a shared-memory client is complete and deleted, one without parent complete, and one whose parent has not seen it has its event waiting there |
| Itinerary.StepGoes | context-runtime/src/ipc_manager.cc:2237-2328 | Every step that handles a task moves that one entry and no other: from which queue to the back of which, for every way of routing, retrying, taking, yielding and refusing |
| Itinerary.NewTasksGo | context-runtime/src/ipc_manager.cc:2538-2572 | A new task is last in the lane chosen, as asked for; a subtask carries its parent's address |
| Itinerary.RunnersAreRouted | context-runtime/src/worker.cc:346-422 | On every disciplined run, what runs, is suspended, or is in a blocked, retry or outgoing queue has been routed |
| Itinerary.SleepersAreRoutedAgain | context-runtime/src/worker.cc:963-982 | A task taken from a periodic queue stays in hand, not running, over any disciplined steps until its worker routes or refuses it |
| WorkerBooks.WorkerLoads | context-runtime/src/worker.cc:700-714 | On every disciplined run each single worker's load is the predictions of its own live tasks plus what takeovers, restarts and returns elsewhere have left on it |
| WorkerBooks.StepKeepsLoadsIff | context-runtime/src/worker.cc:788-789 | From a reachable state with every load right, a step keeps them right exactly when it takes no live task over from another worker, starts none again and ends none for another worker, but with prediction zero |
| Routing.SplitRange | context-runtime/src/ipc_manager.cc:2482-2511 | The loop yields the pieces of the closed-form partition, with 32-bit offsets; their number is the least for pieces of at most K containers, capped at K, but one for each container if the range has at most K, K is 1, or the 32-bit sum wraps |
| Routing.PiecesTile | context-runtime/src/ipc_manager.cc:2494-2509 | Pieces are non-empty, contiguous, cover the range and differ in size by at most one, the longer ones first |
| Routing.FewestIsUnique | context-runtime/src/ipc_manager.cc:2485-2492 | No other number of pieces fits that description, and fewer would have to be longer than K |
| Routing.PiecesAreTiles | context-runtime/src/ipc_manager.cc:2482-2511 | The resolved queries, from any one on, lie end to end over the rest of the range and each is smaller than the whole, even when the 32-bit sum wraps |
| Routing.FanOutIff | context-runtime/src/ipc_manager.cc:2485-2492 | The fan-out is at most K exactly when the range has at most K containers, or K is at least 2 and the 32-bit sum does not wrap |
| Routing.DepthBound | context-runtime/src/ipc_manager.cc:2445-2512 | Without wrap and with K at least 2, a range of at most K^d containers is down to single containers within d rounds |
| Routing.ResolveRangeQuery | context-runtime/src/ipc_manager.cc:2445-2512 | The empty, single and split cases of range resolution against one node's tables, with that number of pieces |
| Routing.ResolvingProgresses | context-runtime/src/ipc_manager.cc:2331-2374 | Whatever is sent to another node is strictly nearer to running, for every query and every tables, so resolution from node to node terminates |
| Routing.RangeReachesEachOnce | context-runtime/src/ipc_manager.cc:2445-2512 | On agreeing tables, with any split width per node, a range reaches the node of each of its containers exactly once and in order |
| Routing.BroadcastCovers | context-runtime/src/ipc_manager.cc:2514-2530 | A broadcast runs once per container of the pool, on that container's node |
| Routing.DirectReaches | context-runtime/src/ipc_manager.cc:2382-2403 | A DirectId task runs once, on the owner |
| Routing.HashReaches | context-runtime/src/ipc_manager.cc:2405-2443 | A DirectHash task runs once, on the owner of hash mod count |
| Routing.OneHostRunsOnce | context-runtime/src/ipc_manager.cc:2188-2200 | On a cluster of one, any query runs once, however many containers it names; an empty range runs nowhere |
| Routing.NamedNodeReaches | context-runtime/src/ipc_manager.cc:2202-2228 | A local query runs here on the default container; a dynamic one here and a physical one on its node, on container 0 if that is there; a physical one for an unknown node nowhere |
| Routing.UnmappedGoesToZero | context-runtime/src/pool_manager.cc:647-679 | A container no table mentions is looked for on node 0 |
| Routing.EmptyPoolRunsNowhere | context-runtime/src/ipc_manager.cc:2405-2443 | In a pool without known containers a hash or broadcast stays as it is and reaches no node |
| Routing.DirectContainerIff | context-runtime/src/ipc_manager.cc:2237-2249 | A DirectId task runs on the named container exactly when it did not travel, the id is 0, or the owner hosts no container 0 and defaults to this one |
| Routing.HashContainerIff | context-runtime/src/ipc_manager.cc:2237-2249 | A DirectHash task runs on its container exactly when it travelled, or under the same two exceptions |
| Routing.SplitRuns | context-runtime/src/ipc_manager.cc:2445-2512 | Every element of a split range arrives at its container's node as a range of one |
| Routing.RangeContainerIff | context-runtime/src/ipc_manager.cc:2237-2249 | It runs on its own container exactly when that is container 0, or the node hosts no container 0 and defaults to it |
| Routing.UnresolvedIff | context-runtime/src/ipc_manager.cc:2331-2374 | A query resolves to nothing exactly for a null pool id or an empty range |
| Routing.RunsNowhereIff | context-runtime/src/ipc_manager.cc:2164-2188 | On agreeing nodes that know the pool a task runs nowhere exactly when its range is empty or it names a node that is not there |
| Forwarding.ForwardingBound | context-runtime/src/ipc_manager.cc:2437-2441 | Under any interleaving of hops, migrations and late table updates, at most one hop more than the migrations missed at the start and made on the way; the task stops exactly on the owner of the moment |
| Forwarding.ForwardingEnds | context-runtime/src/ipc_manager.cc:2437-2441 | Once migrations stop, hopping reaches the owner within the version gap plus one |
| Forwarding.HashRunsAt | context-runtime/src/ipc_manager.cc:2405-2443 | The code's route ends two table look-ups from the origin |
| Forwarding.HashReachesOwnerIff | context-runtime/src/ipc_manager.cc:2382-2443 | On tables that stay as they are it ends on the owner exactly when it started there or the first relay's table is current; missing one migration is always harmless |
| Forwarding.IdReachesOwnerIff | context-runtime/src/ipc_manager.cc:2382-2403 | On tables that stay as they are an explicit id ends on the owner exactly when the origin's table is current |
| Forwarding.HashFindsOwnerIff | context-runtime/src/ipc_manager.cc:2382-2443 | With migrations and table updates going on while the task travels: it runs on the owner of that moment exactly when it stops at one of its first two nodes or the second one's table, read on arrival, names the owner of the moment it gets there; one migration, missed or on the way, is harmless |
| Forwarding.IdFindsOwnerIff | context-runtime/src/ipc_manager.cc:2382-2403 | Likewise for an explicit id, with the first table alone |
| Forwarding.StaleRelayMisses | context-runtime/modules/admin/src/admin_runtime.cc:398-440 | For every number of missed migrations from two on there is a cluster whose hashed task runs on a node the container has left |
| PoolRegistry.NamesStayUnique | context-runtime/src/pool_manager.cc:461-600 | On every run of creations interleaved at their suspension, destroys and container changes: no two pools share a name, and a container is destroyed once if its creation failed and never otherwise |
| PoolRegistry.FailureRollsBack | context-runtime/src/pool_manager.cc:568-590 | On every run that destroys no pool under creation, whatever is registered or unregistered meanwhile: a failed create removes the entry it made and no other, and destroys its container for the first time |
| PoolRegistry.FailureIsOwnIff | context-runtime/src/pool_manager.cc:568-590 | On every run, destroys included: a failed create leaves no entry of its own, and touches no other's exactly when the entry under its id is gone or is the one it made; otherwise a pool vanishes whose container was never destroyed |
| PoolRegistry.FailureLosesNoContainer | context-runtime/src/pool_manager.cc:568-590 | If nobody registers or unregisters in a pool under creation either, the removed entry held the creation's own container only |
| PoolRegistry.GetOrCreate | context-runtime/src/pool_manager.cc:461-473 | On every run that destroys no pool under creation: as long as a creation is suspended, asking for its name again returns its id and changes nothing |
| PoolRegistry.CreateAnswers | context-runtime/src/pool_manager.cc:424-566 | Exactly when a request enters a pool, gets an existing one, or is refused for its id; a taken name comes first, and no other answer leaves a trace in the table |
| PoolRegistry.RegisteredIsFound | context-runtime/src/pool_manager.cc:140-235 | From any state, a registered container is found under its id after any operations that do not register or unregister that id or destroy the pool |
| PoolRegistry.CreatedIsFound | context-runtime/src/pool_manager.cc:208-235 | So is the container a creation built, under its node's number, in a pool with the name, module, parameters and size asked for |
| PoolRegistry.UnknownFindsCreated | context-runtime/src/pool_manager.cc:208-235 | An id that is not registered finds the container the pool was created with, until that one is unregistered, and it stays the static one until another is registered so |
| PoolRegistry.LookupFailsIff | context-runtime/src/pool_manager.cc:208-235 | On every run a look-up fails exactly for an unknown pool, and container c of a pool of that size is mapped to node c |
| PoolRegistry.DestroyDuringCreateStealsEntry | context-runtime/src/pool_manager.cc:602-628 | Destroying a pool under creation and recreating its id lets the first failure remove the second pool while its container lives on |
| PoolRegistry.UnregisteredStillFoundIff | context-runtime/src/pool_manager.cc:164-235 | A look-up of an unregistered id still returns that container exactly when it was the default, the static and the last one here |
| PoolRegistry.PoolManager.CreatePool | context-runtime/src/pool_manager.cc:424-566 | The part before the suspension: validation, get-or-create by name and id, and roll-back of every early failure |
| PoolRegistry.PoolManager.FinishCreate | context-runtime/src/pool_manager.cc:568-590 | The part after it |
| PoolRegistry.PoolManager.FindPoolByName | context-runtime/src/pool_manager.cc:297-311 | Finds a pool of that name, and answers none only if there is none |
| PoolRegistry.PoolManager.GetContainer | context-runtime/src/pool_manager.cc:208-235 | The container registered under that id, else the pool's default, and none for an unknown pool |
| PoolRegistry.PoolManager.UnregisterContainer | context-runtime/src/pool_manager.cc:164-190 | Removes one container, and re-elects the default only if it was the default |
| PoolRegistry.PoolManager.InitAddressMap | context-runtime/src/pool_manager.cc:398-422 | Container c starts on node c, for exactly the pool's containers |
| Wal.RecordRoundTrip | context-runtime/src/pool_manager.cc:739-744 | The 28 little-endian bytes of a record decode to the record, for all field values |
| Wal.Layout | context-runtime/src/pool_manager.cc:739-744 | Each of the 28 bytes: the fields' order, and the lowest byte first |
| Wal.TornReplay | context-runtime/src/pool_manager.cc:749-787 | A log cut at any byte replays to the map after exactly its complete records |
| Wal.ReplayMeans | context-runtime/src/pool_manager.cc:771-786 | Replay keeps the set of pools and leaves each container at its last record, else where it was |
| Wal.ReplayIdempotent | context-runtime/src/pool_manager.cc:749-787 | Replaying a log over its own result changes nothing |
| Wal.FileOrderIrrelevant | context-runtime/src/pool_manager.cc:765-788 | When each pool's records are in one file, every directory order gives the same tables |
| Wal.Recovery | context-runtime/modules/admin/src/admin_runtime.cc:1882-1911 | After any migrations, a crash that cuts each file anywhere, and replay in any order, each pool's table is the initial one after its complete records; uncut, it is the table at the crash |
| Wal.LogTellsHistory | context-runtime/modules/admin/src/admin_runtime.cc:1882-1911 | For any migrations the log says what was asked for, and each old node is that of the container's last record before, at first that of the table, and 0 if unknown |
| Wal.AppendAfterTear | context-runtime/src/pool_manager.cc:726-744 | What is read back when any records are logged after a tear: earlier records are safe, as many are read behind them as were logged, and they are the logged ones exactly when the torn bytes followed by the new ones spell the new ones, always so at a record boundary |
| Wal.TornAppendMisreads | context-runtime/src/pool_manager.cc:726-744 | A one-byte tear turns the next migration to node 2 into one to node 512 |
| Wal.AddressTables.ReplayFile | context-runtime/src/pool_manager.cc:771-787 | The read loop with its fail bit applies exactly the complete records |
| Wal.AddressTables.ReplayAddressTableWAL | context-runtime/src/pool_manager.cc:749-787 | Replays every listed file in turn, and counts the complete records |
| Wal.AddressTables.ChangeAddressTable | context-runtime/modules/admin/src/admin_runtime.cc:1882-1911 | Logs the change, with the old node, before applying it, and logs it even for an unknown pool |
| ClientProtocol.ClientSafety | context-runtime/include/chimaera/ipc_manager.h:661-890 | On every run: no key is both pending and answered, a pending call is neither complete nor freed, and a Recv that returned true decoded the answer to its own call, however often it was resent |
| ClientProtocol.LateAnswersTouchNothing | context-runtime/src/ipc_manager.cc:1982-2034 | An answer completes its own pending call, and otherwise changes nothing but the network |
| ClientProtocol.ReuseIsSafeIff | context-runtime/include/chimaera/ipc_manager.h:667-669 | In any reachable state, reusing a task's address as net key: on every continuation each Recv that returns true has decoded the answer to its own call, exactly when no server may still answer an earlier call with that key and no such answer is under way |
| ClientProtocol.NoCallIsStuck | context-runtime/include/chimaera/ipc_manager.h:720-890 | After every run, whatever was lost, late or given up: a call that has not finished can still finish with the answer to itself, by waiting on or by being resent |
| ClientProtocol.StepInv | context-runtime/include/chimaera/ipc_manager.h:843-890 | Every critical section and flag access, the three parts of a resend included, keeps the map and flag invariant |
| ClientProtocol.Client.OnResponse | context-runtime/src/ipc_manager.cc:2011-2034 | In place: store the archive, set the flag, remove the pending entry, or drop the answer |
| ClientProtocol.Client.EraseForResend | context-runtime/include/chimaera/ipc_manager.h:849-858 | In place: both maps forget the key |
| CoLocks.MutexExcludes | context-runtime/include/chimaera/comutex.h:58-87 | With the lock code cut at every access to holder_ and the inner lock, in every interleaving: one chain holds the mutex, depth_ is its count of unreleased Locks, and the inner lock is taken exactly while a chain holds, takes or releases it |
| CoLocks.MutexReenters | context-runtime/include/chimaera/comutex.h:58-87 | The holding chain re-enters without waiting, and only its last Unlock starts the release |
| CoLocks.StepsAreMethods | context-runtime/include/chimaera/comutex.h:58-87 | Uninterrupted, those steps are Lock and Unlock |
| CoLocks.CoMutex.TryLock | context-runtime/include/chimaera/comutex.h:69-79 | Succeeds for the holder or when the inner lock grants it, and otherwise changes nothing |
| CoRwLocks.WritersExclude | context-runtime/include/chimaera/corwlock.h:82-117 | In every interleaving of nested use: while a chain writes no other has the lock, the depths are its outstanding reads and writes, and a reading chain holds the inner lock once per read |
| CoRwLocks.OutermostReleases | context-runtime/include/chimaera/corwlock.h:111-117 | Under nested use the inner lock is given back exactly by the outermost release |
| CoRwLocks.LockStepsAreMethods | context-runtime/include/chimaera/corwlock.h:82-109 | From every reachable state the uninterrupted steps are ReadLock and WriteLock |
| CoRwLocks.UnlockStepsAreMethods | context-runtime/include/chimaera/corwlock.h:91-117 | ... and ReadUnlock and WriteUnlock |
| CoRwLocks.GivenBackIsFree | context-runtime/include/chimaera/corwlock.h:91-117 | On every run, when all chains have given back what they took, the lock is as new |
| CoRwLocks.LastReleaseDecides | context-runtime/include/chimaera/corwlock.h:91-117 | A writing chain that releases everything in any order frees the lock exactly when its last release is a write release |
| CoRwLocks.LostLock | context-runtime/include/chimaera/corwlock.h:111-117 | For every order that ends in a read: holder_ stays with both depths zero, no other chain can take the lock for reading or writing in that state, and the releasing chain frees it if it writes and releases once more |
| CoRwLocks.CoRwLock.ReadUnlock | context-runtime/include/chimaera/corwlock.h:91-98 | A nested read comes off the depth, any other off the inner lock |
| TaskIdentity.ChainsShareIdentity | context-runtime/src/chimaera_manager.cc:66-111 | Every task carries pid, tid, major and node of the root of its spawn chain |
| TaskIdentity.RootsCollideIff | context-runtime/include/chimaera/types.h:453-459 | Two roots look alike exactly when one thread, or two threads that had the same ids one after the other, had drawn equally many ids before them, up to whole rounds of the 32-bit counter |
| TaskIdentity.SameIdIff | context-runtime/src/chimaera_manager.cc:66-111 | Two tasks have the same whole id exactly when their roots look alike and the threads that made them had drawn equally many ids, up to whole rounds |
| TaskIdentity.OneThreadDiffers | context-runtime/src/chimaera_manager.cc:66-111 | Tasks made by one thread have different ids as long as its counter does not wrap |
| TaskIdentity.TwoThreadsAgree | context-runtime/src/chimaera_manager.cc:82-95 | Two threads that spawn in one chain, each for the first time, make two tasks with the same id |
| TaskIdentity.OwnersIff | context-runtime/src/types.cc:65-77 | Two tasks are one lock owner exactly when they are on one worker and their roots look alike in that way |
| TaskIdentity.OwnersAreChains | context-runtime/src/types.cc:65-77 | As long as no counter wraps and no thread id is given out again, two tasks are one lock owner exactly when they share worker and root |
| TaskIdentity.ReusedThreadCollides | context-runtime/src/chimaera_manager.cc:66-111 | Without the second premise the first tasks of two unrelated threads are one owner |
| TaskIdentity.HoldersCollide | context-runtime/include/chimaera/comutex.h:42-87 | In every interleaving, two tasks that hold a CoMutex at once are on one worker and their roots look alike |
| TaskIdentity.UnrelatedChainsExclude | context-runtime/include/chimaera/comutex.h:42-87 | With both premises, in every interleaving, two tasks that hold a CoMutex at once share worker and root |
| TaskIdentity.CreateTaskId | context-runtime/src/chimaera_manager.cc:66-111 | Draws one counter value and copies the running task's id, or makes a root |
| Sockets.SendV | context-transport-primitives/src/socket_posix.cc:96-140 | The gathering loop over an in-place buffer array refines a flat send of the first 64 buffers towards the length of all |
| Sockets.FlatSendSafe | context-transport-primitives/src/socket_posix.cc:96-140 | For every sequence of partial writes, interrupts and retries the wire holds a prefix of the data, and all of it on success |
| Sockets.FlatSendEnds | context-transport-primitives/src/socket_posix.cc:113-139 | Without failures, as many writes as bytes are enough |
| Sockets.SendErrsIff | context-transport-primitives/src/socket_posix.cc:113-139 | A send gives up exactly when a write or the wait for room fails before all is sent, with nothing on the wire after that |
| Sockets.SendCanSucceedIff | context-transport-primitives/src/socket_posix.cc:102-108 | Some behaviour of the kernel lets SendV succeed exactly when no byte lies beyond the 64th buffer |
| Sockets.RecvExact | context-transport-primitives/src/socket_posix.cc:142-161 | Fills the buffer with exactly the bytes taken off the stream and touches nothing behind them |
| Sockets.FlatRecvSafe | context-transport-primitives/src/socket_posix.cc:142-161 | 0 exactly when len bytes were consumed, EAGAIN only with none |
| Sockets.RecvErrsIff | context-transport-primitives/src/socket_posix.cc:142-161 | A receive gives up exactly when a read or the wait for the rest fails, or the peer closes, before the frame is complete |
| Sockets.RecvAgainIff | context-transport-primitives/src/socket_posix.cc:142-161 | It returns EAGAIN exactly when there is nothing to read at first |
| Sockets.SendThenReceive | context-transport-primitives/src/socket_posix.cc:96-161 | A send reported complete, whatever follows it, is received whole by a receive of its length that returns 0 |
| Sockets.FramesArrive | context-transport-primitives/src/socket_posix.cc:142-161 | Whatever the kernel answers, the frames received at any time are the first of those sent, unchanged and in order |
| Sockets.AllFramesArrive | context-transport-primitives/src/socket_posix.cc:142-161 | Without failures, all frames arrive once as many receives as there are frames have found something to read, however many others found nothing |
| PeriodicQueues.NoStarvation | context-runtime/src/worker.cc:1031-1092 | The context at position p of a queue is examined within f * (p/8 + 1) iterations, f = 4, 8, 64, 128, from any point of the cycle and whatever keeps being queued |
| PeriodicQueues.DueRunsInTime | context-runtime/src/worker.cc:930-1092 | On every careful run a context that is due whenever its queue is looked at has run, not only been examined, within that bound |
| PeriodicQueues.SleepsUntilDue | context-runtime/src/worker.cc:960-989 | On every careful run a sleeping context sleeps on in its queue with its period and stamp, or has run, for the first time not more than 2 ms before its stamp plus its period |
| PeriodicQueues.RunsApart | context-runtime/src/worker.cc:970-989 | One that ran and sleeps again does not run before its period has passed since, but for 2 ms |
| PeriodicQueues.LooksOnlyOnTurn | context-runtime/src/worker.cc:1067-1091 | In other iterations than every 4th, 8th, 64th or 128th a queue is only appended to |
| PeriodicQueues.PutToSleep | context-runtime/src/worker.cc:1126-1160 | A context with a period is last of the queue for such periods, with a stamp at most 10 ms old; nothing else changes |
| PeriodicQueues.SleepsItsPeriod | context-runtime/src/worker.cc:1126-1160 | So from when it goes to sleep it does not run for its period less 12 ms |
| PeriodicQueues.BucketsHold | context-runtime/src/worker.cc:1094-1161 | On every run in which only awake contexts are put to sleep, each sleeping context is in the bucket of its period |
| PeriodicQueues.SuspendsForeverIff | context-runtime/src/worker.cc:424-456 | There is no suspend period exactly when all queues are empty |
| PeriodicQueues.SuspendWithinBucket | context-runtime/src/worker.cc:424-456 | The suspend period is the front's of the lowest non-empty queue and within the bound of the fastest context's bucket |
| PeriodicQueues.SuspendIsShortestIff | context-runtime/src/worker.cc:424-456 | It is the minimum over all contexts exactly when that front is the fastest of its queue |
| PeriodicQueues.FastOneBehind | context-runtime/src/worker.cc:438-447 | A 40 ms context in front of a 0.3 ms one makes the worker sleep 40 ms |
| PeriodicQueues.Worker.ProcessPeriodicQueue | context-runtime/src/worker.cc:930-992 | Of the first eight, those whose time has come run at that time; the others do not, keep period and stamp, and go behind all that waited behind the eight |
| PeriodicQueues.Worker.AddToBlockedQueue | context-runtime/src/worker.cc:1131-1160 | Bucket by period, time stamp renewed only when stale |
| PeriodicQueues.Worker.GetSuspendPeriod | context-runtime/src/worker.cc:424-456 | The least period among the fronts, none if all queues are empty |
| Membership.MembershipHolds | context-runtime/src/ipc_manager.cc:827-1012 | On every proper run: ids are 0 to n-1, dead_nodes_ lists each dead node once and nothing else, a valid cache is a permutation of the table, the leader is the least alive id or 0 |
| Membership.LastEventDecides | context-runtime/src/ipc_manager.cc:827-1012 | On every proper run each node is in the state in which the last event naming it put it, under the address it was listed or added with |
| Membership.AddressesUnique | context-runtime/src/ipc_manager.cc:991-1012 | If no hostfile repeats an address, no two nodes ever have the same, however often nodes are added |
| Membership.StepKeepsIff | context-runtime/src/ipc_manager.cc:827-1012 | From any good table an operation gives a good table exactly when it is proper |
| Membership.LoadKeepsIff | context-runtime/src/ipc_manager.cc:827-867 | Reloading the hostfile keeps the table good exactly when no node is dead, readable or not |
| Membership.SetStateKeepsIff | context-runtime/src/ipc_manager.cc:969-975 | A direct state change keeps it exactly when it does not enter or leave the dead state |
| Membership.IpcManager.GetLeaderNodeId | context-runtime/src/ipc_manager.cc:979-987 | The least id of an alive host, or 0 if there is none |
| Membership.IpcManager.AddNode | context-runtime/src/ipc_manager.cc:991-1012 | A known address is marked alive under its old id, a new one gets the next id |
| Membership.IpcManager.GetAllHosts | context-runtime/src/ipc_manager.cc:895-909 | A valid cache is returned as it is; otherwise it becomes each host once |
| PoolQueryText.RoundTrip | context-runtime/src/pool_query.cc:122-178 | Mode and parameters of every query survive printing and parsing |
| PoolQueryText.TimedRoundTripIff | context-runtime/src/pool_query.cc:50-120 | A query with its network timeout survives exactly when the timeout is the default, and two queries print alike exactly when they differ in the timeout at most |
| PoolQueryText.ToStringInjective | context-runtime/src/pool_query.cc:159-178 | No two queries of different mode or parameters print alike |
| PoolQueryText.RangeText | context-runtime/src/pool_query.cc:140-149 | A printed range with numbers of any size parses to them modulo 2^32, or fails from 2^64 on |
| PoolQueryText.TenToAPlace | context-runtime/src/pool_query.cc:159-178 | Numbers are printed with the ten digits, each place worth ten of the next |
| PoolQueryText.TextDecidesMode | context-runtime/src/pool_query.cc:122-157 | For every text: it is a mode without number exactly when it is that word in any case; any other mode's text starts with its name; all else is a format error |
| PoolQueryText.CaseIrrelevant | context-runtime/src/pool_query.cc:122-126 | Texts that differ in the case of letters only parse alike |
| PoolQueryText.SignedText | context-runtime/src/pool_query.cc:134-152 | Spaces and a sign before a number and any text after it are accepted; a negative one wraps modulo 2^32 |
| PoolQueryText.IdText | context-runtime/src/types.cc:45-59 | A dotted id with numbers of any size is read modulo 2^32, or fails from 2^64 on |
| PoolQueryText.IdTextIsExactIff | context-runtime/src/pool_query.cc:134-136 | A decimal id is read back exactly when it fits 32 bits; up to 2^64 it is truncated silently |
| PoolQueryText.IdRoundTrip | context-runtime/src/types.cc:45-63 | Every unique id survives printing and parsing |
| PoolQueryText.IdToStringInjective | context-runtime/src/types.cc:61-63 | No two unique ids print alike |
| LoadModel.Container.ReinforceCpuModel | context-runtime/include/chimaera/container.h:208-219 | Whatever coefficient the prediction was made with, the method's coefficient moves by the learning rate times the difference between the observed and the predicted cost ratio; other methods and the other model are untouched |
| LoadModel.Container.ReinforceWallModel | context-runtime/include/chimaera/container.h:225-236 | The same for wall-clock time |
| LoadModel.MovedStaysIff | context-runtime/include/chimaera/container.h:208-219 | An observation keeps the coefficient within a range, for every ratio in the range, exactly when the rate times the prediction's distance from each end is at most the coefficient's distance from that end |
| LoadModel.NextEndStaysIff | context-runtime/src/worker.cc:791-799 | The same on every run of overlapping tasks, for the next one to end |
| LoadModel.OverlapsStay | context-runtime/src/worker.cc:791-799 | However tasks overlap, the coefficient and all stored predictions stay within the range of the ratios while every ending task meets that condition |
| LoadModel.BatchStaysIff | context-runtime/src/worker.cc:708-712 | n tasks predicted together and observed with one ratio leave the coefficient between its old value and that ratio exactly when n times the rate is at most 1 |
| LoadModel.SixMakeItNegative | context-runtime/include/chimaera/container.h:111 | With the default rate six overlapping tasks of no cost turn the coefficient 1 into -0.2 |
| LoadModel.StaleStepApproachesIff | context-runtime/include/chimaera/container.h:208-219 | A step from any prediction comes nearer the observed ratio exactly when the prediction erred to the side the coefficient errs to, by less than twice the coefficient's error over the rate |
| LoadModel.StaysInHull | context-runtime/include/chimaera/container.h:182-219 | Over any run of tasks each predicted with the current coefficient, it stays within the range of its start and the ratios observed |
| LoadModel.ErrorDecays | context-runtime/include/chimaera/container.h:182-219 | For a constant cost, each time predicted with the current coefficient, the error after n steps is exactly (1 - rate)^n times the first |
| LoadModel.EstimateIsMean | context-runtime/include/chimaera/container.h:213-218 | The error estimate stays in the range of the relative errors of the tasks with positive cost, takes nothing else into account, and approaches a constant one by (1 - rate)^n |
| LoadModel.StepApproachesIff | context-runtime/include/chimaera/container.h:182-219 | A step predicted with the current coefficient comes nearer the observed ratio exactly when the rate is between 0 and 2, and does not overshoot up to 1 |

## Left out

- Scheduler.Next: the scheduler's theorems are about a transition system on values, because they are about interleavings of several workers; update in place is shown for single operations in Workers, while pointer aliasing is kept as the explicit heap of reused addresses.
- Scheduler.NewTask: a task has no container until RouteLocal binds one; BeginTask (`context-runtime/src/ipc_manager.cc:2083-2103`) already stores the pool's static container, before any plug check, and RouteLocal replaces it. So fewer tasks count as admitted here than would by that pointer; nothing runs on a container in between, and the conclusions are about running.
- Scheduler.Enter: the predicted load is booked when a coroutine starts; the code books it when the first segment returns, and nothing reads it in between.
- Workers.Runtime.ProcessEvent: handles one future; the code's loop is the repetition of this step, with the resumed coroutine running in between.
- Lineage.SleepersCanWake: the way of going on it builds may take steps outside the discipline (a zero yield, an unresolved task given up, a return with subtasks outstanding), which lose or strand other tasks; Waking has the disciplined form.
- AwaitLimits.AwaitIsSoundIff: the ways of going on that show an await unsound include such steps too.
- Waking.SleepersWakeInDiscipline: says that a suspended task can be woken, not that it will be; that depends on coroutine bodies and on the network. It is not claimed that no task can be woken while some coroutine has two subtasks outstanding.
- PlugLimits.PluggedIsQuietIff: the ways of going on include steps outside the discipline, such as a zero yield; whether disciplined steps alone can reach a task depends on what its coroutine bodies do.
- Scheduler.Disciplined: runs in which a periodic task comes back on another worker are outside the completion theorems, because their conclusion is false there (StrayReturnBreaks).
- Routing.Deliver: messages always arrive; dead hosts, send retries and the force-network flag are not modelled, and a message to an unknown node is dropped as in the code.
- Routing.RunHere: premise that the pool has a default container on each node that runs one of its tasks; without one RouteLocal puts the task in the retry queue (`context-runtime/src/ipc_manager.cc:2251`), which Scheduler has.
- Forwarding.Step: premise that the source and the destination of a migration know of it; everyone else may learn late or never.
- PoolQueryText.TimedQuery: the return node, which printing loses as well, is set by resolution and not by the factories.
- PoolRegistry.Begin: the code before the suspension runs without another worker in the registry, which has no lock of its own.
- Wal.Recovery: the set of pools is the same at the crash and at replay; the time stamp is carried but never compared, as in the code.
- ClientProtocol.Next: no switch to another host, which clears both maps, and no shared-memory completion after the server died; net keys are reused only when no earlier call may still be answered, and ReuseIsSafeIff shows why.
- CoLocks.Do: one access to holder_ is one step, so torn reads of its five fields are not modelled; owners are not the null id; the inner lock is a plain lock that may refuse a TryLock; deadlock freedom is not claimed.
- CoRwLocks.Can: releases nest; LastReleaseDecides covers the other orders for a single chain.
- TaskIdentity.OwnersAreChains: premises are that no thread draws 2^32 ids, that the system gives no (process, thread) id on a node to two threads that create tasks, and non-zero process ids; RootsCollideIff and OwnersIff do without the first two.
- TaskIdentity.UnrelatedChainsExclude: the same premises; HoldersCollide does without the first two.
- PeriodicQueues.Iterate: the four polling queues only; a context without a period leaves this model for the blocked queues, which Scheduler has. Times are reals and queue entries are not null.
- Membership.Load: parsing of the hostfile is its result; clocks and cached connections are not modelled.
- LoadModel.Learn: reals instead of floats, so no rounding.
- LoadModel.StaysInHull: premise that each prediction was made with the coefficient it corrects, as when tasks of a method do not overlap; OverlapsStay and NextEndStaysIff do without.
- LoadModel.ErrorDecays: the same premise; BatchStaysIff covers tasks that all overlap.
- LoadModel.StepApproachesIff: the same premise; StaleStepApproachesIff does without.
- Event queues have no capacity; the code gives them 1024 entries.
- Choice of worker (RuntimeMapTask), adaptive polling (AdjustPolling) and what coroutine bodies do are choices of an action.
- ZeroMQ, shared-memory rings, epoll, serialised task formats, module loading, GPU lanes, configuration, logging, the command line, the Python tools and the other components of the repository.
- Windows sockets: the same loops with another system call.
