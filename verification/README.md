# serverlessd: a verified model of its actors

serverlessd is three levels of actors. One serverless task takes requests from clients, `n_threads` pods each hold a
table of `n_workers` slots, and each slot holds a worker that runs a script. Every request carries a one-shot reply.
This project models the actors, their queues and their hand-written data structures, and proves what their clients
rely on. V8, HTTP and the file system are parameters.

## How it is laid out

| files | what they model |
|---|---|
| `SlotAllocator` | the slot vector and the stack of free ids of a pod (`pod/core.rs`): functions, runs, and the class `Pod` that updates them in place |
| `CodeStore` | the store of worker sources (`serverless/code_store.rs`): a map from names to code, its history, and the class `Store` |
| `ReplierTable`, `WorkerState` | the replier table (`worker/state.rs`): a specification on values, and the classes `Cell` and `State`, in which the table and the promise callbacks share cells |
| `WorkerTask` | a worker's event loop and its close (`worker/task.rs`), a class over `WorkerState.State` |
| `StateLifetime` | the hand-written reference count of the worker state |
| `Monitor` | the CPU-time monitor and its lossy tick channel (`worker/monitor.rs`), in nanoseconds |
| `Protocol` | the whole actor system as a step system: a step is what one actor does between two awaits |
| `PodInvariant`, `DispatchInvariant`, `Placement`, `Delivery`, `Progress` | what every step keeps: inside a pod, between the serverless task and its pods, about answers, about deliveries, and a measure that every step lowers |
| `Causes` | the steps that settle requests, write entries, change files and answer cells, named by what they find, and the same over runs |
| `Queues` | the bounds of the queues, and when senders wait |
| `System` | the results about every run of the step system, from its start, under every interleaving |
| `PodTask`, `Runtime` | the pod's and the serverless task's own loops, awaits included, against arbitrary behaviour of everything else |
| `Wrappers` | options, and facts about distinct sequences |

A run is any sequence of steps: clients send, a signal arrives, the serverless task, a pod or a worker takes a turn, a
monitor sends its halt, a promise callback runs, a worker finishes closing. A step that is not possible when its turn
comes is refused, so every statement about `Reached(...)` is one about every interleaving. Queues have the bounds of
the program (512 for the serverless task, 64 for pods and workers): a sender waits for room, and that wait is a state
of its own. Finding a vacancy and creating the worker are separate round trips, with anything in between.

The imperative modules keep the program's shape. `WorkerTask.Task` does to a heap of cells what `Protocol.WorkerStep`
does to a value; `PodTask.Task` does the same for `Protocol.PodStep`; `Runtime.Serverless` holds the
serverless task's own store, queue, one-shots and answers and does to them what `Protocol.ServerlessStep` does, while
every await lets the rest of the system take any steps from a schedule. A signal that comes
while a trigger is handled stays due until the loop takes it. In the specifications,
`outcome`, `started` and `written` are what V8, the start of the environment and the file system answer.

## Where the code and its documentation differ

The model follows the code.

- `Monitoring::tick` is documented with a limit of 30 ms; the code gives each slice 100 ms.
- The budget is announced as ten seconds; `as_secs() > 10` holds from eleven seconds on (`Monitor.OverBudgetIs`).
- "You must tick back when the work is done": the promise callback ticks once and never back, a fetch under way leaves
  the monitor one tick out of step until it ends, and a tick that meets a pending one is dropped. A waiting worker is
  left alone exactly if these three are together even in number, and every slice was in time and in budget
  (`Monitor.SparedExactly`, `WorkerTask.WaitingWorkerIsSpared`). So a worker that has answered one request, or waits for
  one slow fetch, is ended unless an odd number of its ticks was lost (`Monitor.OneUnpairedTickEndsTheWorker`), and a call
  that begins while the monitor is armed runs unwatched (`Monitor.EndlessCallIsWatched`).
- `unwrap_or({...})` evaluates its block every time, so a recycled id also pushes an empty slot. Nothing removes
  workers now, and then this does not show (`SlotAllocator.EagerAgreesWithLazy`); with removals the slots outgrow the
  number that was asked for (`SlotAllocator.EagerOutgrows`, `SlotAllocator.RecyclingExceedsTheBound`).

## Model

| member | source | states |
|---|---|---|
| System.PlacementIsSequential | src/runtime/serverless/core.rs:94-143 | In every run, a creation is answered with a place iff its name had code at its turn and fewer than n_threads * n_workers creations had succeeded; the k-th success gets (k / n_workers, k % n_workers), and its worker was made from the last successful upload of the name |
| System.LogFollowsArrival | src/runtime/serverless/task.rs:57-87 | Triggers are finished in the order in which the queue accepted them; what is unfinished is the one in hand and the queue |
| System.CheckThenActIsSafe | src/runtime/pod/task.rs:12-19 | Although checking and creating are separate messages, at most one creation is under way in all pod queues, it is last in its queue, and its pod still has a vacancy; no slot vector grows past its capacity |
| System.OrderIsKept | src/runtime/serverless/task.rs:72-76 | For each worker the accepted requests are, in order, those settled, in its queue, in its pod's hands and queue, in the serverless task's hands and queue; those kept in cells are exactly its registrations |
| System.PlaceStaysGood | src/runtime/pod/core.rs:79-97 | A place that was given out holds the worker that its creation made, for as long as the pod serves, and requests with these ids are forwarded to it |
| System.OnePlaceForEachReply | src/runtime/serverless/handle.rs:61-73 | Every reply sender ever made is in exactly one place: settled once, or in exactly one queue or hand |
| System.CellsAnswerOnce | src/runtime/worker/task.rs:216-289 | The replies in a worker's cells are pairwise different, each is pending or was answered exactly once, and none is pending after the close |
| System.FinishedMeansHalted | src/runtime/serverless/task.rs:95-107 | When everything is joined, every pod has stopped with an empty slot vector, every worker got exactly one halt from its pod and has left its loop, and every accepted request is settled |
| System.PodsHaltInTurn | src/runtime/serverless/core.rs:109-115 | While pod i is being halted, the pods before it have stopped with all workers gone and the ones after it are untouched; pod i reports only when each of its workers has resolved its token |
| System.ShutdownTerminates | src/runtime/pod/task.rs:27-43 | After the signal the actors take a bounded number of steps, whatever clients, monitors and scripts do, and they are stuck only when everything is halted and joined |
| System.RequestsAreAllServed | src/runtime/serverless/task.rs:41-92 | Without new requests the system comes to rest after a bounded number of steps, and then every accepted request is settled |
| System.RestIffStuck | src/runtime/pod/task.rs:28-38 | During a shutdown no actor can move exactly when the serverless task has finished: no halt waits forever |
| System.RunKeepsInv | src/runtime/serverless/task.rs:15-93 | The full invariant holds along every run |
| System.EveryReplyIsAddressed | src/runtime/serverless/handle.rs:61-70 | Each reply sender belongs to one request, addressed to one worker |
| Causes.StepSettlesExactly | src/runtime/worker/task.rs:216-289 | A step settles a request with a given fate iff it finds the reason for that fate: kept or spent by the call's outcome, discarded behind the event that made the worker leave, refused by a worker that is gone, or addressed to nothing |
| Causes.EverySettlementHasItsCause | src/runtime/pod/task.rs:21-25 | Over every run each settled request was settled by a step that found the reason for its fate |
| Causes.OnlyGoneWorkersLoseRequests | src/runtime/worker/task.rs:216-291 | Over every run a request is refused or dropped only by a worker that has left its loop, or at the very end by the serverless task |
| Causes.StepWritesExactly | src/runtime/serverless/task.rs:60-85 | A step writes an entry iff it finds what the entry says; an upload's entry carries what the file system said to that very turn, and an error iff the name is invalid or the write failed |
| Causes.EveryEntryHasItsTurn | src/runtime/serverless/task.rs:60-85 | Over every run each entry of the log was written by a turn that found what it says |
| Causes.FilesChangeExactly | src/runtime/serverless/code_store.rs:59-80 | After a step a name has exactly the code that the step uploads, or the one it had if the step neither uploads nor removes it |
| Causes.StepAnswersExactly | src/runtime/worker/task.rs:264-271 | A step answers a cell iff the cell is pending and its callback runs with that text, or its worker closes and the text is empty |
| Causes.EveryAnswerHasItsCause | src/runtime/worker/state.rs:163-178 | Over every run each answer is the value with which the callback of a pending cell ran, or the empty string given at the close |
| Causes.MonitoredWorkerLeaves | src/runtime/worker/monitor.rs:238-240 | Over every run a worker that its monitor halts has left, or has the halt before it in its queue; at rest it has left |
| Causes.MonitorHaltArrives | src/runtime/worker/monitor.rs:238-240 | The monitor's halt goes to the end of the queue of a worker that has not left, and changes nothing else |
| Queues.QueuesAreBounded | src/runtime/pod/core.rs:20 | Over every run no queue exceeds 512 for the serverless task, 64 for a pod and 64 for a worker |
| Queues.SendersWaitForRoom | src/runtime/pod/task.rs:23 | A sender can go on iff the queue before it is below its bound, or its receiver is gone |
| PodInvariant.StoppedPodHasHaltedWorkers | src/runtime/pod/task.rs:28-41 | A pod reports that it has stopped only after each worker got one halt and acknowledged it or dropped the token |
| PodInvariant.HaltWaitIsOnWorker | src/runtime/pod/task.rs:31-37 | While a pod waits, its halt is in the queue of a worker that still runs, or the wait is over: it never waits for a token it holds itself |
| PodInvariant.PodStepKeeps | src/runtime/pod/task.rs:10-45 | Every step of a pod keeps slot i the handle of worker i, the halts counted, and workers behind the halt gone |
| PodInvariant.WorkerStepKeeps | src/runtime/worker/task.rs:113-293 | Every step of a worker keeps its replier table in order and the pod's halt at most once sent; the worker is gone afterwards iff its environment failed to come up, a halt arrived, the handler's call failed, or its callback could not be built; otherwise it runs on with what remains of its queue |
| PodInvariant.WorkerStepMoves | src/runtime/worker/task.rs:215-289 | Exactly what a step does to phase, queue, acknowledged halts, swept slots and registered replies, by kind of event and outcome |
| PodInvariant.MonitorHaltKeeps | src/runtime/worker/monitor.rs:238-240 | A monitor's halt beside a pod's halt breaks neither: whichever is left in the queue is resolved when the receiver goes away |
| DispatchInvariant.NextKeepsDispatch | src/runtime/serverless/task.rs:57-87 | Every step keeps the conversation between the serverless task and its pods: the only control message under way is the one waited for |
| DispatchInvariant.ControlFindsRoom | src/runtime/pod/task.rs:16-19 | When a pod takes a creation from its queue it has a vacancy, and a halt is the last message it takes |
| Placement.NextKeepsTruthful | src/runtime/serverless/task.rs:60-85 | Every step keeps the files, the answers and the places those of a sequential reading of the log |
| Placement.FillNext | src/runtime/serverless/core.rs:94-101 | First fit fills the pods in order: one more creation goes to the first pod with room and nowhere else |
| Delivery.NextKeepsRouted | src/runtime/pod/task.rs:21-25 | Every step keeps, for every worker of every pod, the order of its requests across both hops |
| Delivery.WorkerStepSettles | src/runtime/worker/task.rs:216-289 | A worker settles requests from the front of its queue and registers exactly the kept ones |
| Delivery.PodStepSettles | src/runtime/pod/task.rs:21-43 | A pod loses and duplicates no request: what it had under way is settled, handed on, or still there, in order |
| Delivery.DropPodQueueSettles | src/runtime/pod/task.rs:40-45 | A pod's dropped queue settles exactly its requests, in order |
| Progress.TaskStepWorks | src/runtime/serverless/task.rs:41-106 | Every step of an actor lowers the measure of outstanding work |
| Progress.OutsideStepWorks | src/runtime/worker/monitor.rs:238-240 | Clients, monitors and callbacks cannot raise the measure of a shutdown |
| Progress.BusyPodCanMove | src/runtime/pod/task.rs:10-45 | A pod with something to do, or one of its workers, can always take a step |
| Progress.ServerlessCanMove | src/runtime/serverless/task.rs:57-106 | While the serverless task awaits, some actor can take a step: its waits never deadlock |
| Progress.RestIsComplete | src/runtime/serverless/task.rs:41-106 | If nothing can move, all queues are empty and nothing is in anyone's hands: no halt, the monitor's included, is left waiting in a queue |
| Runtime.Serverless.FindVacancy | src/runtime/serverless/core.rs:94-101 | The loop stops at the first pod with a vacancy: all pods before it are full and it is not; without a result all are full |
| Runtime.Serverless.CreateWorker | src/runtime/serverless/core.rs:137-143 | Find, then create: the answer is the sequential place, whatever else happens meanwhile |
| Runtime.Serverless.HandleTrigger | src/runtime/serverless/task.rs:58-87 | One trigger is handled to its end: a creation is answered with the sequential place iff its name has code; a request ends last in the queue of its pod, if there is one; an upload reaches the store with what the file system says and is answered by that and its name alone; a removal leaves the name without code |
| Runtime.Serverless.HandleUpload | src/runtime/serverless/task.rs:78-81 | The answer is an error iff the name is invalid or the write failed; without one the name then reads as the uploaded text, with one the files are unchanged |
| Runtime.Serverless.Halt | src/runtime/serverless/core.rs:109-115 | Each pod gets its halt after the one before has sent its token; the loop terminates with every pod stopped |
| Runtime.Serverless.CloseServerless | src/runtime/serverless/task.rs:95-107 | Halts every pod in turn and then joins them; it terminates, and every pod has stopped |
| Runtime.Serverless.Serve | src/runtime/serverless/task.rs:41-92 | The event loop: it closes the system iff a signal comes, also one that comes while a trigger is handled; everything told to clients is the sequential answer; it ends with every pod stopped, or idle with all triggers handled |
| Runtime.Serverless.Await | src/runtime/pod/handle.rs:35-52 | Waiting for a reply ends, against every schedule, and leaves the serverless task's own state alone |
| PodTask.Task.Serve | src/runtime/pod/task.rs:9-46 | On any queue the pod's answers have a closed form: a vacancy iff fewer workers exist than the vector has room for, which is n until more than n are created; the k-th worker gets id k; nothing behind the first halt is taken. For every worker the requests settled and queued grow by exactly those in the pod's queue, in order |
| PodTask.Task.HandleCheckVacancies | src/runtime/pod/task.rs:12-14 | The answer is whether fewer workers exist than the vector has room for, and the state is that of the step system |
| PodTask.Task.HandleCreate | src/runtime/pod/task.rs:16-19 | With or without room the new worker gets the next number, and the state is that of the step system |
| PodTask.Task.HandleToWorker | src/runtime/pod/task.rs:21-25 | The request is in the end last in its worker's queue, or refused, or settled for want of a worker; for every worker the requests settled and queued grow by just this one |
| PodTask.Task.HandleHalt | src/runtime/pod/task.rs:27-43 | The drain loop terminates whatever the workers do; then every worker got one halt, is gone and has no queue, the slots are empty, and every request queued before is settled, those behind the halt included |
| PodTask.Task.HaltOne | src/runtime/pod/task.rs:28-38 | One round: the worker got the halt, has left, and has settled what was in its queue |
| PodTask.MoveIsStep | src/runtime/worker/task.rs:216-289 | What the pod's workers do while it awaits is what the system's steps do to them |
| PodTask.MoveConserves | src/runtime/worker/task.rs:216-289 | Whatever a worker does, its requests are settled or still queued, in order, and those kept are those registered |
| PodTask.Task.Await | src/runtime/pod/task.rs:31-37 | Waiting for room or for a token ends, against every schedule, and loses no request |
| PodTask.StepsShrinkBacklog | src/runtime/worker/task.rs:216-227 | Each step of a worker, a failed start included, shortens what stands between it and the halt in its queue |
| SlotAllocator.Create | src/runtime/pod/core.rs:90-97 | The id never names a live worker and afterwards names the new one; free ids stay distinct, in range and empty |
| SlotAllocator.EagerRun | src/runtime/pod/core.rs:52-76 | Under any mix of creations and removals, slots count the creations and orphaned slots count the recycled ids |
| SlotAllocator.EagerShape | src/runtime/pod/core.rs:52-64 | Exactly what one creation changes: one slot more, also when an id was recycled, and the popped id gone from the free ones |
| SlotAllocator.LazyRun | src/runtime/pod/core.rs:48-76 | An allocator that grows only when no id is free keeps live + free = slots <= n and orphans nothing |
| SlotAllocator.EagerAgreesWithLazy | src/runtime/pod/core.rs:52-58 | The code goes through the states of the lazy allocator iff no id was ever recycled |
| SlotAllocator.EagerOutgrows | src/runtime/pod/core.rs:48-58 | The code outgrows the n slots iff some creation is let in by a free id while all n slots are there |
| SlotAllocator.RemovalIsSound | src/runtime/pod/core.rs:66-76 | A removal, which checks nothing, keeps the free ids distinct, in range and empty iff the id was not free already; the id of a live worker never is |
| SlotAllocator.RecyclingExceedsTheBound | src/runtime/pod/core.rs:52-58 | A concrete run in which a pod of one slot ends with two and offers more |
| SlotAllocator.CreateOnlyRun | src/runtime/pod/core.rs:48-64 | Without removals the slots fill from the front, one per creation, all of them occupied, up to n |
| SlotAllocator.Pod.GetNextWorkerId | src/runtime/pod/core.rs:52-58 | In place: the id names an empty slot that exists, and no live worker |
| SlotAllocator.Pod.PutWorker | src/runtime/pod/core.rs:60-64 | In place: the id then leads to this worker and every other id where it led before; vacancy is unchanged; the free ids stay sound iff the id is not among them |
| SlotAllocator.Pod.RemoveWorker | src/runtime/pod/core.rs:66-76 | In place, for any id: tells whether it is in range; the slot is empty and its id offered; the free ids stay sound iff it was not free before |
| SlotAllocator.Pod.CreateWorker | src/runtime/pod/core.rs:90-97 | In place: the specified slot is filled and the free ids stay sound |
| CodeStore.ReadIsLastUpload | src/runtime/serverless/code_store.rs:59-86 | A source is read iff the last operation that touched its name was a successful upload of it, or none did and it was there before |
| CodeStore.LastTouchDecides | src/runtime/serverless/code_store.rs:59-80 | The last operation that touches a name decides what it holds, whatever comes before or happens to other names |
| CodeStore.AllowedCharCodes | src/runtime/serverless/code_store.rs:16 | The characters of valid names are the digits, the ASCII letters, the hyphen and the full stop |
| CodeStore.Store.UploadWorkerCode | src/runtime/serverless/code_store.rs:59-74 | In place: no error iff the name is valid and the write succeeded; an error changes nothing |
| CodeStore.Store.RemoveWorkerCode | src/runtime/serverless/code_store.rs:77-80 | In place: the name has no code from now on, this being the last operation that touched it, and every other name keeps its own |
| CodeStore.Store.GetWorkerCode | src/runtime/serverless/code_store.rs:83-86 | Over the whole history of the store: the text of the last successful upload of the name with no later removal, or of the file that was there from the start |
| ReplierTable.FirstFree | src/runtime/worker/state.rs:131-136 | The least index whose slot is free |
| ReplierTable.CleanupKeeps | src/runtime/worker/state.rs:117-126 | The sweep empties exactly the slots of answered cells and moves nothing |
| ReplierTable.RegisterKeeps | src/runtime/worker/state.rs:128-160 | A registration overwrites no pending cell: slots stay pairwise distinct, each pending cell stays in one |
| ReplierTable.TableLengthIsPeak | src/runtime/worker/state.rs:117-161 | After any run the table is exactly as long as the largest number of requests ever unanswered at once |
| ReplierTable.UnansweredStaysInPlace | src/runtime/worker/state.rs:117-161 | A pending cell stays at its index over any later run |
| ReplierTable.AnsweredForGood | src/runtime/worker/task.rs:264-271 | A cell that was answered never becomes pending again |
| ReplierTable.AnswersComeFromCallbacks | src/runtime/worker/task.rs:260-273 | An answer before the drop is the value of the first callback of its cell |
| ReplierTable.FlushCompletes | src/runtime/worker/state.rs:163-178 | The destructor gives the empty string to every pending cell and to no other; then every cell has exactly one answer |
| ReplierTable.EveryReplierAnsweredOnce | src/runtime/worker/state.rs:163-178 | Over a whole life every registered reply is answered exactly once: with the value of its first callback, or by the destructor with the empty string, rejected promises included |
| WorkerState.State.CleanupDeadRepliers | src/runtime/worker/state.rs:117-126 | In place, over shared cells: the loop is the specified sweep |
| WorkerState.State.GetNextReplierIdx | src/runtime/worker/state.rs:128-149 | In place: the least free slot after a sweep, pushed only if all are taken |
| WorkerState.State.AddReplier | src/runtime/worker/state.rs:155-160 | In place: the slot points at the new cell and no other slot changes |
| WorkerState.State.Register | src/runtime/worker/task.rs:247-250 | In place: boxing, finding a slot and filling it are the specified registration |
| WorkerState.State.RunCallback | src/runtime/worker/task.rs:264-271 | Emptying the cell through the callback's own pointer is the specified firing, and the table stays valid |
| WorkerState.State.Drop | src/runtime/worker/state.rs:163-178 | The drain loop is the specified flush |
| WorkerTask.Task.HandleEvent | src/runtime/worker/task.rs:216-289 | One round of the loop on shared cells does what the step system says of the worker |
| WorkerTask.Task.HandleHttp | src/runtime/worker/task.rs:229-287 | The branches of an HTTP event: no handler, failed call, plain value, promise, failed callback; their cells and exits, no tick without a handler, one tick before each call, and one after each call that returns |
| WorkerTask.CallIsTicked | src/runtime/worker/task.rs:232-239 | By outcome: the ticks of a request, that the handler's call comes right after a tick, and that each call that returns counts as one dispatch |
| WorkerTask.OtherTurnsTick | src/intrinsics/fetch.rs:149-190 | By turn: the ticks of callbacks and of first, middle and last polls, and the fetches under way |
| WorkerTask.CallIsWatched | src/runtime/worker/task.rs:232-234 | A call of the handler that does not return is ended by the monitor, unless at the tick that precedes it the monitor was armed and every slice was in time and in budget |
| WorkerTask.FreshIsStarted | src/runtime/worker/task.rs:113-215 | A worker in its loop is a new worker whose environment came up |
| WorkerTask.Task.RunCallback | src/runtime/worker/task.rs:258-272 | A callback ticks, and answers its own cell if that is still pending |
| WorkerTask.Task.Serve | src/runtime/worker/task.rs:216-289 | The loop is the fold of the turns, until a halt or a failure ends it |
| WorkerTask.Task.CloseState | src/runtime/worker/task.rs:297-304 | Callbacks and fetches still run, and may start more fetches; the flush comes exactly when no fetch is left |
| WorkerTask.Task.PollFetch | src/intrinsics/fetch.rs:149-190 | In place: the ticks of one poll of a fetch task, by whether it begins and whether it ends |
| WorkerTask.Task.TakeEvent | src/runtime/worker/task.rs:216-219 | In place: the first event leaves the queue and the table is swept |
| WorkerTask.EveryRequestIsAccounted | src/runtime/worker/task.rs:216-289 | In order, the requests a worker's queue accepted are those it settled and those still queued; its table registered the kept ones |
| WorkerTask.HandlersHold | src/runtime/worker/task.rs:253-283 | Callback k holds cell k; only a callback that could not be built leaves its cell without one |
| WorkerTask.ClosedWorkerAnswersAll | src/runtime/worker/task.rs:74-89 | After the close each kept request has exactly one answer: the value that its callback was first called with, or the empty string if the callback never ran or never existed |
| WorkerTask.TicksAreThoseOfActivities | src/runtime/worker/task.rs:232-262 | A worker in its loop has sent exactly the ticks of its calls, callbacks and fetch polls; fetches begun are fetches ended plus those under way |
| WorkerTask.WaitingWorkerIsSpared | src/runtime/worker/monitor.rs:206-231 | Over any life of a worker and any behaviour of the tick channel: a waiting worker is left alone iff callbacks run, fetches under way and ticks lost are together even in number, and every slice was in time and in budget |
| StateLifetime.CountLaw | src/runtime/worker/state.rs:32-103 | In every run the strong count is the lent count (while not reclaimed) + the worker's own handles + those of callbacks + those of live fetches |
| StateLifetime.DereferenceIsSafe | src/runtime/worker/state.rs:77-87 | Whoever follows the raw pointer finds a count of at least one, the destructor not run and the isolate alive |
| StateLifetime.DestroyedOnce | src/runtime/worker/task.rs:297-304 | The destructor runs at most once, exactly when the count reaches zero, after the pointer was reclaimed, the tracker emptied and the isolate dropped |
| StateLifetime.EveryRunCanFinish | src/runtime/worker/task.rs:74-89 | From every reachable state the count can reach zero: nothing leaks |
| StateLifetime.WorkShrinks | src/intrinsics/fetch.rs:149-190 | Only entering script code or starting a fetch puts off the end |
| StateLifetime.SharedState.GetFromIsolate | src/runtime/worker/state.rs:77-87 | In place: the count is raised before the handle exists |
| StateLifetime.SharedState.SpawnFetch | src/intrinsics/fetch.rs:149-190 | In place: a fetch holds a handle of its own and is tracked |
| StateLifetime.SharedState.FinishFetch | src/intrinsics/fetch.rs:187-190 | In place: the end of a fetch gives back its handle |
| StateLifetime.SharedState.SaveHandle | src/runtime/worker/task.rs:109 | In place: the task keeps a second handle |
| StateLifetime.SharedState.ReturnFromLoop | src/runtime/worker/task.rs:80-84 | In place: the loop's own handle goes, the saved one stays and nothing is destroyed |
| StateLifetime.SharedState.OpenFromIsolate | src/runtime/worker/state.rs:93-96 | In place: takes the lent handle back once, without changing the count |
| StateLifetime.SharedState.WaitClose | src/runtime/worker/state.rs:100-103 | In place: comes back iff the fetches run out, also when fetches start more fetches; the number left is told by what their polls do |
| StateLifetime.SharedState.CloseState | src/runtime/worker/task.rs:297-304 | In place: iff the fetches run out it ends with count zero and one run of the destructor; else it still waits with fetches under way |
| Monitor.MonitorWorkerTask | src/runtime/worker/monitor.rs:206-231 | The loop, on any ticks: it gets through exactly the slices that met the 100 ms deadline and began below 11 s, and ends for the reason that the declarative verdict gives |
| Monitor.ChargedIsBounded | src/runtime/worker/monitor.rs:207-224 | The charged time only grows and stays below 11 s + 100 ms |
| Monitor.BudgetEnds | src/runtime/worker/monitor.rs:209-213 | If every slice costs at least d, there are at most ceil(11 s / d), and after that many the next tick ends the worker |
| Monitor.OverBudgetIs | src/runtime/worker/monitor.rs:210 | The test on whole seconds is met from eleven seconds on |
| Monitor.IdleWorkerIsSpared | src/runtime/worker/monitor.rs:209-231 | With an open channel and no more ticks, the monitor leaves a worker alone iff its ticks came in pairs and every slice was in time and in budget |
| Monitor.ChannelIsLossy | src/runtime/worker/monitor.rs:68 | Each tick sent is delivered, lost or the one pending tick, and the delivered ones arrive in the order of sending |
| Monitor.LostBehindPending | src/runtime/worker/monitor.rs:158-160 | In every run a tick is lost iff another one is pending at the moment it is sent |
| Monitor.PollsKeepPhase | src/runtime/worker/monitor.rs:148-164 | Over any run of polls, between moments at which all ticks are received, the monitor's phase is kept iff an even number of ticks is lost |
| Monitor.DrainedPollsKeepPhase | src/runtime/worker/monitor.rs:148-164 | If each tick of the polls is received before the next is sent, the phase is kept and nothing is lost |
| Monitor.DrainedRunsLoseNothing | src/runtime/worker/monitor.rs:158-160 | If each tick is received before the next is sent, none is lost |
| Monitor.TicksArePaired | src/runtime/worker/monitor.rs:177-194 | The number of ticks that a worker's activities send has the parity of answers and fetches begun or ended |
| Monitor.SparedExactly | src/runtime/worker/monitor.rs:206-231 | For any activities, any order of sending and receiving, and any times: a worker that then rests is left alone iff answers, fetches begun or ended, and lost ticks are together even in number, and every slice was in time and in budget |
| Monitor.OneUnpairedTickEndsTheWorker | src/runtime/worker/task.rs:262 | A worker with one unpaired tick, from one answer or from one fetch under way, is left alone iff an odd number of its ticks is lost and every slice was in time and in budget |
| Monitor.EndlessCallIsWatched | src/runtime/worker/monitor.rs:209-230 | A call that never returns is ended by the monitor, unless the monitor was already armed when the call began and every slice so far was in time and in budget: then it runs unwatched |

## Left out

- V8, script compilation, intrinsics and HTTP: a call of the fetch handler is one of five outcomes, and promises settle at any time or never.
- The HTTP server, its routes and the JWT check, the command line and packaging.
- The other two exits of the event loop, when the HTTP server ends or every client handle is dropped: they leave without halting the pods.
- Files on disk: names are keys of a map, so a removal or a read under a name that is not valid and spells the path of another file is not modelled; an upload is whole or fails and changes nothing; the regular expression is the predicate on its characters.
- `ServerlessHandle.trigger` with arbitrary pod messages: clients send what the handle's own methods send. Nothing else in the program sends creations, vacancy checks or halts to a pod.
- `halt_pod`, which nothing calls, and sends to a pod that has stopped, which no run reaches.
- Real threads and wake-ups: a step is atomic between two awaits, and every statement holds for all orders of steps. Progress results bound the number of steps; that a scheduler runs each ready actor is an assumption.
- The end of a pod's thread cancels what its local tasks still do: in the model a worker that has left its loop may still close after its pod has stopped. `System.ShutdownTerminates` covers the pods and the joins, not the fetches of such a worker.
- A monitor that cannot be started (`create_injected` returning nothing) is one of the failed starts of a worker.
- Monitor: timers are exact, a tick at the deadline counts as in time, and durations do not overflow. The monitor's last halt is a step of the system, not of the loop method.
- StateLifetime: the count is modelled apart from the table; that the destructor is the flush joins the two.
- PollsKeepPhase: says when polls keep the phase; how often a real schedule loses ticks is not modelled.
- Leaked boxes of answered repliers, logging, and memory layout.
- RemoveWorker: taking the handle out of an empty slot is undefined behaviour in the source; the model lets it take nothing and go on.
- ShutdownTerminates: a call of script code is one step, so it assumes that each call ends, by itself or because the monitor terminates it; `Monitor.EndlessCallIsWatched` says when the monitor does.
