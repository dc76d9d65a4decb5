# Mongeta worker core in Dafny

This project models the execution core of Mongeta, a small container orchestrator:

- **The task lifecycle (`TaskState`).** There are five states: Pending, Scheduled, Running, Completed and Failed. A fixed transition table lists the legal moves between them, and `ValidStateTransition` looks moves up in it.
- **The task data model (`Tasks`).**
  - A task record, the event that carries it, and the container configuration that `NewConfig` projects out of a task.
  - The result record the container runtime wrapper returns. The Docker calls themselves are abstract outcomes (`RunOutcome`, `StopOutcome`). Each outcome names the step that failed or the container that started. `DockerRun` and `DockerStop` build the result record exactly as the wrapper does on each of its return paths.
- **The worker's execution engine (`Workers`).**
  - The worker keeps a FIFO queue of tasks and a registry from task id to task.
  - `AddTask` enqueues a task. `RunTask` is one engine step:
    1. It dequeues the head of the queue.
    2. If the task's id is new, it files the task as its own baseline.
    3. It checks baseline state → queued state against the table.
    4. It dispatches on the queued state. `StartTask` handles Scheduled, `StopTask` handles Completed, and any other legal target is reported as an error.
  - `GetTasks` lists the registry.
  - `SubmitTask` and `RequestStop` are the queue-facing logic of the worker's submit and stop handlers.
- **Cross-step properties (`WorkerProperties`).** These cover:
  - FIFO order.
  - First sighting of a task.
  - Rejected and dispatched moves.
  - Terminal states being frozen.
  - The registry only moving along the transition table.
  - A whole start-then-stop lifecycle.

Everything is pure. A step is a function from a worker and a `Runtime` value to the next worker and the step's result. The `Runtime` value holds the clock reading and the runtime's answers for that step.

## Where the code and the written specification differ

The model follows the code in each case:

- **Duplicate Scheduled events.** The specification says a Scheduled event fed twice is accepted both times. In the code, the first start leaves the task Running or Failed. Neither state may move back to Scheduled, so the second copy is rejected (`ScheduledTwiceRejected`).
- **Registry after a rejected move.** The specification says an illegal move leaves the registry untouched. In the code, a task seen for the first time is filed before the check and stays filed when it is rejected (`FirstSighting`, `IllegalMoveRejected`).
- **First-sighting baseline.** The specification describes a new task as moving from a Pending-like baseline. The code uses the task itself as its baseline, so a new task is judged by the self-loop on its own state. Scheduled is accepted. Running passes the table but has no action. Pending, Completed and Failed are rejected.
- **Manager and scheduler.** The specification describes a manager with scheduling and reconciliation. In the code these are print stubs and a method-less interface, so nothing of them is modelled.

## Model

| member | source | states |
|---|---|---|
| TaskState.Code | task/task.go:22-30 | Each state carries its `iota` value; all values are below 5 |
| TaskState.FromCode | task/task.go:22-30 | An integer names a state exactly when it lies in 0..4, and then it names the state with that code |
| TaskState.AllStatesEnumerated | task/task.go:22-30 | There are exactly five distinct states, Pending=0, Scheduled=1, Running=2, Completed=3, Failed=4, and code/decode round-trips |
| TaskState.Successors | task/state.go:5-11 | Each state's successor list holds exactly the destinations the reference set `LegalTransitions` pairs with it, each listed once |
| TaskState.Contains | task/state.go:13-15 | The membership test is true iff the state occurs in the list |
| TaskState.ValidStateTransition | task/state.go:5-19 | A move is legal iff it is one of the seven pairs of the reference set `LegalTransitions` |
| TaskState.LegalPairsMatchTable | task/state.go:5-11 | The pairs the table admits, over all 25 ordered pairs, are exactly the reference set |
| TaskState.SevenLegalPairs | task/state.go:5-11 | The reference set has seven distinct pairs |
| TaskState.ExactlySevenLegal | task/state.go:5-19 | Exactly 7 of the 25 ordered pairs of states are legal transitions |
| TaskState.TerminalStatesHaveNoSuccessor | task/state.go:9-10 | No move out of Completed or Failed is legal |
| TaskState.SelfLoops | task/state.go:6-10 | A state may move to itself iff it is Scheduled or Running |
| TaskState.NothingEntersPending | task/state.go:6-10 | No state may move into Pending |
| TaskState.PendingOnlySchedules | task/state.go:6 | From Pending the only legal move is to Scheduled |
| TaskState.TransitionNeverRegresses | task/state.go:5-11 | A legal move never lowers the state code, strictly raises it unless it is a self-loop, and never starts in a terminal state |
| TaskState.ChainOnlyAdvances | task/state.go:5-11 | Any walk along legal moves ends in a state the closed-form `CanReach` admits from its start |
| TaskState.MainLineNext | task/state.go:6-8 | Each non-terminal state has a legal successor whose code is one higher |
| TaskState.ChainBetween | task/state.go:5-11 | Whenever `CanReach(a, b)` holds there is a walk of legal moves from a to b, the converse of `ChainOnlyAdvances` |
| TaskState.EveryStateReachableFromPending | task/state.go:6-8 | Every state is at the end of a walk of legal moves that starts at Pending |
| TaskState.CanReachTransitive | task/state.go:5-11 | Reachability along the table composes |
| Tasks.NewConfig | task/task.go:90-100 | The configuration copies name, image, CPU, memory, disk, exposed ports and restart policy, and leaves command and environment empty and all attach flags false |
| Tasks.NewConfigDeterminedBySpec | task/task.go:90-100 | Two tasks give equal configurations iff they agree on those seven fields |
| Tasks.NewConfigIgnoresLifecycle | task/task.go:90-100 | Id, container id, state, start and finish times do not affect the configuration |
| Tasks.DockerRun | task/task.go:113-166 | A start reports no error iff the container started, and then reports action "Start", result "Success" and the new container id; every failure carries the runtime's error and no container id |
| Tasks.DockerStop | task/task.go:168-184 | A stop reports no error iff stop and remove both succeeded, and then reports an empty container id; every failure carries the runtime's error and the container id as result |
| Workers.AddTask | worker/worker.go:121-123 | Enqueueing appends the task at the tail and touches neither the registry nor the name |
| Workers.FileFirstSighting | worker/worker.go:57-62 | A new id is filed with the task itself; a known id keeps its entry; no other entry changes and entries stay filed under their own ids |
| Workers.StartTask | worker/worker.go:82-100 | The runtime's start result is returned unchanged. The task is stored under its id with the start time set: Running in the runtime's container on success, Failed with its old container id on error. Other entries are untouched |
| Workers.StopTask | worker/worker.go:102-119 | The stop's result, including its error, is returned. The task is stored as Completed with the finish time set whether or not the stop failed. Other entries are untouched |
| Workers.Dispatch | worker/worker.go:65-73 | A move to Scheduled ends Running or Failed and one to Completed ends Completed; any other target leaves the registry as it was and reports the unhandled-state error |
| Workers.Process | worker/worker.go:57-77 | Only the dequeued task's entry can change or appear, and its new state is reachable along the table from the baseline's state |
| Workers.RunTask | worker/worker.go:44-80 | An empty queue is a no-op with no error. Otherwise exactly the head is removed and only its registry entry may change. Every entry's new state is reachable from its old one along the table, and entries stay filed under their own ids |
| Workers.RunSteps | worker/worker.go:160-173 | Successive steps never remove a registry entry |
| Workers.RunStepsDequeue | worker/worker.go:44-49 | After n steps the queue has lost exactly its first n tasks, or all of them if there were fewer |
| Workers.RunStepsAdvance | worker/worker.go:57-119 | After any number of steps every entry is still filed and its state is reachable from its earlier state |
| Workers.RunStepsWellKeyed | worker/worker.go:57-119 | After any number of steps every entry is still filed under its own task's id |
| Workers.Entries | worker/worker.go:27-33 | Walking a map lists each key exactly once, each beside the value stored under it |
| Workers.GetTasks | worker/worker.go:27-33 | The listing has one element per registry entry and holds every stored task; with entries filed under their own ids, the listed ids are distinct and each maps to its task |
| Workers.SubmitTask | worker/handlers.go:18-31 | A submitted event's task is appended to the queue and the registry is untouched |
| Workers.RequestStop | worker/handlers.go:56-59 | A stop request appends a copy of the registry entry wanting Completed, and the registry is untouched |
| WorkerProperties.AddTaskCommutesWithRunTask | worker/worker.go:121-123 | Enqueueing appends at the tail: on a non-empty queue, a step and an enqueue commute |
| WorkerProperties.StepsDequeueInOrder | worker/worker.go:44-49 | Step i acts on the i-th queued task (FIFO) |
| WorkerProperties.FirstSighting | worker/worker.go:57-62 | A new id is filed as the task itself. A new Scheduled task is started, a new Running task gets the unhandled-state error, and new Pending, Completed and Failed tasks are rejected; each remains filed |
| WorkerProperties.IllegalMoveRejected | worker/worker.go:74-77 | An illegal move reports an error naming both states, and the registry changes only by the first-sighting insert |
| WorkerProperties.LegalMoveToScheduledStarts | worker/worker.go:66-68 | A legal move to Scheduled returns the runtime's start result and stores the task with the start time: Running in the new container on success, Failed otherwise |
| WorkerProperties.LegalMoveToCompletedStops | worker/worker.go:69-70 | A legal move to Completed returns the runtime's stop result and stores the task Completed with the finish time, whatever the runtime reports |
| WorkerProperties.LegalMoveToOtherStateUnhandled | worker/worker.go:71-72 | Any other legal target is Running or Failed; it gets the unhandled-state error and the registry changes only by the first-sighting insert |
| WorkerProperties.CompletedAgainstPendingRejected | worker/worker.go:65-77 | A Completed request on a Pending entry is rejected and the registry is unchanged |
| WorkerProperties.RescheduleRejected | worker/worker.go:65-77 | A Scheduled request on an entry that is already Running or Failed is rejected and the registry is unchanged |
| WorkerProperties.ScheduledTwiceRejected | worker/worker.go:57-77 | Enqueueing the same Scheduled task twice: the second copy is rejected because Running and Failed cannot return to Scheduled |
| WorkerProperties.TerminalEntryFrozen | worker/worker.go:65-77 | A step never changes an entry that is Completed or Failed, and a request against it reports an error |
| WorkerProperties.TerminalEntryFrozenForever | worker/worker.go:160-173 | Over any number of steps, a terminal entry keeps its value |
| WorkerProperties.RegistryFollowsTheTable | worker/worker.go:57-119 | Over any number of steps, every entry's state is joined to its earlier state by a walk of legal moves and its code never decreases |
| WorkerProperties.StopOfRunningCarriedOut | worker/handlers.go:56-59 | A stop request on a Running entry returns the runtime's stop result and leaves the entry Completed with the finish time |
| WorkerProperties.StopOfIdleRejected | worker/handlers.go:56-59 | A stop request on an entry that is not Running is rejected with its state named, and the registry is unchanged |
| WorkerProperties.StopRequestOutcome | worker/handlers.go:56-59 | A stop request hands back the runtime's stop result iff the entry was Running |
| WorkerProperties.FreshTaskStarts | worker/worker.go:82-100 | A new Scheduled task whose container starts is filed Running in that container with the start time, and the step reports success |
| WorkerProperties.StartThenStop | worker/worker.go:82-119 | A new Scheduled task started in container c and then stopped ends as the same task, Completed, still naming c, with both times stamped |
| WorkerProperties.SubmitIgnoresEventFields | worker/handlers.go:18-31 | Submitting an event enqueues its task; the event's id, timestamp and target state play no part |

## Left out

- Docker client calls (`NewDocker`, the bodies of `Run`, `Stop` and `Inspect`): foreign library and I/O. Each call is an abstract outcome supplied by the caller. `Inspect` is used by no modelled code.
- The NanoCPUs conversion in `Run`: floating point, and it only feeds the runtime request. `cpu` is a real that is only copied.
- `worker/stats.go` and `CollectStats`: host statistics through a foreign library, in floating point, used by no modelled operation.
- `RunTasks`:
  - The sleep and the endless loop are not modelled. `RunSteps` models its successive iterations.
  - The lowercase `runTask` that `RunTasks` calls has the same logic as `RunTask`, apart from panicking on a non-task queue item, so one step function stands for both.
- The dynamic type check on dequeued items: the queue holds only tasks, so the "invalid type" error cannot arise.
- Log and print output.
- HTTP handlers:
  - Routing, JSON decoding and status codes are left out.
  - Only the queue-facing logic of the submit and stop handlers is kept (`SubmitTask`, `RequestStop`).
- Workers.RequestStop: requires the id to be registered. The source's handler does not return when the id is missing, and then dereferences a missing entry and panics.
- Task and event ids: a UUID is modelled as a 128-bit unsigned integer, since the worker only compares ids for equality.
- State codes outside 0..4. `State` is an integer type in the source, so such a value could arrive from JSON. It has no entry in the transition table, so every move touching it is illegal. The model's `State` type has only the five named states.
- `TaskCount`: never updated. `HealthCheck`, `RestartCount`, `HostPorts` and `PortBindings` are carried but never read.
- The manager, the scheduler interface and `main.go`: the manager's methods are print stubs and the scheduler is an interface with no implementation.
- Concurrency: the unsynchronised map access between the HTTP handlers and the drain loop. Each step is modelled as atomic.
