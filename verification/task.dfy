/**
 The task data model: the task record, the event that carries it, the
 container configuration derived from it, and the result the container runtime
 hands back. The runtime itself is not modelled; each of its answers is an
 outcome value chosen by the caller, and `DockerRun`/`DockerStop` turn that
 outcome into the result record exactly as the runtime wrapper does on each of
 its return paths.
 */
module Tasks {
  import opened Wrappers
  import opened TaskState

  /** A 128-bit UUID read as an unsigned integer; only equality between identifiers matters to the worker. */
  newtype Uuid = x: int | 0 <= x < 0x1_0000_0000_0000_0000_0000_0000_0000_0000

  type TaskId = Uuid

  /** Wall-clock instants are opaque: the model only records which one was stamped. */
  type Timestamp = int

  /** One published host port of a container. */
  datatype PortBinding = PortBinding(hostIp: string, hostPort: string)

  /**
   A unit of work. `cpu` is a float in the source; it is only ever copied, so a
   real stands in for it.
   */
  datatype Task = Task(
    id: TaskId,
    containerId: string,
    name: string,
    state: State,
    image: string,
    cpu: real,
    memory: int,
    disk: int,
    exposedPorts: set<string>,
    hostPorts: map<string, seq<PortBinding>>,
    portBindings: map<string, string>,
    restartPolicy: string,
    startTime: Timestamp,
    finishTime: Timestamp,
    healthCheck: string,
    restartCount: int
  )

  /** A request to move a task toward `state`; its id is the event's, not the task's. */
  datatype TaskEvent = TaskEvent(id: Uuid, state: State, timeStamp: Timestamp, task: Task)

  /** The container specification derived from a task. */
  datatype Config = Config(
    name: string,
    attachStdin: bool,
    attachStdout: bool,
    attachStderr: bool,
    exposedPorts: set<string>,
    cmd: seq<string>,
    image: string,
    cpu: real,
    memory: int,
    disk: int,
    env: seq<string>,
    restartPolicy: string
  )

  /** Why an operation failed. */
  datatype Error =
    | RuntimeError(message: string)          // an error the container runtime reported
    | InvalidTransition(src: State, dst: State)
    | UnhandledState(desired: State)         // a legal transition the worker has no action for

  /** What a runtime action reports back; `error == None` is the source's nil error. */
  datatype DockerResult = DockerResult(error: Option<Error>, action: string, containerId: string, result: string)

  /** The zero-valued result: no error and every string empty. */
  const EmptyResult := DockerResult(None, "", "", "")

  /** A result carrying only an error, all other fields empty. */
  function ErrorResult(e: Error): (r: DockerResult)
    ensures r.error == Some(e)
  {
    EmptyResult.(error := Some(e))
  }

  /** The part of a task that describes what to run, as opposed to where it is in its lifecycle. */
  predicate SameSpec(a: Task, b: Task) {
    && a.name == b.name && a.image == b.image
    && a.cpu == b.cpu && a.memory == b.memory && a.disk == b.disk
    && a.exposedPorts == b.exposedPorts && a.restartPolicy == b.restartPolicy
  }

  /** Projects the container specification out of a task. */
  function NewConfig(t: Task): (c: Config)
    ensures c.name == t.name && c.image == t.image
    ensures c.cpu == t.cpu && c.memory == t.memory && c.disk == t.disk
    ensures c.exposedPorts == t.exposedPorts && c.restartPolicy == t.restartPolicy
    ensures c.cmd == [] && c.env == []
    ensures !c.attachStdin && !c.attachStdout && !c.attachStderr
  {
    Config(
      name := t.name,
      attachStdin := false,
      attachStdout := false,
      attachStderr := false,
      exposedPorts := t.exposedPorts,
      cmd := [],
      image := t.image,
      cpu := t.cpu,
      memory := t.memory,
      disk := t.disk,
      env := [],
      restartPolicy := t.restartPolicy
    )
  }

  /** Two tasks yield the same configuration exactly when they agree on their specification fields. */
  lemma NewConfigDeterminedBySpec(a: Task, b: Task)
    ensures NewConfig(a) == NewConfig(b) <==> SameSpec(a, b)
  {
  }

  /** Identity, lifecycle state, container and timestamps play no part in the configuration. */
  lemma NewConfigIgnoresLifecycle(t: Task, id: TaskId, cid: string, s: State, start: Timestamp, finish: Timestamp)
    ensures NewConfig(t.(id := id, containerId := cid, state := s, startTime := start, finishTime := finish))
            == NewConfig(t)
  {
  }

  /**
   How a create-and-start request ends: each failure names the step that
   failed, in the order the runtime wrapper attempts them, and success carries
   the new container's id.
   */
  datatype RunOutcome =
    | PullFailed(err: string)
    | CreateFailed(err: string)
    | StartFailed(err: string)
    | LogsFailed(err: string)
    | Started(containerId: string)

  /** How a stop-and-remove request ends. */
  datatype StopOutcome =
    | StopFailed(err: string)
    | RemoveFailed(err: string)
    | Removed

  /** The result the runtime wrapper returns for a start request with configuration `c`. */
  function DockerRun(c: Config, outcome: RunOutcome): (r: DockerResult)
    ensures r.error.None? <==> outcome.Started?
    ensures outcome.Started? ==>
              r.action == "Start" && r.result == "Success" && r.containerId == outcome.containerId
    ensures !outcome.Started? ==> r.error == Some(RuntimeError(outcome.err)) && r.containerId == ""
    ensures outcome.CreateFailed? || outcome.StartFailed? || outcome.LogsFailed? ==> r.result == c.name
  {
    match outcome
    case PullFailed(e) => ErrorResult(RuntimeError(e))
    case CreateFailed(e) => DockerResult(Some(RuntimeError(e)), "Create", "", c.name)
    case StartFailed(e) => DockerResult(Some(RuntimeError(e)), "Start", "", c.name)
    case LogsFailed(e) => DockerResult(Some(RuntimeError(e)), "Logs", "", c.name)
    case Started(id) => DockerResult(None, "Start", id, "Success")
  }

  /** The result the runtime wrapper returns for a stop request on container `containerId`. */
  function DockerStop(containerId: string, outcome: StopOutcome): (r: DockerResult)
    ensures r.error.None? <==> outcome.Removed?
    ensures outcome.Removed? ==> r.action == "Stop" && r.result == "Success" && r.containerId == ""
    ensures !outcome.Removed? ==> r.error == Some(RuntimeError(outcome.err)) && r.result == containerId
  {
    match outcome
    case StopFailed(e) => DockerResult(Some(RuntimeError(e)), "Stop", "", containerId)
    case RemoveFailed(e) => DockerResult(Some(RuntimeError(e)), "Remove", "", containerId)
    case Removed => DockerResult(None, "Stop", "", "Success")
  }
}
