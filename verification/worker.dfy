/**
 The worker's execution engine: a FIFO queue of tasks waiting to be acted on
 and a registry of the tasks the worker knows about, keyed by task id. One
 `RunTask` step dequeues a task, checks the move from the registry's copy to
 the queued copy against the transition table, and starts or stops its
 container. The container runtime and the clock are not modelled: each step
 receives their answers as a `Runtime` value.
 */
module Workers {
  import opened TaskState
  import opened Tasks

  /** The worker's record of the tasks it knows about, keyed by task id. */
  type Registry = map<TaskId, Task>

  datatype Worker = Worker(name: string, queue: seq<Task>, db: Registry)

  /** What the outside world answers during one step: the clock and both runtime actions' outcomes. */
  datatype Runtime = Runtime(now: Timestamp, run: RunOutcome, stop: StopOutcome)

  /** The registry after acting on one task, together with the result the action reports. */
  datatype Effect = Effect(db: Registry, result: DockerResult)

  /** The worker after one engine step, together with the result the step reports. */
  datatype Step = Step(worker: Worker, result: DockerResult)

  /** Every registry entry is filed under its own task's id. */
  predicate WellKeyed(db: Registry) {
    forall id :: id in db ==> db[id].id == id
  }

  /** Enqueues `t`; nothing is checked until the task is dequeued. */
  function AddTask(w: Worker, t: Task): (w': Worker)
    ensures w'.queue == w.queue + [t]
    ensures w'.db == w.db && w'.name == w.name
  {
    w.(queue := w.queue + [t])
  }

  /** The registry's copy of `t`, or `t` itself when the worker sees this id for the first time. */
  function Baseline(db: Registry, t: Task): Task
  {
    if t.id in db then db[t.id] else t
  }

  /** Files `t` under its id unless the registry already holds that id. */
  function FileFirstSighting(db: Registry, t: Task): (db': Registry)
    ensures db'.Keys == db.Keys + {t.id} && db'[t.id] == Baseline(db, t)
    ensures forall id :: id in db ==> db'[id] == db[id]
    ensures WellKeyed(db) ==> WellKeyed(db')
  {
    if t.id in db then db else db[t.id := t]
  }

  /**
   Starts a container for `t` at time `now`. The task is written back to the
   registry either way: Running with the new container id on success, Failed
   on any runtime error, and the runtime's result is passed on unchanged.
   */
  function StartTask(db: Registry, t: Task, now: Timestamp, outcome: RunOutcome): (e: Effect)
    ensures e.db.Keys == db.Keys + {t.id}
    ensures forall id :: id in db && id != t.id ==> e.db[id] == db[id]
    ensures e.result == DockerRun(NewConfig(t), outcome)
    ensures var stored := e.db[t.id];
            && stored.id == t.id && SameSpec(stored, t)
            && stored.startTime == now && stored.finishTime == t.finishTime
            && (e.result.error.None? ==> stored.state == Running && stored.containerId == e.result.containerId)
            && (e.result.error.Some? ==> stored.state == Failed && stored.containerId == t.containerId)
    ensures WellKeyed(db) ==> WellKeyed(e.db)
  {
    var started := t.(startTime := now);
    var result := DockerRun(NewConfig(started), outcome);
    if result.error.Some? then
      var failed := started.(state := Failed);
      Effect(db[t.id := failed], result)
    else
      var running := started.(containerId := result.containerId, state := Running);
      Effect(db[t.id := running], result)
  }

  /**
   Stops and removes the container of `t`. The task is recorded as Completed
   with finish time `now` even when the runtime reports an error; that error
   is still returned.
   */
  function StopTask(db: Registry, t: Task, now: Timestamp, outcome: StopOutcome): (e: Effect)
    ensures e.db.Keys == db.Keys + {t.id}
    ensures forall id :: id in db && id != t.id ==> e.db[id] == db[id]
    ensures e.result == DockerStop(t.containerId, outcome)
    ensures var stored := e.db[t.id];
            && stored.id == t.id && SameSpec(stored, t)
            && stored.state == Completed && stored.finishTime == now
            && stored.containerId == t.containerId && stored.startTime == t.startTime
    ensures WellKeyed(db) ==> WellKeyed(e.db)
  {
    var result := DockerStop(t.containerId, outcome);
    var completed := t.(finishTime := now, state := Completed);
    Effect(db[t.id := completed], result)
  }

  /**
   Acts on a queued task whose move from its baseline is legal: a task wanted
   Scheduled is started, one wanted Completed is stopped, and for any other
   wanted state nothing is done and an error is reported.
   */
  function Dispatch(db: Registry, t: Task, rt: Runtime): (e: Effect)
    requires t.id in db
    ensures e.db.Keys == db.Keys
    ensures forall id :: id in db && id != t.id ==> e.db[id] == db[id]
    ensures t.state == Scheduled ==> e.db[t.id].state in {Running, Failed}
    ensures t.state == Completed ==> e.db[t.id].state == Completed
    ensures t.state != Scheduled && t.state != Completed ==>
              e == Effect(db, ErrorResult(UnhandledState(t.state)))
    ensures WellKeyed(db) ==> WellKeyed(e.db)
  {
    match t.state
    case Scheduled => StartTask(db, t, rt.now, rt.run)
    case Completed => StopTask(db, t, rt.now, rt.stop)
    case _ => Effect(db, ErrorResult(UnhandledState(t.state)))
  }

  /**
   Acts on one dequeued task. If its id is new, the task itself is filed as
   its own baseline; the move from the baseline's state to the queued state
   must be a legal transition, and a legal move is handed to `Dispatch`.
   Only the entry under the task's id can change, and its new state is
   reachable from the baseline's along the transition table.
   */
  function Process(db: Registry, queued: Task, rt: Runtime): (e: Effect)
    ensures e.db.Keys == db.Keys + {queued.id}
    ensures forall id :: id in db && id != queued.id ==> e.db[id] == db[id]
    ensures CanReach(Baseline(db, queued).state, e.db[queued.id].state)
    ensures WellKeyed(db) ==> WellKeyed(e.db)
  {
    var persisted := Baseline(db, queued);
    var db1 := FileFirstSighting(db, queued);
    if ValidStateTransition(persisted.state, queued.state) then
      TransitionNeverRegresses(persisted.state, queued.state);
      Dispatch(db1, queued, rt)
    else
      Effect(db1, ErrorResult(InvalidTransition(persisted.state, queued.state)))
  }

  /**
   One step of the execution engine: an empty queue is a no-op that reports
   no error; otherwise exactly the head of the queue is removed and processed.
   */
  function RunTask(w: Worker, rt: Runtime): (s: Step)
    ensures |w.queue| == 0 ==> s == Step(w, EmptyResult)
    ensures |w.queue| > 0 ==> s.worker.queue == w.queue[1..] && s.worker.name == w.name
    ensures |w.queue| > 0 ==> s.worker.db.Keys == w.db.Keys + {w.queue[0].id}
    ensures |w.queue| > 0 ==>
              forall id :: id in w.db && id != w.queue[0].id ==> s.worker.db[id] == w.db[id]
    ensures |w.queue| > 0 ==>
              CanReach(Baseline(w.db, w.queue[0]).state, s.worker.db[w.queue[0].id].state)
    ensures forall id :: id in w.db ==> id in s.worker.db && CanReach(w.db[id].state, s.worker.db[id].state)
    ensures WellKeyed(w.db) ==> WellKeyed(s.worker.db)
  {
    if |w.queue| == 0 then
      Step(w, EmptyResult)
    else
      var e := Process(w.db, w.queue[0], rt);
      Step(Worker(w.name, w.queue[1..], e.db), e.result)
  }

  /** Successive engine steps, one per runtime answer in `rts`; no registry entry is ever removed. */
  function RunSteps(w: Worker, rts: seq<Runtime>): (w': Worker)
    ensures w'.name == w.name
    ensures w.db.Keys <= w'.db.Keys
    decreases |rts|
  {
    if |rts| == 0 then w
    else RunSteps(RunTask(w, rts[0]).worker, rts[1..])
  }

  /** After `n` steps the queue has lost exactly its first `n` tasks, or all of them if there were fewer. */
  lemma {:induction false} RunStepsDequeue(w: Worker, rts: seq<Runtime>)
    ensures RunSteps(w, rts).queue == if |rts| <= |w.queue| then w.queue[|rts|..] else []
    decreases |rts|
  {
    if |rts| > 0 {
      var w1 := RunTask(w, rts[0]).worker;
      RunStepsDequeue(w1, rts[1..]);
      if |rts| <= |w.queue| {
        assert w1.queue[|rts| - 1..] == w.queue[|rts|..];
      }
    }
  }

  /** Over any number of steps, every entry's state stays reachable from its earlier state. */
  lemma {:induction false} RunStepsAdvance(w: Worker, rts: seq<Runtime>, id: TaskId)
    requires id in w.db
    ensures id in RunSteps(w, rts).db
    ensures CanReach(w.db[id].state, RunSteps(w, rts).db[id].state)
    decreases |rts|
  {
    if |rts| > 0 {
      var w1 := RunTask(w, rts[0]).worker;
      RunStepsAdvance(w1, rts[1..], id);
      CanReachTransitive(w.db[id].state, w1.db[id].state, RunSteps(w1, rts[1..]).db[id].state);
    }
  }

  /** Over any number of steps, entries stay filed under their own ids. */
  lemma {:induction false} RunStepsWellKeyed(w: Worker, rts: seq<Runtime>)
    requires WellKeyed(w.db)
    ensures WellKeyed(RunSteps(w, rts).db)
    decreases |rts|
  {
    if |rts| > 0 {
      RunStepsWellKeyed(RunTask(w, rts[0]).worker, rts[1..]);
    }
  }

  /**
   Walks a map in an unspecified order, listing each key once together with
   the value stored under it.
   */
  method Entries<K, V>(m: map<K, V>) returns (keys: seq<K>, values: seq<V>)
    ensures |keys| == |values| == |m|
    ensures forall i :: 0 <= i < |keys| ==> keys[i] in m && values[i] == m[keys[i]]
    ensures forall k :: k in m ==> k in keys
    ensures forall i, j :: 0 <= i < j < |keys| ==> keys[i] != keys[j]
  {
    keys, values := [], [];
    var unlisted := m.Keys;
    while unlisted != {}
      invariant unlisted <= m.Keys
      invariant |keys| == |values|
      invariant |keys| + |unlisted| == |m|
      invariant forall i :: 0 <= i < |keys| ==> keys[i] in m && keys[i] !in unlisted && values[i] == m[keys[i]]
      invariant forall k :: k in m && k !in unlisted ==> k in keys
      invariant forall i, j :: 0 <= i < j < |keys| ==> keys[i] != keys[j]
      decreases |unlisted|
    {
      var k :| k in unlisted;
      keys, values := keys + [k], values + [m[k]];
      unlisted := unlisted - {k};
    }
  }

  /** A snapshot of the registry: one task per entry, in no particular order. */
  method GetTasks(w: Worker) returns (tasks: seq<Task>)
    ensures |tasks| == |w.db|
    ensures forall id :: id in w.db ==> w.db[id] in tasks
    ensures forall i :: 0 <= i < |tasks| ==> tasks[i] in w.db.Values
    ensures WellKeyed(w.db) ==>
              (forall i, j :: 0 <= i < j < |tasks| ==> tasks[i].id != tasks[j].id)
              && (forall i :: 0 <= i < |tasks| ==> tasks[i].id in w.db && w.db[tasks[i].id] == tasks[i])
  {
    var ids;
    ids, tasks := Entries(w.db);
    forall id | id in w.db
      ensures w.db[id] in tasks
    {
      var i :| 0 <= i < |ids| && ids[i] == id;
      assert tasks[i] == w.db[id];
    }
  }

  /** Accepting a submitted event enqueues the event's task; the event's own target state is not used. */
  function SubmitTask(w: Worker, te: TaskEvent): (w': Worker)
    ensures w'.queue == w.queue + [te.task] && w'.db == w.db
  {
    AddTask(w, te.task)
  }

  /**
   A stop request for a registered task enqueues a copy of its registry entry
   with Completed as the desired state. A request for an unknown id makes the
   source dereference a missing entry, so callers must name a registered task.
   */
  function RequestStop(w: Worker, id: TaskId): (w': Worker)
    requires id in w.db
    ensures w'.db == w.db
    ensures w'.queue == w.queue + [w.db[id].(state := Completed)]
  {
    AddTask(w, w.db[id].(state := Completed))
  }
}
