/**
 Properties of the execution engine that relate several steps, or that spell
 out what a single step does for each kind of queued task.
 */
module WorkerProperties {
  import opened Wrappers
  import opened TaskState
  import opened Tasks
  import opened Workers

  /** On a non-empty queue, enqueueing before a step or after it gives the same worker and result. */
  lemma AddTaskCommutesWithRunTask(w: Worker, t: Task, rt: Runtime)
    requires |w.queue| > 0
    ensures RunTask(AddTask(w, t), rt) == Step(AddTask(RunTask(w, rt).worker, t), RunTask(w, rt).result)
  {
    assert AddTask(w, t).queue[1..] == w.queue[1..] + [t];
  }

  /** After `n` steps the queue has lost exactly its first `n` tasks, so step `i` acts on the `i`-th task enqueued. */
  lemma StepsDequeueInOrder(w: Worker, rts: seq<Runtime>, i: nat)
    requires i < |w.queue| && i < |rts|
    ensures |RunSteps(w, rts[..i]).queue| > 0
    ensures RunSteps(w, rts[..i]).queue[0] == w.queue[i]
  {
    RunStepsDequeue(w, rts[..i]);
  }

  /**
   A task whose id the registry has never seen is filed as its own baseline,
   so it is judged by the self-loop on its own state: Scheduled is accepted
   and started, Running passes the table but has no action, and Pending,
   Completed and Failed are rejected; in every case the task stays filed.
   */
  lemma FirstSighting(w: Worker, rt: Runtime)
    requires |w.queue| > 0 && w.queue[0].id !in w.db
    ensures var t := w.queue[0]; var s := RunTask(w, rt);
            && t.id in s.worker.db
            && (t.state == Scheduled ==>
                  s.result == DockerRun(NewConfig(t), rt.run) && s.worker.db[t.id].state in {Running, Failed})
            && (t.state == Running ==>
                  s.result == ErrorResult(UnhandledState(Running)) && s.worker.db == w.db[t.id := t])
            && (t.state in {Pending, Completed, Failed} ==>
                  s.result == ErrorResult(InvalidTransition(t.state, t.state)) && s.worker.db == w.db[t.id := t])
  {
  }

  /**
   An illegal move is rejected with an error naming both states, and the
   registry keeps only the first-sighting entry, if one was made.
   */
  lemma IllegalMoveRejected(w: Worker, rt: Runtime)
    requires |w.queue| > 0
    requires !ValidStateTransition(Baseline(w.db, w.queue[0]).state, w.queue[0].state)
    ensures var t := w.queue[0]; var s := RunTask(w, rt);
            && s.result == ErrorResult(InvalidTransition(Baseline(w.db, t).state, t.state))
            && s.worker.queue == w.queue[1..]
            && s.worker.db == if t.id in w.db then w.db else w.db[t.id := t]
  {
  }

  /**
   A legal move to Scheduled starts the task: the runtime's start result is
   returned and the entry is stamped with the start time, then stored Running
   in the new container or Failed.
   */
  lemma LegalMoveToScheduledStarts(w: Worker, rt: Runtime)
    requires |w.queue| > 0 && w.queue[0].state == Scheduled
    requires ValidStateTransition(Baseline(w.db, w.queue[0]).state, Scheduled)
    ensures var t := w.queue[0]; var s := RunTask(w, rt); var stored := s.worker.db[t.id];
            && s.result == DockerRun(NewConfig(t), rt.run)
            && stored.startTime == rt.now
            && (rt.run.Started? ==>
                  stored == t.(startTime := rt.now, containerId := rt.run.containerId, state := Running))
            && (!rt.run.Started? ==> stored == t.(startTime := rt.now, state := Failed) && s.result.error.Some?)
            && s.worker.db == FileFirstSighting(w.db, t)[t.id := stored]
  {
    var t := w.queue[0];
    assert Process(w.db, t, rt) == StartTask(FileFirstSighting(w.db, t), t, rt.now, rt.run);
  }

  /**
   A legal move to Completed stops the task: the runtime's stop result is
   returned and the entry is stored Completed with the finish time, whether or
   not the stop succeeded.
   */
  lemma LegalMoveToCompletedStops(w: Worker, rt: Runtime)
    requires |w.queue| > 0 && w.queue[0].state == Completed
    requires ValidStateTransition(Baseline(w.db, w.queue[0]).state, Completed)
    ensures var t := w.queue[0]; var s := RunTask(w, rt); var stored := s.worker.db[t.id];
            && s.result == DockerStop(t.containerId, rt.stop)
            && stored == t.(finishTime := rt.now, state := Completed)
            && s.worker.db == FileFirstSighting(w.db, t)[t.id := stored]
  {
    var t := w.queue[0];
    assert Process(w.db, t, rt) == StopTask(FileFirstSighting(w.db, t), t, rt.now, rt.stop);
  }

  /**
   Besides Scheduled and Completed, the only states a legal move can reach are
   Running and Failed; the worker has no action for them, so it reports an
   error and the registry changes only by the first-sighting insert.
   */
  lemma LegalMoveToOtherStateUnhandled(w: Worker, rt: Runtime)
    requires |w.queue| > 0 && w.queue[0].state != Scheduled && w.queue[0].state != Completed
    requires ValidStateTransition(Baseline(w.db, w.queue[0]).state, w.queue[0].state)
    ensures var t := w.queue[0]; var s := RunTask(w, rt);
            && (t.state == Running || t.state == Failed)
            && s.result == ErrorResult(UnhandledState(t.state))
            && s.worker.db == if t.id in w.db then w.db else w.db[t.id := t]
  {
    var t := w.queue[0];
    NothingEntersPending(Baseline(w.db, t).state);
    var db1 := FileFirstSighting(w.db, t);
    assert Process(w.db, t, rt) == Effect(db1, ErrorResult(UnhandledState(t.state)));
    if t.id in w.db {
      assert db1 == w.db;
    }
  }

  /** A Completed request against a task the registry holds as Pending is rejected and changes nothing. */
  lemma CompletedAgainstPendingRejected(w: Worker, rt: Runtime)
    requires |w.queue| > 0 && w.queue[0].id in w.db
    requires w.db[w.queue[0].id].state == Pending && w.queue[0].state == Completed
    ensures RunTask(w, rt).result.error == Some(InvalidTransition(Pending, Completed))
    ensures RunTask(w, rt).worker.db == w.db
  {
  }

  /**
   Once a task has been started, whether it came up Running or Failed, a
   further Scheduled request for it is rejected and the registry is unchanged.
   */
  lemma RescheduleRejected(w: Worker, rt: Runtime)
    requires |w.queue| > 0 && w.queue[0].state == Scheduled && w.queue[0].id in w.db
    requires w.db[w.queue[0].id].state in {Running, Failed}
    ensures RunTask(w, rt).result.error == Some(InvalidTransition(w.db[w.queue[0].id].state, Scheduled))
    ensures RunTask(w, rt).worker.db == w.db
  {
    IllegalMoveRejected(w, rt);
  }

  /**
   The same Scheduled task enqueued twice: the first copy is started, leaving
   it Running or Failed, and neither state may move back to Scheduled, so the
   second copy is rejected and the registry is left as the first step made it.
   */
  lemma ScheduledTwiceRejected(w: Worker, t: Task, rt1: Runtime, rt2: Runtime)
    requires w.queue == [] && t.id !in w.db && t.state == Scheduled
    ensures var s1 := RunTask(AddTask(AddTask(w, t), t), rt1);
            var s2 := RunTask(s1.worker, rt2);
            && (s1.result.error.None? <==> rt1.run.Started?)
            && s1.worker.queue == [t]
            && s1.worker.db[t.id].state in {Running, Failed}
            && s2.result.error == Some(InvalidTransition(s1.worker.db[t.id].state, Scheduled))
            && s2.worker.db == s1.worker.db
            && s2.worker.queue == []
  {
    var w2 := AddTask(AddTask(w, t), t);
    assert w2.queue == [t, t];
    FirstSighting(w2, rt1);
    var s1 := RunTask(w2, rt1);
    assert s1.worker.queue == [t];
    RescheduleRejected(s1.worker, rt2);
  }

  /** An entry in a terminal state is never changed by a step, and the step reports an error. */
  lemma TerminalEntryFrozen(w: Worker, rt: Runtime, id: TaskId)
    requires id in w.db && IsTerminal(w.db[id].state)
    ensures id in RunTask(w, rt).worker.db && RunTask(w, rt).worker.db[id] == w.db[id]
    ensures |w.queue| > 0 && w.queue[0].id == id ==> RunTask(w, rt).result.error.Some?
  {
    if |w.queue| > 0 && w.queue[0].id == id {
      TerminalStatesHaveNoSuccessor(w.db[id].state, w.queue[0].state);
      IllegalMoveRejected(w, rt);
    }
  }

  /** However many steps run, an entry that reached Completed or Failed keeps its value. */
  lemma {:induction false} TerminalEntryFrozenForever(w: Worker, rts: seq<Runtime>, id: TaskId)
    requires id in w.db && IsTerminal(w.db[id].state)
    ensures id in RunSteps(w, rts).db && RunSteps(w, rts).db[id] == w.db[id]
    decreases |rts|
  {
    if |rts| > 0 {
      var w1 := RunTask(w, rts[0]).worker;
      TerminalEntryFrozen(w, rts[0], id);
      TerminalEntryFrozenForever(w1, rts[1..], id);
    }
  }

  /**
   However many steps run, each registry entry's state is joined to its
   earlier state by a chain of legal transitions: the registry only ever
   moves along the transition table, never backwards.
   */
  lemma RegistryFollowsTheTable(w: Worker, rts: seq<Runtime>, id: TaskId)
    requires id in w.db
    ensures id in RunSteps(w, rts).db
    ensures CanReach(w.db[id].state, RunSteps(w, rts).db[id].state)
    ensures var path := ChainBetween(w.db[id].state, RunSteps(w, rts).db[id].state);
            && IsChain(path) && path[0] == w.db[id].state && path[|path| - 1] == RunSteps(w, rts).db[id].state
    ensures Code(w.db[id].state) <= Code(RunSteps(w, rts).db[id].state)
  {
    RunStepsAdvance(w, rts, id);
  }

  /**
   A stop request against a Running entry is carried out: the runtime's stop
   result is returned and the entry becomes Completed with the step's finish
   time, whatever the runtime reports.
   */
  lemma StopOfRunningCarriedOut(w: Worker, id: TaskId, rt: Runtime)
    requires w.queue == [] && id in w.db && WellKeyed(w.db) && w.db[id].state == Running
    ensures var s := RunTask(RequestStop(w, id), rt); var before := w.db[id];
            && s.worker.queue == []
            && s.result == DockerStop(before.containerId, rt.stop)
            && s.worker.db == w.db[id := before.(state := Completed, finishTime := rt.now)]
  {
    var before := w.db[id];
    var req := before.(state := Completed);
    var w1 := RequestStop(w, id);
    assert w1.queue == [req] && w1.db == w.db;
    assert Baseline(w.db, req) == before;
    LegalMoveToCompletedStops(w1, rt);
    assert FileFirstSighting(w.db, req) == w.db;
    assert req.(finishTime := rt.now, state := Completed) == before.(state := Completed, finishTime := rt.now);
  }

  /**
   A stop request against an entry that is not Running is rejected with the
   entry's state named, and the registry is unchanged.
   */
  lemma StopOfIdleRejected(w: Worker, id: TaskId, rt: Runtime)
    requires w.queue == [] && id in w.db && WellKeyed(w.db) && w.db[id].state != Running
    ensures var s := RunTask(RequestStop(w, id), rt); var before := w.db[id];
            && s.worker.queue == []
            && s.result == ErrorResult(InvalidTransition(before.state, Completed))
            && s.worker.db == w.db
  {
    var before := w.db[id];
    var req := before.(state := Completed);
    var w1 := RequestStop(w, id);
    assert w1.queue == [req] && w1.db == w.db;
    assert Baseline(w.db, req) == before;
    IllegalMoveRejected(w1, rt);
  }

  /**
   A stop request on an otherwise idle worker is carried out exactly when the
   registry holds the task as Running: only then does the worker hand back the
   runtime's stop result.
   */
  lemma StopRequestOutcome(w: Worker, id: TaskId, rt: Runtime)
    requires w.queue == [] && id in w.db && WellKeyed(w.db)
    ensures var s := RunTask(RequestStop(w, id), rt); var before := w.db[id];
            before.state == Running <==> s.result == DockerStop(before.containerId, rt.stop)
  {
    var before := w.db[id];
    if before.state == Running {
      StopOfRunningCarriedOut(w, id, rt);
    } else {
      StopOfIdleRejected(w, id, rt);
      assert DockerStop(before.containerId, rt.stop).error != Some(InvalidTransition(before.state, Completed));
    }
  }

  /** A new Scheduled task on an idle worker whose runtime starts container `cid` ends Running in that container. */
  lemma FreshTaskStarts(w: Worker, t: Task, cid: string, rt: Runtime)
    requires w.queue == [] && t.id !in w.db && t.state == Scheduled && rt.run == Started(cid)
    ensures var s := RunTask(AddTask(w, t), rt);
            && s.worker.queue == []
            && s.worker.db == w.db[t.id := t.(startTime := rt.now, containerId := cid, state := Running)]
            && s.result == DockerResult(None, "Start", cid, "Success")
  {
    var w0 := AddTask(w, t);
    assert w0.queue == [t] && w0.queue[1..] == [] && w0.db == w.db;
    assert Baseline(w.db, t) == t && ValidStateTransition(Scheduled, Scheduled);
    LegalMoveToScheduledStarts(w0, rt);
    var running := t.(startTime := rt.now, containerId := cid, state := Running);
    assert FileFirstSighting(w.db, t)[t.id := running] == w.db[t.id := running];
  }

  /**
   The whole life of a task on one worker: submitted Scheduled, started with
   container `cid`, then stopped on request. It ends Completed, still naming
   its container, with the start and finish times of the two steps.
   */
  lemma StartThenStop(w: Worker, t: Task, cid: string, rt1: Runtime, rt2: Runtime)
    requires w.queue == [] && t.id !in w.db && t.state == Scheduled && rt1.run == Started(cid)
    ensures var w1 := RunTask(AddTask(w, t), rt1).worker;
            && t.id in w1.db
            && var s2 := RunTask(RequestStop(w1, t.id), rt2);
               && s2.result == DockerStop(cid, rt2.stop)
               && s2.worker.queue == []
               && s2.worker.db[t.id] == t.(startTime := rt1.now, finishTime := rt2.now, containerId := cid, state := Completed)
  {
    FreshTaskStarts(w, t, cid, rt1);
    var running := t.(startTime := rt1.now, containerId := cid, state := Running);
    var db1 := w.db[t.id := running];
    var w1 := Worker(w.name, [], db1);
    assert RunTask(AddTask(w, t), rt1).worker == w1;
    var req := running.(state := Completed);
    assert RequestStop(w1, t.id) == Worker(w.name, [req], db1);
    assert Baseline(db1, req) == running;
    LegalMoveToCompletedStops(RequestStop(w1, t.id), rt2);
  }

  /** Accepting an event ignores the event's own id, timestamp and target state. */
  lemma SubmitIgnoresEventFields(w: Worker, te: TaskEvent, id: Uuid, s: State, ts: Timestamp)
    ensures SubmitTask(w, te.(id := id, state := s, timeStamp := ts)) == SubmitTask(w, te)
  {
  }
}
