/**
 What whole runs of the task protocol keep in order: the task queue and every result buffer are first in, first
 out, and a task stays the one that was submitted.
 */
module TaskOrder {
  import opened Common
  import opened Engines
  import opened Tasks

  /** What goes in and out over two stretches, one after the other. */
  lemma Join<T>(before: seq<T>, in1: seq<T>, out1: seq<T>, middle: seq<T>, in2: seq<T>, out2: seq<T>, after: seq<T>)
    requires before + in1 == out1 + middle && middle + in2 == out2 + after
    ensures before + (in1 + in2) == (out1 + out2) + after
  {
    assert before + (in1 + in2) == (before + in1) + in2;
    assert (out1 + middle) + in2 == out1 + (middle + in2);
    assert out1 + (out2 + after) == (out1 + out2) + after;
  }

  function StepPuts(step: Step): seq<Ref> {
    if step.Enqueue? || step.TimerFires? then [step.task] else []
  }

  function StepTakes(step: Step, s': State): seq<Ref> {
    if step.Dequeue? && s'.scheduler.Holding? then [s'.scheduler.task] else []
  }

  /** The task copies that a run puts into the queue: new ones and those whose retry timer fires. */
  function PutIn(steps: seq<Step>): seq<Ref> {
    if steps == [] then [] else StepPuts(steps[0]) + PutIn(steps[1..])
  }

  /** The task copies that the scheduler gets hold of along a run. */
  function TakenOut(s: State, steps: seq<Step>): seq<Ref>
    decreases |steps|
  {
    if steps == [] || Apply(s, steps[0]).None? then []
    else StepTakes(steps[0], Apply(s, steps[0]).value) + TakenOut(Apply(s, steps[0]).value, steps[1..])
  }

  ghost predicate QueueMoves(s: State, step: Step, s': State) {
    s.queue + StepPuts(step) == StepTakes(step, s') + s'.queue
  }

  lemma DequeueMoves(s: State)
    requires Apply(s, Dequeue).Some?
    ensures QueueMoves(s, Dequeue, Apply(s, Dequeue).value)
  {
  }

  lemma OwnerMovesQueue(s: State, step: Step)
    requires Apply(s, step).Some?
    requires step.Submit? || step.Enqueue? || step.Receive? || step.Unassign? || step.Cancel? || step.Deregister? || step.Drain?
    ensures QueueMoves(s, step, Apply(s, step).value)
  {
  }

  lemma OthersMoveQueue(s: State, step: Step)
    requires Apply(s, step).Some?
    requires step.Arrive? || step.LookUp? || step.Deliver? || step.EngineStatus? || step.RemoveEngine?
    ensures QueueMoves(s, step, Apply(s, step).value)
  {
  }

  lemma SchedulerMovesQueue(s: State, step: Step)
    requires Apply(s, step).Some?
    requires step.Assign? || step.FindFails? || step.SendEnds?
    ensures QueueMoves(s, step, Apply(s, step).value)
  {
  }

  lemma TimerMovesQueue(s: State, step: Step)
    requires Apply(s, step).Some? && step.TimerFires?
    ensures QueueMoves(s, step, Apply(s, step).value)
  {
  }

  lemma StepMovesQueue(s: State, step: Step)
    requires Apply(s, step).Some?
    ensures QueueMoves(s, step, Apply(s, step).value)
  {
    if step.Dequeue? {
      DequeueMoves(s);
    } else if step.Submit? || step.Enqueue? || step.Receive? || step.Unassign? || step.Cancel? || step.Deregister? || step.Drain? {
      OwnerMovesQueue(s, step);
    } else if step.TimerFires? {
      TimerMovesQueue(s, step);
    } else if step.Assign? || step.FindFails? || step.SendEnds? {
      SchedulerMovesQueue(s, step);
    } else {
      OthersMoveQueue(s, step);
    }
  }

  /** In every run: what was in the queue and what was put in is what the scheduler took and what is left, in the
      same order. */
  lemma {:induction false} QueueIsFifo(s: State, steps: seq<Step>)
    requires Exec(s, steps).Some?
    ensures s.queue + PutIn(steps) == TakenOut(s, steps) + Exec(s, steps).value.queue
    decreases |steps|
  {
    if steps != [] {
      var step, rest, s' := steps[0], steps[1..], Apply(s, steps[0]).value;
      StepMovesQueue(s, step);
      QueueIsFifo(s', rest);
      Join(s.queue, StepPuts(step), StepTakes(step, s'), s'.queue, PutIn(rest), TakenOut(s', rest), Exec(s', rest).value.queue);
    }
  }

  /** The results that a step writes to a task: none if its buffer is full. */
  function StepWrites(s: State, step: Step, o: Ref): seq<ResultOrError> {
    if step.Deliver? && step.delivery.task == o && o in s.tasks && |s.tasks[o].buffer| < 100 then [step.delivery.r] else []
  }

  function StepReads(s: State, step: Step, o: Ref): seq<ResultOrError> {
    if step.Receive? && step.task == o && o in s.tasks && s.tasks[o].buffer != [] then [s.tasks[o].buffer[0]] else []
  }

  /** The results that the writers get into the buffer of a task along a run. */
  function Writes(s: State, steps: seq<Step>, o: Ref): seq<ResultOrError>
    decreases |steps|
  {
    if steps == [] || Apply(s, steps[0]).None? then []
    else StepWrites(s, steps[0], o) + Writes(Apply(s, steps[0]).value, steps[1..], o)
  }

  /** The results that the receive loop of a task goes through along a run. */
  function Reads(s: State, steps: seq<Step>, o: Ref): seq<ResultOrError>
    decreases |steps|
  {
    if steps == [] || Apply(s, steps[0]).None? then []
    else StepReads(s, steps[0], o) + Reads(Apply(s, steps[0]).value, steps[1..], o)
  }

  ghost predicate BufferMoves(s: State, step: Step, s': State, o: Ref) {
    && o in s.tasks && o in s'.tasks
    && s.tasks[o].buffer + StepWrites(s, step, o) == StepReads(s, step, o) + s'.tasks[o].buffer
  }

  lemma ReceiveMoves(s: State, step: Step, o: Ref)
    requires Apply(s, step).Some? && o in s.tasks && step.Receive?
    ensures BufferMoves(s, step, Apply(s, step).value, o)
  {
    var t := s.tasks[step.task];
    ResultMakesProgress(t.(buffer := t.buffer[1..]), t.buffer[0], step.verdict, step.inTime);
  }

  lemma DeliverMoves(s: State, step: Step, o: Ref)
    requires Apply(s, step).Some? && o in s.tasks && step.Deliver?
    ensures BufferMoves(s, step, Apply(s, step).value, o)
  {
  }

  lemma QueuedMoves(s: State, step: Step, o: Ref)
    requires Apply(s, step).Some? && o in s.tasks
    requires step.Submit? || step.Enqueue? || step.Unassign?
    ensures BufferMoves(s, step, Apply(s, step).value, o)
  {
  }

  lemma OwnerMoves(s: State, step: Step, o: Ref)
    requires Apply(s, step).Some? && o in s.tasks
    requires step.Cancel? || step.Deregister? || (step.Drain? && step.task != o)
    ensures BufferMoves(s, step, Apply(s, step).value, o)
  {
  }

  lemma SchedulerMoves(s: State, step: Step, o: Ref)
    requires Apply(s, step).Some? && o in s.tasks
    requires step.Dequeue? || step.Assign? || step.FindFails? || step.SendEnds?
    ensures BufferMoves(s, step, Apply(s, step).value, o)
  {
  }

  lemma OthersMove(s: State, step: Step, o: Ref)
    requires Apply(s, step).Some? && o in s.tasks
    requires step.TimerFires? || step.Arrive? || step.LookUp? || step.EngineStatus? || step.RemoveEngine?
    ensures BufferMoves(s, step, Apply(s, step).value, o)
  {
  }

  lemma StepMoves(s: State, step: Step, o: Ref)
    requires Apply(s, step).Some? && o in s.tasks && step != Drain(o)
    ensures BufferMoves(s, step, Apply(s, step).value, o)
  {
    if step.Receive? {
      ReceiveMoves(s, step, o);
    } else if step.Deliver? {
      DeliverMoves(s, step, o);
    } else if step.Submit? || step.Enqueue? || step.Unassign? {
      QueuedMoves(s, step, o);
    } else if step.Cancel? || step.Deregister? || step.Drain? {
      OwnerMoves(s, step, o);
    } else if step.Dequeue? || step.Assign? || step.FindFails? || step.SendEnds? {
      SchedulerMoves(s, step, o);
    } else {
      OthersMove(s, step, o);
    }
  }

  /** In every run that does not drain the task: the results in its buffer and those written to it are the ones it
      goes through and those left in the buffer, in the same order. */
  lemma {:induction false} BufferIsFifo(s: State, steps: seq<Step>, o: Ref)
    requires o in s.tasks && Exec(s, steps).Some? && Drain(o) !in steps
    ensures o in Exec(s, steps).value.tasks
    ensures s.tasks[o].buffer + Writes(s, steps, o) == Reads(s, steps, o) + Exec(s, steps).value.tasks[o].buffer
    decreases |steps|
  {
    if steps != [] {
      var step, rest, s' := steps[0], steps[1..], Apply(s, steps[0]).value;
      StepMoves(s, step, o);
      BufferIsFifo(s', rest, o);
      Join(s.tasks[o].buffer, StepWrites(s, step, o), StepReads(s, step, o), s'.tasks[o].buffer,
           Writes(s', rest, o), Reads(s', rest, o), Exec(s', rest).value.tasks[o].buffer);
    }
  }

  // ---------------------------------------------------------------------------------------------
  // What a submission fixes.

  /** The task is still the one that was submitted, and only its target, if it has one, is its engine. */
  ghost predicate AsSubmitted(s: State, o: Ref, id: TaskId, tenant: Tenant, target: EngineId, stream: bool) {
    && o in s.tasks
    && var t := s.tasks[o];
       && t.id == id && t.tenant == tenant && t.target == target && t.stream == stream
       && (t.engine != "" && target != "" ==> t.engine == target)
  }

  lemma ReceiveKeepsSubmission(s: State, step: Step, o: Ref, id: TaskId, tenant: Tenant, target: EngineId, stream: bool)
    requires AsSubmitted(s, o, id, tenant, target, stream) && Apply(s, step).Some? && step.Receive?
    ensures AsSubmitted(Apply(s, step).value, o, id, tenant, target, stream)
  {
    var t := s.tasks[step.task];
    ResultMakesProgress(t.(buffer := t.buffer[1..]), t.buffer[0], step.verdict, step.inTime);
  }

  lemma SubmitKeepsSubmission(s: State, step: Step, o: Ref, id: TaskId, tenant: Tenant, target: EngineId, stream: bool)
    requires AsSubmitted(s, o, id, tenant, target, stream) && Apply(s, step).Some?
    requires step.Submit? || step.Enqueue? || step.Unassign?
    ensures AsSubmitted(Apply(s, step).value, o, id, tenant, target, stream)
  {
  }

  lemma OwnerKeepsSubmission(s: State, step: Step, o: Ref, id: TaskId, tenant: Tenant, target: EngineId, stream: bool)
    requires AsSubmitted(s, o, id, tenant, target, stream) && Apply(s, step).Some?
    requires step.Cancel? || step.Deregister? || step.Drain?
    ensures AsSubmitted(Apply(s, step).value, o, id, tenant, target, stream)
  {
  }

  lemma SchedulerKeepsSubmission(s: State, step: Step, o: Ref, id: TaskId, tenant: Tenant, target: EngineId, stream: bool)
    requires AsSubmitted(s, o, id, tenant, target, stream) && Apply(s, step).Some?
    requires step.Dequeue? || step.Assign? || step.FindFails? || step.SendEnds?
    ensures AsSubmitted(Apply(s, step).value, o, id, tenant, target, stream)
  {
  }

  lemma WriterKeepsSubmission(s: State, step: Step, o: Ref, id: TaskId, tenant: Tenant, target: EngineId, stream: bool)
    requires AsSubmitted(s, o, id, tenant, target, stream) && Apply(s, step).Some?
    requires step.TimerFires? || step.Arrive? || step.LookUp? || step.Deliver?
    ensures AsSubmitted(Apply(s, step).value, o, id, tenant, target, stream)
  {
  }

  lemma EnginesKeepSubmission(s: State, step: Step, o: Ref, id: TaskId, tenant: Tenant, target: EngineId, stream: bool)
    requires AsSubmitted(s, o, id, tenant, target, stream) && Apply(s, step).Some?
    requires step.EngineStatus? || step.RemoveEngine?
    ensures AsSubmitted(Apply(s, step).value, o, id, tenant, target, stream)
  {
  }

  lemma {:induction false} RunKeepsSubmission(s: State, steps: seq<Step>, o: Ref, id: TaskId, tenant: Tenant, target: EngineId, stream: bool)
    requires AsSubmitted(s, o, id, tenant, target, stream) && Exec(s, steps).Some?
    ensures AsSubmitted(Exec(s, steps).value, o, id, tenant, target, stream)
    decreases |steps|
  {
    if steps != [] {
      var step := steps[0];
      if step.Receive? {
        ReceiveKeepsSubmission(s, step, o, id, tenant, target, stream);
      } else if step.Submit? || step.Enqueue? || step.Unassign? {
        SubmitKeepsSubmission(s, step, o, id, tenant, target, stream);
      } else if step.Cancel? || step.Deregister? || step.Drain? {
        OwnerKeepsSubmission(s, step, o, id, tenant, target, stream);
      } else if step.Dequeue? || step.Assign? || step.FindFails? || step.SendEnds? {
        SchedulerKeepsSubmission(s, step, o, id, tenant, target, stream);
      } else if step.EngineStatus? || step.RemoveEngine? {
        EnginesKeepSubmission(s, step, o, id, tenant, target, stream);
      } else {
        WriterKeepsSubmission(s, step, o, id, tenant, target, stream);
      }
      RunKeepsSubmission(Apply(s, step).value, steps[1..], o, id, tenant, target, stream);
    }
  }

  /** A task keeps its ID, its tenant, its target and whether it streams from its submission on in every run, and a
      task with a target is never assigned to another engine. */
  lemma SubmittedFor(s: State, steps: seq<Step>, o: Ref, id: TaskId, tenant: Tenant, target: EngineId, stream: bool)
    requires Exec(s, [Submit(o, id, tenant, target, stream)] + steps).Some?
    ensures AsSubmitted(Exec(s, [Submit(o, id, tenant, target, stream)] + steps).value, o, id, tenant, target, stream)
  {
    var step := Submit(o, id, tenant, target, stream);
    assert ([step] + steps)[1..] == steps && ([step] + steps)[0] == step;
    RunKeepsSubmission(Apply(s, step).value, steps, o, id, tenant, target, stream);
  }

  /** The scheduler assigns a task only to an engine that is registered for the tenant it was submitted for; if the
      engine has gone, the task's own ID gets an error. */
  lemma AssignsOwnEngines(s: State, e: EngineId, o: Ref, id: TaskId, tenant: Tenant, target: EngineId, stream: bool)
    requires s.scheduler == Holding(o) && AsSubmitted(s, o, id, tenant, target, stream)
    requires target == "" || e == target
    ensures var s' := Apply(s, Assign(e));
            && s'.Some?
            && (Registered(s.engines, tenant, e) <==> s'.value.scheduler == Sending(o))
            && (Registered(s.engines, tenant, e) ==> o in s'.value.tasks && s'.value.tasks[o] == s.tasks[o].(engine := e))
            && (!Registered(s.engines, tenant, e) ==>
                  s'.value.tasks == s.tasks && s'.value.toLookUp == s.toLookUp + multiset{Post(id, Error)})
  {
  }
}
