/**
 When the task protocol leaves a waiting task behind. Results, errors and removals find a task by its
 ID, and a result buffer that is full drops what is written. So a task is never left waiting for
 something that nobody will do as long as its own ID is not submitted again while it is in progress and
 its own buffer does not drop the last error it needs; what happens to other tasks does not matter.
 */
module TaskSafety {
  import opened Common
  import opened Engines
  import opened Tasks

  /** The in-progress map leads to this very object. */
  predicate Mapped(s: State, o: Ref)
    requires o in s.tasks
  {
    s.tasks[o].id in s.inProgress && s.inProgress[s.tasks[o].id] == o
  }

  /** The goroutine of the task still has steps to take before its ID leaves the in-progress map. */
  predicate Running(t: Task) {
    Live(t) && !t.pc.Stuck?
  }

  /** Every running task with the ID is the one that the ID leads to. */
  ghost predicate Owned(s: State, id: TaskId) {
    forall o :: o in s.tasks && s.tasks[o].id == id && Running(s.tasks[o]) ==> Mapped(s, o)
  }

  ghost predicate AllOwned(s: State) {
    forall id: TaskId :: Owned(s, id)
  }

  /** An ID is submitted while a running task with that ID is in progress. */
  predicate Clash(s: State, step: Step) {
    step.Submit? && Busy(s, step.id)
  }

  predicate Busy(s: State, id: TaskId) {
    id in s.inProgress && s.inProgress[id] in s.tasks && Running(s.tasks[s.inProgress[id]])
  }

  predicate ClashOn(s: State, step: Step, id: TaskId) {
    Clash(s, step) && step.id == id
  }

  /** An error for the task is on its way or in its buffer. */
  predicate ErrorComing(s: State, o: Ref)
    requires o in s.tasks
  {
    || (Post(s.tasks[o].id, Error) in s.toLookUp && Mapped(s, o))
    || Delivery(o, Error) in s.toSend
    || Error in s.tasks[o].buffer
  }

  /** A copy of the task is still to be assigned. */
  predicate InMotion(s: State, o: Ref) {
    o in s.queue || s.timers[o] > 0 || s.scheduler == Holding(o)
  }

  predicate EngineRegistered(s: State, o: Ref)
    requires o in s.tasks
  {
    Registered(s.engines, s.tasks[o].tenant, s.tasks[o].engine)
  }

  /** The task needs an error: its engine is gone, or no copy of it is on its way or with an engine. */
  predicate NeedsError(s: State, o: Ref)
    requires o in s.tasks
  {
    || (s.tasks[o].engine != "" && !EngineRegistered(s, o))
    || !(InMotion(s, o) || ((s.sent[o] > 0 || s.scheduler == Sending(o)) && EngineRegistered(s, o)))
  }

  /** A task that waits for results and needs an error has one coming. */
  predicate Safe(s: State, o: Ref)
    requires o in s.tasks
  {
    s.tasks[o].pc.Receiving? && NeedsError(s, o) ==> ErrorComing(s, o)
  }

  ghost predicate AllSafe(s: State) {
    forall o :: o in s.tasks ==> Safe(s, o)
  }

  /** A full buffer drops the only error that a waiting task has coming and needs. */
  predicate Drops(s: State, step: Step) {
    && step.Deliver? && step.delivery.r.Error? && step.delivery.task in s.tasks
    && var o, t := step.delivery.task, s.tasks[step.delivery.task];
       && |t.buffer| >= TASK_RESULT_BUFFER_SIZE && t.pc.Receiving? && NeedsError(s, o)
       && Error !in t.buffer && s.toSend[step.delivery] == 1 && !(Post(t.id, Error) in s.toLookUp && Mapped(s, o))
  }

  // ---------------------------------------------------------------------------------------------
  // Ownership.

  predicate DropsFor(s: State, step: Step, o: Ref) {
    Drops(s, step) && step.delivery.task == o
  }

  // ---------------------------------------------------------------------------------------------
  // Ownership.

  /** The running tasks of an ID stay where it leads if and only if the step is no clash on it. */
  lemma OwnedIff(s: State, step: Step, id: TaskId)
    requires Inv(s) && Owned(s, id) && Apply(s, step).Some?
    ensures Owned(Apply(s, step).value, id) <==> !ClashOn(s, step, id)
  {
    var s' := Apply(s, step).value;
    TasksStay(s, step);
    if ClashOn(s, step, id) {
      var o := s.inProgress[id];
      assert EntryInv(s, id);
      assert o in s'.tasks && Running(s'.tasks[o]) && !Mapped(s', o);
    } else {
      forall o | o in s'.tasks && s'.tasks[o].id == id && Running(s'.tasks[o]) ensures Mapped(s', o) {
        StaysMapped(s, step, o);
      }
    }
  }

  lemma StaysMapped(s: State, step: Step, o: Ref)
    requires Apply(s, step).Some? && o in Apply(s, step).value.tasks && Running(Apply(s, step).value.tasks[o])
    requires Owned(s, Apply(s, step).value.tasks[o].id) && !ClashOn(s, step, Apply(s, step).value.tasks[o].id)
    ensures Mapped(Apply(s, step).value, o)
  {
    TasksStay(s, step);
    if o in s.tasks {
      StepKeepsIdentity(s, step, o);
      if s.tasks[o].pc.Stuck? {
        StuckStays(s, step, o);
      }
      assert Mapped(s, o);
      if !step.Submit? && !step.Deregister? {
        StepEntries(s, step);
      }
    }
  }

  /** A task that is stuck takes no further step: nothing is delivered to its caller, and it is not
      cancelled. */
  lemma StuckStays(s: State, step: Step, o: Ref)
    requires Apply(s, step).Some? && o in s.tasks && s.tasks[o].pc.Stuck?
    ensures var s' := Apply(s, step).value;
            o in s'.tasks && s'.tasks[o].pc.Stuck? && s'.tasks[o].delivered == s.tasks[o].delivered
    ensures step != Cancel(o) && step != Deregister(o)
  {
    if step.Arrive? || step.LookUp? || step.EngineStatus? || step.RemoveEngine? {
      OthersKeepCopies(s, step);
    } else if step.Dequeue? || step.FindFails? || step.SendEnds? || step.TimerFires? {
      SchedulerFreezes(s, step);
    } else if step.Assign? || step.Deliver? || step.Receive? {
      StuckIsOnlyWrittenTo(s, step, o);
    } else {
      StuckIsNotEnded(s, step, o);
    }
  }

  lemma StuckIsOnlyWrittenTo(s: State, step: Step, o: Ref)
    requires Apply(s, step).Some? && o in s.tasks && s.tasks[o].pc.Stuck?
    requires step.Assign? || step.Deliver? || step.Receive?
    ensures var s' := Apply(s, step).value;
            o in s'.tasks && s'.tasks[o].pc.Stuck? && s'.tasks[o].delivered == s.tasks[o].delivered
  {
  }

  lemma StuckIsNotEnded(s: State, step: Step, o: Ref)
    requires Apply(s, step).Some? && o in s.tasks && s.tasks[o].pc.Stuck?
    requires step.Submit? || step.Enqueue? || step.Unassign? || step.Cancel? || step.Deregister? || step.Drain?
    ensures var s' := Apply(s, step).value;
            o in s'.tasks && s'.tasks[o].pc.Stuck? && s'.tasks[o].delivered == s.tasks[o].delivered
    ensures step != Cancel(o) && step != Deregister(o)
  {
  }

  /** ... and its entry stays in the map as long as its ID is not submitted again. */
  lemma StuckKeepsEntry(s: State, step: Step, o: Ref)
    requires Apply(s, step).Some? && Inv(s) && o in s.tasks && s.tasks[o].pc.Stuck?
    requires Mapped(s, o) && Owned(s, s.tasks[o].id) && !(step.Submit? && step.id == s.tasks[o].id)
    ensures o in Apply(s, step).value.tasks && Mapped(Apply(s, step).value, o)
    ensures Apply(s, step).value.tasks[o].id == s.tasks[o].id && Owned(Apply(s, step).value, s.tasks[o].id)
  {
    StepKeepsIdentity(s, step, o);
    OwnedIff(s, step, s.tasks[o].id);
    if step.Submit? || step.Deregister? {
      OthersEntriesStay(s, step, o);
    } else {
      StepEntries(s, step);
    }
  }

  lemma OthersEntriesStay(s: State, step: Step, o: Ref)
    requires Apply(s, step).Some? && o in s.tasks && s.tasks[o].pc.Stuck? && Mapped(s, o) && Owned(s, s.tasks[o].id)
    requires (step.Submit? && step.id != s.tasks[o].id) || step.Deregister?
    ensures s.tasks[o].id in Apply(s, step).value.inProgress && Apply(s, step).value.inProgress[s.tasks[o].id] == o
  {
  }

  /** For good: cancelling does not end it, nothing more reaches its caller, and its entry is never removed. */
  lemma {:induction false} StuckForever(s: State, steps: seq<Step>, o: Ref)
    requires Inv(s) && Exec(s, steps).Some? && o in s.tasks && s.tasks[o].pc.Stuck?
    requires Mapped(s, o) && Owned(s, s.tasks[o].id)
    requires forall i :: 0 <= i < |steps| && steps[i].Submit? ==> steps[i].id != s.tasks[o].id
    ensures var s' := Exec(s, steps).value;
            && o in s'.tasks && s'.tasks[o].pc.Stuck? && s'.tasks[o].delivered == s.tasks[o].delivered
            && Mapped(s', o) && Apply(s', Cancel(o)) == None
    decreases |steps|
  {
    if steps != [] {
      StepKeepsInv(s, steps[0]);
      StuckStays(s, steps[0], o);
      StuckKeepsEntry(s, steps[0], o);
      StuckForever(Apply(s, steps[0]).value, steps[1..], o);
    }
  }

  // ---------------------------------------------------------------------------------------------
  // Safety of one task through one step.

  ghost predicate Fine(s: State, o: Ref) {
    o in s.tasks && Owned(s, s.tasks[o].id) && Kept(s.tasks[o]) && Safe(s, o)
  }

  lemma QueueIsSafe(s: State, step: Step, o: Ref)
    requires Fine(s, o) && Apply(s, step).Some? && !ClashOn(s, step, s.tasks[o].id)
    requires step.Submit? || step.Enqueue? || step.TimerFires?
    ensures Safe(Apply(s, step).value, o)
  {
  }

  lemma DequeueIsSafe(s: State, step: Step, o: Ref)
    requires Fine(s, o) && Apply(s, step).Some? && step.Dequeue?
    ensures Safe(Apply(s, step).value, o)
  {
    assert s.queue == [s.queue[0]] + s.queue[1..];
  }

  lemma AssignIsSafe(s: State, step: Step, o: Ref)
    requires Fine(s, o) && Apply(s, step).Some? && step.Assign?
    ensures Safe(Apply(s, step).value, o)
  {
  }

  lemma SendIsSafe(s: State, step: Step, o: Ref)
    requires Fine(s, o) && Apply(s, step).Some?
    requires step.FindFails? || step.SendEnds?
    ensures Safe(Apply(s, step).value, o)
  {
  }

  lemma LookUpIsSafe(s: State, step: Step, o: Ref)
    requires Fine(s, o) && Apply(s, step).Some?
    requires step.Arrive? || step.LookUp?
    ensures Safe(Apply(s, step).value, o)
  {
  }

  lemma DeliverIsSafeIff(s: State, step: Step, o: Ref)
    requires Fine(s, o) && Apply(s, step).Some? && step.Deliver?
    ensures Safe(Apply(s, step).value, o) <==> !DropsFor(s, step, o)
  {
  }

  lemma ErrorStays(b: seq<ResultOrError>)
    requires b != [] && b[0].Result?
    ensures Error in b <==> Error in b[1..]
  {
    assert b == [b[0]] + b[1..];
  }

  lemma ReceiveIsSafe(s: State, step: Step, o: Ref)
    requires Fine(s, o) && Apply(s, step).Some? && step.Receive?
    ensures Safe(Apply(s, step).value, o)
  {
    var t := s.tasks[step.task];
    var t' := OnResult(t.(buffer := t.buffer[1..]), t.buffer[0], step.verdict, step.inTime);
    ResultMakesProgress(t.(buffer := t.buffer[1..]), t.buffer[0], step.verdict, step.inTime);
    if step.task == o && t'.pc.Receiving? {
      // The result taken off the buffer was no error.
      ErrorStays(t.buffer);
      assert t' == t.(buffer := t'.buffer, nextResultIndex := t'.nextResultIndex, delivered := t'.delivered);
    }
  }

  lemma UnassignIsSafe(s: State, step: Step, o: Ref)
    requires Fine(s, o) && Apply(s, step).Some? && step.Unassign?
    ensures Safe(Apply(s, step).value, o)
  {
  }

  lemma EndIsSafe(s: State, step: Step, o: Ref)
    requires Fine(s, o) && Apply(s, step).Some?
    requires step.Cancel? || step.Deregister? || step.Drain?
    ensures Safe(Apply(s, step).value, o)
  {
  }

  lemma EnginesAreSafe(s: State, step: Step, o: Ref)
    requires Fine(s, o) && Apply(s, step).Some?
    requires step.EngineStatus? || step.RemoveEngine?
    ensures Safe(Apply(s, step).value, o)
  {
  }

  lemma StepIsSafe(s: State, step: Step, o: Ref)
    requires Fine(s, o) && Apply(s, step).Some? && !ClashOn(s, step, s.tasks[o].id) && !step.Deliver?
    ensures o in Apply(s, step).value.tasks && Safe(Apply(s, step).value, o)
  {
    TasksStay(s, step);
    match step
    case Dequeue => DequeueIsSafe(s, step, o);
    case Assign(_) => AssignIsSafe(s, step, o);
    case FindFails => SendIsSafe(s, step, o);
    case SendEnds(_) => SendIsSafe(s, step, o);
    case Arrive(_) => LookUpIsSafe(s, step, o);
    case LookUp(_) => LookUpIsSafe(s, step, o);
    case Receive(_, _, _) => ReceiveIsSafe(s, step, o);
    case Unassign(_) => UnassignIsSafe(s, step, o);
    case Cancel(_) => EndIsSafe(s, step, o);
    case Deregister(_) => EndIsSafe(s, step, o);
    case Drain(_) => EndIsSafe(s, step, o);
    case EngineStatus(_, _, _) => EnginesAreSafe(s, step, o);
    case RemoveEngine(_, _) => EnginesAreSafe(s, step, o);
    case _ => QueueIsSafe(s, step, o);
  }

  // ---------------------------------------------------------------------------------------------
  // One task through whole runs.

  /** The ID leads to its running task, and the object, if it is a task with that ID, is safe. */
  ghost predicate GoodFor(s: State, id: TaskId, o: Ref) {
    Owned(s, id) && (o in s.tasks && s.tasks[o].id == id ==> Safe(s, o))
  }

  /** The step is a clash on the ID or drops the error that the task needs. */
  predicate Harms(s: State, step: Step, id: TaskId, o: Ref) {
    ClashOn(s, step, id) || (DropsFor(s, step, o) && s.tasks[o].id == id)
  }

  /** A step keeps one task good if and only if it does not harm that task. */
  lemma GoodForIff(s: State, step: Step, id: TaskId, o: Ref)
    requires Inv(s) && GoodFor(s, id, o) && Apply(s, step).Some?
    ensures GoodFor(Apply(s, step).value, id, o) <==> !Harms(s, step, id, o)
  {
    OwnedIff(s, step, id);
    TasksStay(s, step);
    if o in s.tasks {
      assert TaskInv(s, o);
      StepKeepsIdentity(s, step, o);
      if s.tasks[o].id == id && !ClashOn(s, step, id) {
        if step.Deliver? {
          DeliverIsSafeIff(s, step, o);
        } else {
          StepIsSafe(s, step, o);
        }
      }
    } else if step.Submit? {
      NewIsSafe(s, step);
    }
  }

  ghost predicate QuietFor(s: State, steps: seq<Step>, id: TaskId, o: Ref)
    requires Exec(s, steps).Some?
    decreases |steps|
  {
    steps == [] || (!Harms(s, steps[0], id, o) && QuietFor(Apply(s, steps[0]).value, steps[1..], id, o))
  }

  ghost predicate AlwaysGoodFor(s: State, steps: seq<Step>, id: TaskId, o: Ref)
    requires Exec(s, steps).Some?
    decreases |steps|
  {
    GoodFor(s, id, o) && (steps == [] || AlwaysGoodFor(Apply(s, steps[0]).value, steps[1..], id, o))
  }

  /** Along every run, one task is good in all states if and only if no step harms that task. */
  lemma {:induction false} RunGoodForIff(s: State, steps: seq<Step>, id: TaskId, o: Ref)
    requires Inv(s) && GoodFor(s, id, o) && Exec(s, steps).Some?
    ensures AlwaysGoodFor(s, steps, id, o) <==> QuietFor(s, steps, id, o)
    ensures QuietFor(s, steps, id, o) ==> GoodFor(Exec(s, steps).value, id, o)
    decreases |steps|
  {
    if steps != [] {
      StepKeepsInv(s, steps[0]);
      GoodForIff(s, steps[0], id, o);
      if GoodFor(Apply(s, steps[0]).value, id, o) {
        RunGoodForIff(Apply(s, steps[0]).value, steps[1..], id, o);
      }
    }
  }

  /** In every state of a run that does not harm this task, whatever happens to others: while it is in
      progress and assigned, its engine is registered or an error is coming, unless its goroutine is
      already ending or unassigning it or blocked in the caller's callback; and while it waits, it is on its
      way, has an error coming, or is with a registered engine. */
  lemma NothingStranded(steps: seq<Step>, o: Ref)
    requires Exec(INIT, steps).Some? && o in Exec(INIT, steps).value.tasks
    requires QuietFor(INIT, steps, Exec(INIT, steps).value.tasks[o].id, o)
    ensures var s := Exec(INIT, steps).value;
            var t := s.tasks[o];
            && (Live(t) && t.engine != "" ==>
                  EngineRegistered(s, o) || ErrorComing(s, o) || t.pc.Requeuing? || t.pc.Returned? || t.pc.Stuck?)
            && (t.pc.Receiving? ==>
                  || InMotion(s, o) || ErrorComing(s, o)
                  || ((s.sent[o] > 0 || s.scheduler == Sending(o)) && EngineRegistered(s, o)))
  {
    var s := Exec(INIT, steps).value;
    InitIsGood();
    RunGoodForIff(INIT, steps, s.tasks[o].id, o);
    RunKeepsInv(INIT, steps);
    assert TaskInv(s, o);
  }

  // ---------------------------------------------------------------------------------------------
  // All tasks through whole runs.

  /** Every ID leads to its running task, and all waiting tasks that need an error have one coming. */
  ghost predicate Good(s: State) {
    AllOwned(s) && AllSafe(s)
  }

  lemma GoodIsForAll(s: State)
    ensures Good(s) <==> forall id, o :: GoodFor(s, id, o)
  {
    if forall id, o :: GoodFor(s, id, o) {
      forall id: TaskId ensures Owned(s, id) {
        assert GoodFor(s, id, 0);
      }
      forall o | o in s.tasks ensures Safe(s, o) {
        assert GoodFor(s, s.tasks[o].id, o);
      }
    }
  }

  lemma HarmlessIsForAll(s: State, step: Step)
    ensures !Clash(s, step) && !Drops(s, step) <==> forall id, o :: !Harms(s, step, id, o)
  {
    if Clash(s, step) {
      assert Harms(s, step, step.id, 0);
    }
    if Drops(s, step) {
      assert Harms(s, step, s.tasks[step.delivery.task].id, step.delivery.task);
    }
  }

  /** A step keeps the state good if and only if it is neither a clash nor drops a needed error. */
  lemma GoodIff(s: State, step: Step)
    requires Inv(s) && Good(s) && Apply(s, step).Some?
    ensures Good(Apply(s, step).value) <==> !Clash(s, step) && !Drops(s, step)
  {
    GoodIsForAll(s);
    forall id, o ensures GoodFor(Apply(s, step).value, id, o) <==> !Harms(s, step, id, o) {
      GoodForIff(s, step, id, o);
    }
    GoodIsForAll(Apply(s, step).value);
    HarmlessIsForAll(s, step);
  }

  lemma NewIsSafe(s: State, step: Step)
    requires step.Submit? && Apply(s, step).Some?
    ensures Safe(Apply(s, step).value, step.task)
  {
  }

  /** A run without clashes and without dropped errors that were needed. */
  ghost predicate Quiet(s: State, steps: seq<Step>)
    requires Exec(s, steps).Some?
    decreases |steps|
  {
    steps == [] || (!Clash(s, steps[0]) && !Drops(s, steps[0]) && Quiet(Apply(s, steps[0]).value, steps[1..]))
  }

  ghost predicate AlwaysGood(s: State, steps: seq<Step>)
    requires Exec(s, steps).Some?
    decreases |steps|
  {
    Good(s) && (steps == [] || AlwaysGood(Apply(s, steps[0]).value, steps[1..]))
  }

  /** Along every run, all states are good if and only if the run is quiet. */
  lemma {:induction false} RunGoodIff(s: State, steps: seq<Step>)
    requires Inv(s) && Good(s) && Exec(s, steps).Some?
    ensures AlwaysGood(s, steps) <==> Quiet(s, steps)
    ensures Quiet(s, steps) ==> Good(Exec(s, steps).value)
    decreases |steps|
  {
    if steps != [] {
      StepKeepsInv(s, steps[0]);
      GoodIff(s, steps[0]);
      if Good(Apply(s, steps[0]).value) {
        RunGoodIff(Apply(s, steps[0]).value, steps[1..]);
      }
    }
  }

  lemma InitIsGood()
    ensures Inv(INIT) && Good(INIT)
  {
  }

  // ---------------------------------------------------------------------------------------------
  // A clash can always be driven on until a task is stranded.

  /** A step that is neither a clash nor drops a needed error. */
  ghost predicate QuietStep(s: State, step: Step, s': State) {
    Apply(s, step) == Some(s') && !Clash(s, step) && !Drops(s, step)
  }

  ghost predicate Path(states: seq<State>, steps: seq<Step>) {
    |states| == |steps| + 1 && forall i :: 0 <= i < |steps| ==> QuietAt(states, steps, i)
  }

  ghost predicate QuietAt(states: seq<State>, steps: seq<Step>, i: nat)
    requires i < |steps| < |states|
  {
    QuietStep(states[i], steps[i], states[i + 1])
  }

  /** Such steps lead from one state to the other. */
  ghost predicate CanReach(s: State, s': State) {
    exists states, steps :: Path(states, steps) && states[0] == s && states[|steps|] == s'
  }

  lemma ReachSelf(s: State)
    ensures CanReach(s, s)
  {
    var none: seq<Step> := [];
    assert Path([s], none) && [s][|none|] == s;
  }

  lemma ReachQuiet(start: State, s: State, step: Step, s': State)
    requires CanReach(start, s) && QuietStep(s, step, s')
    ensures CanReach(start, s')
  {
    var states, steps :| Path(states, steps) && states[0] == start && states[|steps|] == s;
    var states', steps' := states + [s'], steps + [step];
    forall i | 0 <= i < |steps'| ensures QuietAt(states', steps', i) {
      if i < |steps| {
        assert QuietAt(states, steps, i);
      }
    }
    assert Path(states', steps') && states'[|steps'|] == s';
  }

  lemma ReachOn(start: State, s: State, step: Step, s': State)
    requires CanReach(start, s) && Apply(s, step) == Some(s') && !step.Submit? && !step.Deliver?
    ensures CanReach(start, s')
  {
    ReachQuiet(start, s, step, s');
  }

  lemma {:induction false} PathKeepsGood(states: seq<State>, steps: seq<Step>, n: nat)
    requires Path(states, steps) && n <= |steps| && Inv(states[0]) && Good(states[0])
    ensures Inv(states[n]) && Good(states[n])
  {
    if n > 0 {
      PathKeepsGood(states, steps, n - 1);
      assert QuietAt(states, steps, n - 1);
      QuietAtKeepsGood(states, steps, n - 1);
    }
  }

  lemma QuietAtKeepsGood(states: seq<State>, steps: seq<Step>, i: nat)
    requires i < |steps| < |states| && QuietAt(states, steps, i) && Inv(states[i]) && Good(states[i])
    ensures Inv(states[i + 1]) && Good(states[i + 1])
  {
    QuietStepKeepsGood(states[i], steps[i], states[i + 1]);
  }

  lemma QuietStepKeepsGood(s: State, step: Step, s': State)
    requires Inv(s) && Good(s) && QuietStep(s, step, s')
    ensures Inv(s') && Good(s')
  {
    StepKeepsInv(s, step);
    GoodIff(s, step);
  }

  lemma ReachableIsGood(s: State)
    requires CanReach(INIT, s)
    ensures Inv(s) && Good(s)
  {
    var states, steps :| Path(states, steps) && states[0] == INIT && states[|steps|] == s;
    InitIsGood();
    PathKeepsGood(states, steps, |steps|);
  }

  /** The tasks and everything that leads to them are as before. */
  predicate SameTasks(s: State, s': State) {
    s'.tasks == s.tasks && s'.inProgress == s.inProgress && s'.engines == s.engines && s'.toSend == s.toSend
  }

  lemma SchedulerHasTask(s: State)
    requires Inv(s) && !s.scheduler.Idle?
    ensures s.scheduler.task in s.tasks
  {
    assert if s.scheduler.task in s.tasks then TaskInv(s, s.scheduler.task) else Unused(s, s.scheduler.task);
  }

  lemma FreeScheduler(start: State, s: State) returns (s': State)
    requires Inv(s) && CanReach(start, s)
    ensures Inv(s') && CanReach(start, s') && SameTasks(s, s') && s'.scheduler.Idle? && s'.queue == s.queue
  {
    s' := s;
    if !s.scheduler.Idle? {
      SchedulerHasTask(s);
      var step := if s.scheduler.Holding? then FindFails else SendEnds(false);
      s' := SchedulerFails(s);
      assert Apply(s, step) == Some(s');
      StepKeepsInv(s, step);
      ReachOn(start, s, step, s');
    }
  }

  lemma {:induction false} EmptyQueue(start: State, s: State) returns (s': State)
    requires Inv(s) && CanReach(start, s)
    ensures Inv(s') && CanReach(start, s') && SameTasks(s, s') && s'.scheduler.Idle? && s'.queue == []
    decreases |s.queue|
  {
    s' := FreeScheduler(start, s);
    if s'.queue != [] {
      var taken := TakeOne(start, s');
      s' := EmptyQueue(start, taken);
    }
  }

  lemma TakeOne(start: State, s: State) returns (s': State)
    requires Inv(s) && CanReach(start, s) && s.scheduler.Idle? && s.queue != []
    ensures Inv(s') && CanReach(start, s') && SameTasks(s, s') && s'.queue == s.queue[1..]
  {
    s' := Apply(s, Dequeue).value;
    StepKeepsInv(s, Dequeue);
    ReachOn(start, s, Dequeue, s');
  }

  /** Only one task is touched, and it keeps its ID. */
  predicate OnlyTouches(s: State, s': State, o: Ref) {
    && o in s.tasks && s'.tasks.Keys == s.tasks.Keys && s'.tasks[o].id == s.tasks[o].id && s'.toSend == s.toSend
    && forall p :: p in s.tasks && p != o ==> s'.tasks[p] == s.tasks[p]
  }

  lemma ToReceiving(start: State, s: State, o: Ref) returns (s': State)
    requires Inv(s) && CanReach(start, s) && o in s.tasks && s.queue == []
    requires s.tasks[o].pc.Enqueuing? || s.tasks[o].pc.Requeuing?
    ensures Inv(s') && CanReach(start, s') && OnlyTouches(s, s', o)
    ensures s'.tasks[o].pc.Receiving? && s'.inProgress == s.inProgress
  {
    if s.tasks[o].pc.Enqueuing? {
      s' := Enqueued(start, s, o);
    } else {
      s' := Apply(s, Unassign(o)).value;
      StepKeepsInv(s, Unassign(o));
      ReachOn(start, s, Unassign(o), s');
    }
  }

  lemma Enqueued(start: State, s: State, o: Ref) returns (s': State)
    requires Inv(s) && CanReach(start, s) && o in s.tasks && s.queue == [] && s.tasks[o].pc.Enqueuing?
    ensures Inv(s') && CanReach(start, s') && OnlyTouches(s, s', o)
    ensures s'.tasks[o].pc.Receiving? && s'.inProgress == s.inProgress
  {
    s' := Apply(s, Enqueue(o)).value;
    StepKeepsInv(s, Enqueue(o));
    ReachOn(start, s, Enqueue(o), s');
  }

  lemma ToReturned(start: State, s: State, o: Ref) returns (s': State)
    requires Inv(s) && CanReach(start, s) && o in s.tasks && s.tasks[o].pc.Receiving?
    ensures Inv(s') && CanReach(start, s') && OnlyTouches(s, s', o)
    ensures s'.tasks[o].pc.Returned? && s'.inProgress == s.inProgress
  {
    s' := Apply(s, Cancel(o)).value;
    StepKeepsInv(s, Cancel(o));
    ReachOn(start, s, Cancel(o), s');
  }

  lemma ToDraining(start: State, s: State, o: Ref) returns (s': State)
    requires Inv(s) && CanReach(start, s) && o in s.tasks && s.tasks[o].pc.Returned?
    ensures Inv(s') && CanReach(start, s') && OnlyTouches(s, s', o)
    ensures s'.inProgress == s.inProgress - {s.tasks[o].id}
  {
    s' := Apply(s, Deregister(o)).value;
    StepKeepsInv(s, Deregister(o));
    ReachOn(start, s, Deregister(o), s');
  }

  /** The goroutine of a running task can always be brought to its end. */
  lemma EndTask(start: State, s: State, o: Ref) returns (s': State)
    requires Inv(s) && CanReach(start, s) && o in s.tasks && Running(s.tasks[o]) && s.queue == []
    ensures Inv(s') && CanReach(start, s') && OnlyTouches(s, s', o) && s'.inProgress == s.inProgress - {s.tasks[o].id}
  {
    s' := s;
    if s'.tasks[o].pc.Enqueuing? || s'.tasks[o].pc.Requeuing? {
      s' := ToReceiving(start, s', o);
    }
    if s'.tasks[o].pc.Receiving? {
      s' := ToReturned(start, s', o);
    }
    s' := ToDraining(start, s', o);
  }

  /** Nothing leads to the task any more, and nothing is on its way to it. */
  predicate CutOff(s: State, o: Ref, t: Task) {
    && o in s.tasks && s.tasks[o] == t && t.buffer == [] && t.id !in s.inProgress
    && Delivery(o, Error) !in s.toSend
  }

  lemma ToHolding(start: State, s: State, o: Ref, t: Task) returns (s': State)
    requires CanReach(start, s) && s.queue == [] && s.scheduler.Idle? && CutOff(s, o, t) && t.pc.Enqueuing?
    ensures CanReach(start, s') && CutOff(s', o, t.(pc := Receiving)) && s'.scheduler == Holding(o)
  {
    var s1 := Apply(s, Enqueue(o)).value;
    ReachOn(start, s, Enqueue(o), s1);
    assert s1.queue == [o] && CutOff(s1, o, t.(pc := Receiving));
    s' := Apply(s1, Dequeue).value;
    ReachOn(start, s1, Dequeue, s');
  }

  lemma EngineComes(start: State, s: State, o: Ref, t: Task, e: EngineId) returns (s': State)
    requires CanReach(start, s) && CutOff(s, o, t) && s.scheduler == Holding(o)
    ensures CanReach(start, s') && CutOff(s', o, t) && s'.scheduler == Holding(o) && Registered(s'.engines, t.tenant, e)
  {
    var step := EngineStatus(t.tenant, e, Engine(true, true, {}));
    s' := Apply(s, step).value;
    ReachOn(start, s, step, s');
  }

  lemma ToAssigned(start: State, s: State, o: Ref, t: Task, e: EngineId) returns (s': State)
    requires CanReach(start, s) && CutOff(s, o, t) && s.scheduler == Holding(o) && Registered(s.engines, t.tenant, e)
    requires t.target == "" || t.target == e
    ensures CanReach(start, s') && CutOff(s', o, t.(engine := e))
  {
    s' := Apply(s, Assign(e)).value;
    ReachOn(start, s, Assign(e), s');
  }

  lemma EngineGoes(start: State, s: State, o: Ref, t: Task) returns (s': State)
    requires CanReach(start, s) && CutOff(s, o, t)
    ensures CanReach(start, s') && CutOff(s', o, t) && !Registered(s'.engines, t.tenant, t.engine)
  {
    var step := Step.RemoveEngine(t.tenant, t.engine);
    s' := Apply(s, step).value;
    ReachOn(start, s, step, s');
  }

  /** A task that cannot be found any more is assigned to an engine, which goes away. */
  lemma AssignAndRemove(start: State, s: State, o: Ref, t: Task) returns (s': State)
    requires CanReach(start, s) && s.queue == [] && s.scheduler.Idle? && CutOff(s, o, t) && t.pc.Enqueuing?
    ensures CanReach(start, s') && o in s'.tasks && !Safe(s', o)
  {
    var e, t' := if t.target != "" then t.target else "engine", t.(pc := Receiving);
    var s1 := ToHolding(start, s, o, t);
    var s2 := EngineComes(start, s1, o, t', e);
    var s3 := ToAssigned(start, s2, o, t', e);
    s' := EngineGoes(start, s3, o, t'.(engine := e));
  }

  ghost predicate CanStrand(s: State) {
    exists s' :: CanReach(s, s') && !AllSafe(s')
  }

  /** After a clash: the first task ends, which takes the ID of the second out of the map, and then the
      engine of the second goes away without a word to it. */
  lemma ClashStrands(s: State, step: Step)
    requires Inv(s) && Clash(s, step) && Apply(s, step).Some?
    ensures CanStrand(Apply(s, step).value)
  {
    var start, first, second := Apply(s, step).value, s.inProgress[step.id], step.task;
    assert EntryInv(s, step.id) && Unused(s, second);
    assert s.toSend[Delivery(second, Error)] == 0;
    StepKeepsInv(s, step);
    ReachSelf(start);
    var s1 := EmptyQueue(start, start);
    var s2 := EndTask(start, s1, first);
    var s3 := EmptyQueue(start, s2);
    var s4 := AssignAndRemove(start, s3, second, start.tasks[second]);
    assert !AllSafe(s4);
  }

  /** After a quiet run, a submission opens the way to a stranded task if and only if a running task with
      its ID is in progress. */
  lemma SubmitStrandsIff(steps: seq<Step>, step: Step)
    requires Exec(INIT, steps).Some? && Quiet(INIT, steps)
    requires step.Submit? && Apply(Exec(INIT, steps).value, step).Some?
    ensures CanStrand(Apply(Exec(INIT, steps).value, step).value) <==> Busy(Exec(INIT, steps).value, step.id)
  {
    var s := Exec(INIT, steps).value;
    InitIsGood();
    RunGoodIff(INIT, steps);
    RunKeepsInv(INIT, steps);
    if Clash(s, step) {
      ClashStrands(s, step);
    } else {
      GoodIff(s, step);
      StepKeepsInv(s, step);
      forall s' | CanReach(Apply(s, step).value, s') ensures AllSafe(s') {
        var states, steps' :| Path(states, steps') && states[0] == Apply(s, step).value && states[|steps'|] == s';
        PathKeepsGood(states, steps', |steps'|);
      }
    }
  }

  // ---------------------------------------------------------------------------------------------
  // A full buffer can strand a task as well.

  const RESULT := Result(TaskResult(1, ServerSentEvent([], false)))

  /** The task is found under its ID, no error is on its way to it, and its goroutine has not looked at
      its results. */
  predicate NoError(s: State, o: Ref, t: Task) {
    && o in s.tasks && s.tasks[o] == t && Mapped(s, o) && Error !in t.buffer
    && Post(t.id, Error) !in s.toLookUp && Delivery(o, Error) !in s.toSend
  }

  lemma Submitted() returns (s: State)
    ensures CanReach(INIT, s) && NoError(s, 0, NewTask("task", "tenant", "", true))
    ensures s.queue == [] && s.scheduler.Idle?
  {
    var step := Submit(0, "task", "tenant", "", true);
    s := Apply(INIT, step).value;
    ReachSelf(INIT);
    ReachQuiet(INIT, INIT, step, s);
  }

  lemma Held(s: State, t: Task) returns (s': State)
    requires CanReach(INIT, s) && NoError(s, 0, t) && t.pc.Enqueuing? && s.queue == [] && s.scheduler.Idle?
    ensures CanReach(INIT, s') && NoError(s', 0, t.(pc := Receiving)) && s'.scheduler == Holding(0)
  {
    var s1 := Apply(s, Enqueue(0)).value;
    ReachOn(INIT, s, Enqueue(0), s1);
    assert s1.queue == [0] && NoError(s1, 0, t.(pc := Receiving));
    s' := Apply(s1, Dequeue).value;
    ReachOn(INIT, s1, Dequeue, s');
  }

  lemma Assigned(s: State, t: Task) returns (s': State)
    requires CanReach(INIT, s) && NoError(s, 0, t) && s.scheduler == Holding(0) && t.target == ""
    ensures CanReach(INIT, s') && NoError(s', 0, t.(engine := "engine"))
  {
    var up := EngineStatus(t.tenant, "engine", Engine(true, true, {}));
    var s1 := Apply(s, up).value;
    ReachOn(INIT, s, up, s1);
    assert NoError(s1, 0, t) && s1.scheduler == Holding(0) && Registered(s1.engines, t.tenant, "engine");
    s' := Apply(s1, Assign("engine")).value;
    ReachOn(INIT, s1, Assign("engine"), s');
  }

  lemma LookedUp(s: State, t: Task, r: ResultOrError) returns (s': State)
    requires CanReach(INIT, s) && NoError(s, 0, t) && r.Result?
    ensures CanReach(INIT, s') && NoError(s', 0, t) && Delivery(0, r) in s'.toSend
  {
    var p := Post(t.id, r);
    var s1 := Apply(s, Arrive(p)).value;
    ReachOn(INIT, s, Arrive(p), s1);
    assert NoError(s1, 0, t) && p in s1.toLookUp;
    s' := Apply(s1, LookUp(p)).value;
    ReachOn(INIT, s1, LookUp(p), s');
  }

  lemma Delivered(s: State, t: Task, r: ResultOrError) returns (s': State)
    requires CanReach(INIT, s) && NoError(s, 0, t) && r.Result? && |t.buffer| < TASK_RESULT_BUFFER_SIZE
    ensures CanReach(INIT, s') && NoError(s', 0, t.(buffer := t.buffer + [r]))
  {
    var s1 := LookedUp(s, t, r);
    var step := Deliver(Delivery(0, r));
    s' := Apply(s1, step).value;
    ReachQuiet(INIT, s1, step, s');
  }

  lemma {:induction false} Filled(s: State, t: Task) returns (s': State, b: seq<ResultOrError>)
    requires CanReach(INIT, s) && NoError(s, 0, t) && |t.buffer| <= TASK_RESULT_BUFFER_SIZE
    ensures CanReach(INIT, s') && NoError(s', 0, t.(buffer := b)) && |b| == TASK_RESULT_BUFFER_SIZE
    decreases TASK_RESULT_BUFFER_SIZE - |t.buffer|
  {
    s', b := s, t.buffer;
    if |b| < TASK_RESULT_BUFFER_SIZE {
      var s1 := Delivered(s, t, RESULT);
      s', b := Filled(s1, t.(buffer := t.buffer + [RESULT]));
    }
  }

  /** The engine goes, and the error about it is about to be written. */
  lemma Removed(s: State, t: Task) returns (s': State)
    requires CanReach(INIT, s) && NoError(s, 0, t) && t.engine != ""
    ensures CanReach(INIT, s') && 0 in s'.tasks && s'.tasks[0] == t && Mapped(s', 0)
    ensures !Registered(s'.engines, t.tenant, t.engine)
    ensures s'.toSend[Delivery(0, Error)] == 1 && Post(t.id, Error) !in s'.toLookUp
  {
    var down, p := Step.RemoveEngine(t.tenant, t.engine), Post(t.id, Error);
    var s1 := Apply(s, down).value;
    ReachOn(INIT, s, down, s1);
    assert AssignedTo(s.tasks, s.inProgress, t.id, t.engine);
    assert s1.toLookUp[p] == 1;
    s' := Apply(s1, LookUp(p)).value;
    ReachOn(INIT, s1, LookUp(p), s');
  }

  /** With a hundred results still to be read, the error that an engine is gone is dropped, and the task
      waits for that engine. */
  lemma FullBufferStrands()
    ensures exists s, step :: CanReach(INIT, s) && Drops(s, step) && Apply(s, step).Some? && !AllSafe(Apply(s, step).value)
  {
    var s0 := Submitted();
    var t := NewTask("task", "tenant", "", true);
    var s1 := Held(s0, t);
    var s2 := Assigned(s1, t.(pc := Receiving));
    var s3, b := Filled(s2, t.(pc := Receiving, engine := "engine"));
    var last := t.(pc := Receiving, engine := "engine", buffer := b);
    var s4 := Removed(s3, last);
    var step := Deliver(Delivery(0, Error));
    assert Drops(s4, step);
    var end := Apply(s4, step).value;
    assert end.tasks[0] == last && !Safe(end, 0);
  }
}
