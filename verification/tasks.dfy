/**
 The task protocol of server/internal/infprocessor as a state machine.

 Every step is one mutex-held section, one channel operation, or one stretch of code that touches
 only the task's own fields. Steps of the scheduler, of the tasks' receive loops, of retry timers, of
 result writers and of engine (dis)connections interleave freely.
 */
module Tasks {
  import opened Common
  import opened Engines
  import Sse

  type TaskId = string

  /** The identity of a task object. Two objects can carry the same task ID. */
  type Ref = nat

  const MAX_RETRY_COUNT := 3
  const TASK_QUEUE_SIZE := 100
  const TASK_RESULT_BUFFER_SIZE := 100

  datatype Message =
    | HttpResponse(status: int, body: Sse.bytes)
    | ServerSentEvent(data: Sse.bytes, isLast: bool)
    | Unexpected

  datatype TaskResult = TaskResult(index: int, message: Message)

  datatype ResultOrError = Result(result: TaskResult) | Error

  /** Where the goroutine that owns the task is: about to enqueue it for the first time, waiting for
      results, about to unassign it and arm a retry timer, past its loop but still registered, about
      to drain the result buffer, done, or blocked for good in the caller's callback. */
  datatype Pc = Enqueuing | Receiving | Requeuing | Returned(ok: bool) | Draining | Gone | Stuck

  /** `target`, `engine`: an engine ID, or "" for none. `delivered` are the results handed on to the
      caller. */
  datatype Task = Task(
    id: TaskId, tenant: Tenant, target: EngineId, stream: bool,
    engine: EngineId, ignored: set<EngineId>, retryCount: nat, nextResultIndex: nat,
    buffer: seq<ResultOrError>, pc: Pc, delivered: seq<TaskResult>)

  function NewTask(id: TaskId, tenant: Tenant, target: EngineId, stream: bool): Task {
    Task(id, tenant, target, stream, "", {}, 0, 0, [], Enqueuing, [])
  }

  /** The goroutine of the task has not yet taken its ID out of the in-progress map. */
  predicate Live(t: Task) {
    !t.pc.Draining? && !t.pc.Gone?
  }

  // ---------------------------------------------------------------------------------------------
  // One result in the receive loop.

  /** How the caller's callback took a result. Blocks: it does not return. */
  datatype Verdict = Accepted | Retriable | Fatal | Blocks

  /** Whether the result ends the task; None is the error for an unexpected message. */
  function IsTaskCompleted(stream: bool, m: Message): Option<bool> {
    match m
    case HttpResponse(code, _) =>
      if !stream then Some(true)
      else if code == 503 then Some(false)
      else Some(code < 200 || code >= 400)
    case ServerSentEvent(_, isLast) => Some(isLast)
    case Unexpected => None
  }

  predicate CanRetry(t: Task, retriable: bool, inTime: bool) {
    retriable && t.target == "" && t.retryCount < MAX_RETRY_COUNT && inTime
  }

  function OnError(t: Task, retriable: bool, inTime: bool): Task {
    if t.nextResultIndex > 0 || !CanRetry(t, retriable, inTime) then t.(pc := Returned(false))
    else t.(retryCount := t.retryCount + 1,
            ignored := t.ignored + (if t.engine != "" then {t.engine} else {}),
            pc := Requeuing)
  }

  function OnAccepted(t: Task, r: TaskResult): Task {
    var t' := t.(nextResultIndex := t.nextResultIndex + 1, delivered := t.delivered + [r]);
    match IsTaskCompleted(t.stream, r.message)
    case None => t'.(pc := Returned(false))
    case Some(done) => if done then t'.(pc := Returned(true)) else t'
  }

  function OnResult(t: Task, r: ResultOrError, verdict: Verdict, inTime: bool): Task {
    match r
    case Error => OnError(t, true, inTime)
    case Result(res) =>
      if res.index != 0 && res.index != t.nextResultIndex then t.(pc := Returned(false))
      else match verdict
        case Accepted => OnAccepted(t, res)
        case Retriable => OnError(t, true, inTime)
        case Fatal => OnError(t, false, inTime)
        case Blocks => t.(pc := Stuck)
  }

  /** A result writer: a full buffer drops what is written. */
  function Written(t: Task, r: ResultOrError): Task {
    if |t.buffer| < TASK_RESULT_BUFFER_SIZE then t.(buffer := t.buffer + [r]) else t
  }

  // ---------------------------------------------------------------------------------------------
  // The state machine.

  /** A result for whatever task has the ID, and one for a task object that was looked up. */
  datatype Post = Post(id: TaskId, r: ResultOrError)
  datatype Delivery = Delivery(task: Ref, r: ResultOrError)

  datatype Scheduler = Idle | Holding(task: Ref) | Sending(task: Ref)

  /** `tasks` holds every task object there ever was, also those that have left `inProgress`: stale copies
      and timers still refer to them. `timers` are armed retry timers (and timer goroutines that wait for
      room in the queue). `dequeued` and `sent` count the copies taken off the queue and handed to an
      engine. `toLookUp` and `toSend` are results about to be written, before and after the writer
      has found the task in the in-progress map. */
  datatype State = State(
    engines: Table, tasks: map<Ref, Task>, inProgress: map<TaskId, Ref>,
    queue: seq<Ref>, timers: multiset<Ref>, dequeued: multiset<Ref>, sent: multiset<Ref>,
    scheduler: Scheduler, toLookUp: multiset<Post>, toSend: multiset<Delivery>)

  const INIT := State(map[], map[], map[], [], multiset{}, multiset{}, multiset{}, Idle, multiset{}, multiset{})

  datatype Step =
    | Submit(task: Ref, id: TaskId, tenant: Tenant, target: EngineId, stream: bool)
    | Enqueue(task: Ref)
    | Dequeue
    | Assign(engine: EngineId)
    | FindFails
    | SendEnds(ok: bool)
    | Arrive(post: Post)
    | LookUp(post: Post)
    | Deliver(delivery: Delivery)
    | Receive(task: Ref, verdict: Verdict, inTime: bool)
    | Unassign(task: Ref)
    | TimerFires(task: Ref)
    | Cancel(task: Ref)
    | Deregister(task: Ref)
    | Drain(task: Ref)
    | EngineStatus(tenant: Tenant, engine: EngineId, status: Engine)
    | RemoveEngine(tenant: Tenant, engine: EngineId)

  /** The task object that an ID stands for is assigned to the engine. */
  predicate AssignedTo(tasks: map<Ref, Task>, inProgress: map<TaskId, Ref>, id: TaskId, e: EngineId) {
    id in inProgress && inProgress[id] in tasks && tasks[inProgress[id]].engine == e
  }

  /** The posts that `RemoveEngine` makes: an error for every in-progress task of the engine. */
  function RemovalErrors(s: State, e: EngineId): multiset<Post> {
    multiset(set id | id in s.inProgress && AssignedTo(s.tasks, s.inProgress, id, e) :: Post(id, Error))
  }

  function SetTask(s: State, o: Ref, t: Task): State {
    s.(tasks := s.tasks[o := t])
  }

  /** The scheduler's error goes back to the task like any other result, by its ID. */
  function SchedulerFails(s: State): State
    requires !s.scheduler.Idle? && s.scheduler.task in s.tasks
  {
    s.(scheduler := Idle, toLookUp := s.toLookUp + multiset{Post(s.tasks[s.scheduler.task].id, Error)})
  }

  /** The state after a step, or None if the step is not possible. */
  function Apply(s: State, step: Step): Option<State> {
    match step
    case Submit(o, id, tenant, target, stream) =>
      if o in s.tasks then None
      else Some(SetTask(s, o, NewTask(id, tenant, target, stream)).(inProgress := s.inProgress[id := o]))
    case Enqueue(o) =>
      if o in s.tasks && s.tasks[o].pc.Enqueuing? && |s.queue| < TASK_QUEUE_SIZE
      then Some(SetTask(s, o, s.tasks[o].(pc := Receiving)).(queue := s.queue + [o])) else None
    case Dequeue =>
      if s.scheduler.Idle? && s.queue != []
      then Some(s.(scheduler := Holding(s.queue[0]), queue := s.queue[1..], dequeued := s.dequeued + multiset{s.queue[0]}))
      else None
    case Assign(e) =>
      if !(s.scheduler.Holding? && s.scheduler.task in s.tasks) then None
      else
        var o, t := s.scheduler.task, s.tasks[s.scheduler.task];
        if t.target != "" && t.target != e then None
        else if !Registered(s.engines, t.tenant, e) then Some(SchedulerFails(s))
        else Some(SetTask(s, o, t.(engine := e)).(scheduler := Sending(o)))
    case FindFails =>
      if s.scheduler.Holding? && s.scheduler.task in s.tasks then Some(SchedulerFails(s)) else None
    case SendEnds(ok) =>
      if !(s.scheduler.Sending? && s.scheduler.task in s.tasks) then None
      else if ok then Some(s.(scheduler := Idle, sent := s.sent + multiset{s.scheduler.task}))
      else Some(SchedulerFails(s))
    case Arrive(p) => if p.r.Result? then Some(s.(toLookUp := s.toLookUp + multiset{p})) else None
    case LookUp(p) =>
      if p !in s.toLookUp then None
      else Some(s.(toLookUp := s.toLookUp - multiset{p}, toSend := s.toSend + Found(s, p)))
    case Deliver(d) =>
      if d in s.toSend && d.task in s.tasks
      then Some(SetTask(s, d.task, Written(s.tasks[d.task], d.r)).(toSend := s.toSend - multiset{d})) else None
    case Receive(o, verdict, inTime) =>
      if o in s.tasks && s.tasks[o].pc.Receiving? && s.tasks[o].buffer != [] then
        var t := s.tasks[o];
        Some(SetTask(s, o, OnResult(t.(buffer := t.buffer[1..]), t.buffer[0], verdict, inTime)))
      else None
    case Unassign(o) =>
      if o in s.tasks && s.tasks[o].pc.Requeuing?
      then Some(SetTask(s, o, s.tasks[o].(engine := "", pc := Receiving)).(timers := s.timers + multiset{o}))
      else None
    case TimerFires(o) =>
      if o in s.timers && |s.queue| < TASK_QUEUE_SIZE
      then Some(s.(timers := s.timers - multiset{o}, queue := s.queue + [o])) else None
    case Cancel(o) =>
      if o in s.tasks && s.tasks[o].pc.Receiving? then Some(SetTask(s, o, s.tasks[o].(pc := Returned(false)))) else None
    case Deregister(o) =>
      if o in s.tasks && s.tasks[o].pc.Returned?
      then Some(SetTask(s, o, s.tasks[o].(pc := Draining)).(inProgress := s.inProgress - {s.tasks[o].id})) else None
    case Drain(o) =>
      if o in s.tasks && s.tasks[o].pc.Draining?
      then Some(SetTask(s, o, s.tasks[o].(pc := Gone, buffer := []))) else None
    case EngineStatus(tenant, e, status) => Some(s.(engines := Put(s.engines, tenant, e, status)))
    case RemoveEngine(tenant, e) =>
      Some(s.(engines := Remove(s.engines, tenant, e), toLookUp := s.toLookUp + RemovalErrors(s, e)))
  }

  function Found(s: State, p: Post): multiset<Delivery> {
    if p.id in s.inProgress then multiset{Delivery(s.inProgress[p.id], p.r)} else multiset{}
  }

  /** The state after a run of steps, or None if some step is not possible. */
  function Exec(s: State, steps: seq<Step>): Option<State>
    decreases |steps|
  {
    if steps == [] then Some(s)
    else
      var s' := Apply(s, steps[0]);
      if s'.None? then None else Exec(s'.value, steps[1..])
  }

  // ---------------------------------------------------------------------------------------------
  // What every run keeps, whatever IDs are submitted.

  function InHand(t: Task): nat {
    if t.pc.Enqueuing? || t.pc.Requeuing? then 1 else 0
  }

  /** All copies of a task there ever were: in the queue, behind a timer, taken off the queue, or
      about to be enqueued by the task's own goroutine. */
  function Copies(s: State, o: Ref): nat
    requires o in s.tasks
  {
    multiset(s.queue)[o] + s.timers[o] + s.dequeued[o] + InHand(s.tasks[o])
  }

  ghost predicate Counted(s: State, o: Ref)
    requires o in s.tasks
  {
    var t := s.tasks[o];
    && Copies(s, o) == 1 + t.retryCount
    && t.retryCount <= MAX_RETRY_COUNT
    && (t.target != "" ==> t.retryCount == 0)
    && (t.pc.Enqueuing? ==> t.retryCount == 0)
    && s.sent[o] + (if !s.scheduler.Idle? && s.scheduler.task == o then 1 else 0) <= s.dequeued[o]
  }

  ghost predicate Kept(t: Task) {
    && |t.buffer| <= TASK_RESULT_BUFFER_SIZE
    && t.nextResultIndex == |t.delivered|
    && (t.pc.Enqueuing? ==> t.engine == "")
  }

  ghost predicate TaskInv(s: State, o: Ref)
    requires o in s.tasks
  {
    Counted(s, o) && Kept(s.tasks[o])
  }

  /** Nothing refers to an object that does not exist. */
  ghost predicate Unused(s: State, o: Ref) {
    && o !in s.queue
    && s.timers[o] == 0 && s.dequeued[o] == 0 && s.sent[o] == 0
    && (s.scheduler.Idle? || s.scheduler.task != o)
    && (forall r :: s.toSend[Delivery(o, r)] == 0)
  }

  /** An entry of the in-progress map leads to a live task with that ID. */
  ghost predicate EntryInv(s: State, id: TaskId) {
    id in s.inProgress ==>
      s.inProgress[id] in s.tasks && s.tasks[s.inProgress[id]].id == id && Live(s.tasks[s.inProgress[id]])
  }

  ghost predicate Inv(s: State) {
    && (forall o: Ref :: if o in s.tasks then TaskInv(s, o) else Unused(s, o))
    && (forall id: TaskId :: EntryInv(s, id))
  }

  lemma InitInv()
    ensures Inv(INIT)
  {
  }

  /** What one result can do to a task: nothing about retries once something was accepted, and an
      error never leaves the task waiting. */
  ghost predicate Progress(t: Task, r: ResultOrError, t': Task) {
    && t'.(ignored := t.ignored, retryCount := t.retryCount, nextResultIndex := t.nextResultIndex, pc := t.pc, delivered := t.delivered) == t
    && t'.nextResultIndex - |t'.delivered| == t.nextResultIndex - |t.delivered|
    && t.nextResultIndex <= t'.nextResultIndex && t.delivered <= t'.delivered
    && (if t'.pc.Requeuing?
        then t'.retryCount == t.retryCount + 1 <= MAX_RETRY_COUNT && t.target == "" && t.nextResultIndex == 0
        else t'.retryCount == t.retryCount && (t'.pc.Returned? || ((t'.pc.Receiving? || t'.pc.Stuck?) && r.Result?)))
  }

  lemma ResultMakesProgress(t: Task, r: ResultOrError, verdict: Verdict, inTime: bool)
    requires t.pc.Receiving?
    ensures Progress(t, r, OnResult(t, r, verdict, inTime))
  {
  }

  /** The result cannot be taken: it is an error, or the callback failed and says that another try may help. */
  predicate MayRetry(t: Task, r: ResultOrError, verdict: Verdict) {
    r.Error? || ((r.result.index == 0 || r.result.index == t.nextResultIndex) && verdict.Retriable?)
  }

  /** A task is retried if and only if it may be, nothing was accepted yet, no engine is prescribed, less than
      three retries were made and there is time; then the engine that failed is ignored from now on. If it
      is not retried, it ends with an error and is otherwise as it was. */
  lemma RetryIff(t: Task, r: ResultOrError, verdict: Verdict, inTime: bool)
    requires t.pc.Receiving? && Kept(t) && MayRetry(t, r, verdict)
    ensures var t' := OnResult(t, r, verdict, inTime);
            && (t'.pc.Requeuing? <==> t.delivered == [] && t.target == "" && t.retryCount < 3 && inTime)
            && (t'.pc.Requeuing? ==>
                  && t'.retryCount == t.retryCount + 1
                  && (forall e :: e in t'.ignored <==> e in t.ignored || (e == t.engine && e != "")))
            && (!t'.pc.Requeuing? ==> t'.pc == Returned(false) && t' == t.(pc := t'.pc))
            && t'.engine == t.engine && t'.delivered == t.delivered && t'.buffer == t.buffer
  {
  }

  /** A fatal verdict or an unexpected index ends the task with an error, and nothing else changes. */
  lemma FatalEnds(t: Task, r: TaskResult, verdict: Verdict, inTime: bool)
    requires t.pc.Receiving?
    requires verdict.Fatal? || (r.index != 0 && r.index != t.nextResultIndex)
    ensures OnResult(t, Result(r), verdict, inTime) == t.(pc := Returned(false))
  {
  }

  /** An accepted result is delivered. It ends the loop well if it is the last event, or a response that is
      not streamed or is an error other than 503, and with an error if it is neither event nor response. */
  lemma AcceptedOutcome(t: Task, r: TaskResult, inTime: bool)
    requires t.pc.Receiving? && (r.index == 0 || r.index == t.nextResultIndex)
    ensures var t' := OnResult(t, Result(r), Accepted, inTime);
            && t'.delivered == t.delivered + [r] && t'.nextResultIndex == t.nextResultIndex + 1
            && (t'.pc == Returned(false) <==> r.message.Unexpected?)
            && (t'.pc == Returned(true) <==>
                  || (r.message.ServerSentEvent? && r.message.isLast)
                  || (r.message.HttpResponse? && (!t.stream || (r.message.status != 503 && !(200 <= r.message.status < 400)))))
            && (t'.pc.Receiving? || t'.pc.Returned?)
            && t'.retryCount == t.retryCount && t'.ignored == t.ignored
  {
  }

  ghost predicate RetryOf(t: Task, t': Task) {
    && t'.engine == "" && t'.retryCount == t.retryCount + 1
    && t'.ignored == t.ignored + (if t.engine == "" then {} else {t.engine})
  }

  /** The goroutine of a task that is to be retried, and then its timer. */
  lemma TimerQueues(s: State, o: Ref)
    requires o in s.tasks && s.tasks[o].pc.Requeuing? && |s.queue| < TASK_QUEUE_SIZE
    ensures var last := Exec(s, [Unassign(o), TimerFires(o)]);
            && last.Some? && last.value.queue == s.queue + [o]
            && last.value.tasks == s.tasks[o := s.tasks[o].(engine := "", pc := Receiving)]
  {
    var s' := Apply(s, Unassign(o)).value;
    assert s'.timers[o] > 0;
    assert [TimerFires(o)][1..] == [];
    assert [Unassign(o), TimerFires(o)][1..] == [TimerFires(o)];
    assert Exec(s', [TimerFires(o)]) == Apply(s', TimerFires(o));
  }

  /** From the failed result back into the queue: the task loses its engine, its timer is armed, and when the
      timer fires a copy is queued again, behind those that are there; the failed engine is ignored. */
  lemma RetryIsQueued(s: State, o: Ref, verdict: Verdict)
    requires o in s.tasks && s.tasks[o].pc.Receiving? && Kept(s.tasks[o]) && s.tasks[o].buffer != []
    requires MayRetry(s.tasks[o], s.tasks[o].buffer[0], verdict)
    requires s.tasks[o].delivered == [] && s.tasks[o].target == "" && s.tasks[o].retryCount < 3
    requires |s.queue| < TASK_QUEUE_SIZE
    ensures var last := Exec(s, [Receive(o, verdict, true), Unassign(o), TimerFires(o)]);
            && last.Some? && o in last.value.tasks && last.value.queue == s.queue + [o]
            && last.value.tasks[o].pc.Receiving? && RetryOf(s.tasks[o], last.value.tasks[o])
  {
    var t := s.tasks[o].(buffer := s.tasks[o].buffer[1..]);
    RetryIff(t, s.tasks[o].buffer[0], verdict, true);
    var s' := Apply(s, Receive(o, verdict, true)).value;
    TimerQueues(s', o);
    assert [Receive(o, verdict, true), Unassign(o), TimerFires(o)][1..] == [Unassign(o), TimerFires(o)];
  }

  lemma CountHead(queue: seq<Ref>, o: Ref)
    requires queue != []
    ensures multiset(queue)[o] == multiset(queue[1..])[o] + (if queue[0] == o then 1 else 0)
  {
    assert queue == [queue[0]] + queue[1..];
  }

  lemma QueueKeeps(s: State, step: Step, o: Ref)
    requires o in s.tasks && TaskInv(s, o) && Apply(s, step).Some?
    requires step.Submit? || step.Enqueue?
    ensures TaskInv(Apply(s, step).value, o)
  {
  }

  lemma DequeueKeeps(s: State, step: Step, o: Ref)
    requires o in s.tasks && TaskInv(s, o) && Apply(s, step).Some? && step.Dequeue?
    ensures TaskInv(Apply(s, step).value, o)
  {
    CountHead(s.queue, o);
  }

  lemma RetryKeeps(s: State, step: Step, o: Ref)
    requires o in s.tasks && TaskInv(s, o) && Apply(s, step).Some?
    requires step.Unassign? || step.TimerFires?
    ensures TaskInv(Apply(s, step).value, o)
  {
  }

  lemma AssignKeeps(s: State, step: Step, o: Ref)
    requires o in s.tasks && TaskInv(s, o) && Apply(s, step).Some? && step.Assign?
    ensures TaskInv(Apply(s, step).value, o)
  {
  }

  lemma SchedulerKeeps(s: State, step: Step, o: Ref)
    requires o in s.tasks && TaskInv(s, o) && Apply(s, step).Some?
    requires step.FindFails? || step == SendEnds(false)
    ensures TaskInv(Apply(s, step).value, o)
  {
  }

  lemma SentKeeps(s: State, o: Ref)
    requires o in s.tasks && TaskInv(s, o) && Apply(s, SendEnds(true)).Some?
    ensures TaskInv(Apply(s, SendEnds(true)).value, o)
  {
  }

  lemma DeliverKeeps(s: State, step: Step, o: Ref)
    requires o in s.tasks && TaskInv(s, o) && Apply(s, step).Some? && step.Deliver?
    ensures TaskInv(Apply(s, step).value, o)
  {
  }

  /** Nothing that the counts are about has changed. */
  predicate SameCopies(s: State, s': State) {
    && s'.tasks == s.tasks && s'.queue == s.queue && s'.timers == s.timers
    && s'.dequeued == s.dequeued && s'.sent == s.sent && s'.scheduler == s.scheduler
  }

  lemma OthersKeepCopies(s: State, step: Step)
    requires Apply(s, step).Some?
    requires step.Arrive? || step.LookUp? || step.EngineStatus? || step.RemoveEngine?
    ensures SameCopies(s, Apply(s, step).value)
  {
  }

  lemma CancelKeeps(s: State, step: Step, o: Ref)
    requires o in s.tasks && TaskInv(s, o) && Apply(s, step).Some? && step.Cancel?
    ensures TaskInv(Apply(s, step).value, o)
  {
  }

  lemma DeregisterKeeps(s: State, step: Step, o: Ref)
    requires o in s.tasks && TaskInv(s, o) && Apply(s, step).Some? && step.Deregister?
    ensures TaskInv(Apply(s, step).value, o)
  {
  }

  lemma DrainKeeps(s: State, step: Step, o: Ref)
    requires o in s.tasks && TaskInv(s, o) && Apply(s, step).Some? && step.Drain?
    ensures TaskInv(Apply(s, step).value, o)
  {
  }

  lemma ReceiveKeeps(s: State, step: Step, o: Ref)
    requires o in s.tasks && TaskInv(s, o) && step.Receive? && Apply(s, step).Some?
    ensures TaskInv(Apply(s, step).value, o)
  {
    var t := s.tasks[step.task];
    ResultMakesProgress(t.(buffer := t.buffer[1..]), t.buffer[0], step.verdict, step.inTime);
  }

  lemma StepKeepsTask(s: State, step: Step, o: Ref)
    requires o in s.tasks && TaskInv(s, o) && Apply(s, step).Some?
    ensures o in Apply(s, step).value.tasks && TaskInv(Apply(s, step).value, o)
  {
    TasksStay(s, step);
    match step
    case Submit(_, _, _, _, _) => QueueKeeps(s, step, o);
    case Enqueue(_) => QueueKeeps(s, step, o);
    case Dequeue => DequeueKeeps(s, step, o);
    case Unassign(_) => RetryKeeps(s, step, o);
    case TimerFires(_) => RetryKeeps(s, step, o);
    case Receive(_, _, _) => ReceiveKeeps(s, step, o);
    case Cancel(_) => CancelKeeps(s, step, o);
    case Deregister(_) => DeregisterKeeps(s, step, o);
    case Drain(_) => DrainKeeps(s, step, o);
    case Assign(_) => AssignKeeps(s, step, o);
    case FindFails => SchedulerKeeps(s, step, o);
    case SendEnds(ok) =>
      if ok {
        SentKeeps(s, o);
      } else {
        SchedulerKeeps(s, step, o);
      }
    case Deliver(_) => DeliverKeeps(s, step, o);
    case _ => OthersKeepCopies(s, step);
  }

  lemma TasksStay(s: State, step: Step)
    requires Apply(s, step).Some?
    ensures Apply(s, step).value.tasks.Keys == s.tasks.Keys + (if step.Submit? then {step.task} else {})
  {
    if step.Arrive? || step.LookUp? || step.EngineStatus? || step.RemoveEngine? {
      OthersKeepCopies(s, step);
    } else if step.Dequeue? || step.FindFails? || step.SendEnds? || step.TimerFires? {
      SchedulerFreezes(s, step);
    } else {
      TouchedTasksStay(s, step);
    }
  }

  lemma TouchedTasksStay(s: State, step: Step)
    requires Apply(s, step).Some?
    requires step.Submit? || step.Enqueue? || step.Assign? || step.Deliver? || step.Receive? || step.Unassign?
             || step.Cancel? || step.Deregister? || step.Drain?
    ensures Apply(s, step).value.tasks.Keys == s.tasks.Keys + (if step.Submit? then {step.task} else {})
  {
  }

  lemma SubmitUsesFresh(s: State, step: Step, o: Ref)
    requires o !in s.tasks && Unused(s, o) && step.Submit? && Apply(s, step).Some?
    ensures var s' := Apply(s, step).value;
            if o in s'.tasks then TaskInv(s', o) else Unused(s', o)
  {
  }

  lemma QueueLeavesUnused(s: State, step: Step, o: Ref)
    requires o !in s.tasks && Unused(s, o) && Apply(s, step).Some?
    requires step.Enqueue? || step.Dequeue? || step.Unassign? || step.TimerFires?
    ensures Unused(Apply(s, step).value, o)
  {
    if step.Dequeue? {
      assert s.queue == [s.queue[0]] + s.queue[1..];
    }
  }

  lemma SchedulerLeavesUnused(s: State, step: Step, o: Ref)
    requires o !in s.tasks && Unused(s, o) && Apply(s, step).Some?
    requires step.Assign? || step.FindFails? || step.SendEnds?
    ensures Unused(Apply(s, step).value, o)
  {
  }

  lemma OthersLeaveUnused(s: State, step: Step, o: Ref)
    requires o !in s.tasks && Unused(s, o) && Apply(s, step).Some?
    requires step.Arrive? || step.LookUp? || step.Deliver? || step.Receive? || step.Cancel? || step.Deregister? || step.Drain?
             || step.EngineStatus? || step.RemoveEngine?
    requires forall id :: EntryInv(s, id)
    ensures Unused(Apply(s, step).value, o)
  {
    if step.LookUp? {
      assert EntryInv(s, step.post.id);
    }
  }

  lemma StepKeepsUnused(s: State, step: Step, o: Ref)
    requires o !in s.tasks && Unused(s, o) && Apply(s, step).Some?
    requires forall id :: EntryInv(s, id)
    ensures var s' := Apply(s, step).value;
            if o in s'.tasks then TaskInv(s', o) else Unused(s', o)
  {
    TasksStay(s, step);
    if step.Submit? {
      SubmitUsesFresh(s, step, o);
    } else if step.Enqueue? || step.Dequeue? || step.Unassign? || step.TimerFires? {
      QueueLeavesUnused(s, step, o);
    } else if step.Assign? || step.FindFails? || step.SendEnds? {
      SchedulerLeavesUnused(s, step, o);
    } else {
      OthersLeaveUnused(s, step, o);
    }
  }

  /** What a step leaves of a task's identity and of its being live. */
  ghost predicate KeepsIdentity(s: State, step: Step, s': State, o: Ref) {
    && o in s.tasks && o in s'.tasks && s'.tasks[o].id == s.tasks[o].id
    && (Live(s'.tasks[o]) <==> Live(s.tasks[o]) && step != Deregister(o))
  }

  lemma OwnerKeepsIdentity(s: State, step: Step, o: Ref)
    requires Apply(s, step).Some? && o in s.tasks
    requires step.Submit? || step.Enqueue? || step.Unassign? || step.Cancel? || step.Deregister? || step.Drain?
    ensures KeepsIdentity(s, step, Apply(s, step).value, o)
  {
  }

  lemma ReceiveKeepsIdentity(s: State, step: Step, o: Ref)
    requires Apply(s, step).Some? && o in s.tasks && step.Receive?
    ensures KeepsIdentity(s, step, Apply(s, step).value, o)
  {
    var t := s.tasks[step.task];
    ResultMakesProgress(t.(buffer := t.buffer[1..]), t.buffer[0], step.verdict, step.inTime);
  }

  lemma SchedulerKeepsIdentity(s: State, step: Step, o: Ref)
    requires Apply(s, step).Some? && o in s.tasks
    requires step.Dequeue? || step.Assign? || step.FindFails? || step.SendEnds? || step.TimerFires?
    ensures KeepsIdentity(s, step, Apply(s, step).value, o)
  {
  }

  lemma WriterKeepsIdentity(s: State, step: Step, o: Ref)
    requires Apply(s, step).Some? && o in s.tasks
    requires step.Arrive? || step.LookUp? || step.Deliver? || step.EngineStatus? || step.RemoveEngine?
    ensures KeepsIdentity(s, step, Apply(s, step).value, o)
  {
  }

  lemma StepKeepsIdentity(s: State, step: Step, o: Ref)
    requires Apply(s, step).Some? && o in s.tasks
    ensures KeepsIdentity(s, step, Apply(s, step).value, o)
  {
    if step.Receive? {
      ReceiveKeepsIdentity(s, step, o);
    } else if step.Arrive? || step.LookUp? || step.Deliver? || step.EngineStatus? || step.RemoveEngine? {
      WriterKeepsIdentity(s, step, o);
    } else if step.Dequeue? || step.Assign? || step.FindFails? || step.SendEnds? || step.TimerFires? {
      SchedulerKeepsIdentity(s, step, o);
    } else {
      OwnerKeepsIdentity(s, step, o);
    }
  }

  /** Entries are made by submissions and taken away by deregistrations, both by ID. */
  lemma StepEntries(s: State, step: Step)
    requires Apply(s, step).Some? && !step.Submit? && !step.Deregister?
    ensures Apply(s, step).value.inProgress == s.inProgress
  {
    if step.Dequeue? || step.Assign? || step.FindFails? || step.SendEnds? || step.TimerFires? {
      SchedulerKeepsEntries(s, step);
    } else if step.Arrive? || step.LookUp? || step.Deliver? || step.EngineStatus? || step.RemoveEngine? {
      WriterKeepsEntries(s, step);
    }
  }

  lemma SchedulerKeepsEntries(s: State, step: Step)
    requires Apply(s, step).Some?
    requires step.Dequeue? || step.Assign? || step.FindFails? || step.SendEnds? || step.TimerFires?
    ensures Apply(s, step).value.inProgress == s.inProgress
  {
  }

  lemma WriterKeepsEntries(s: State, step: Step)
    requires Apply(s, step).Some?
    requires step.Arrive? || step.LookUp? || step.Deliver? || step.EngineStatus? || step.RemoveEngine?
    ensures Apply(s, step).value.inProgress == s.inProgress
  {
  }

  lemma StepKeepsEntry(s: State, step: Step, id: TaskId)
    requires EntryInv(s, id) && Apply(s, step).Some?
    ensures EntryInv(Apply(s, step).value, id)
  {
    if id in s.inProgress {
      StepKeepsIdentity(s, step, s.inProgress[id]);
    }
    if !step.Submit? && !step.Deregister? {
      StepEntries(s, step);
    }
  }

  lemma StepKeepsInv(s: State, step: Step)
    requires Inv(s) && Apply(s, step).Some?
    ensures Inv(Apply(s, step).value)
  {
    var s' := Apply(s, step).value;
    forall o: Ref ensures if o in s'.tasks then TaskInv(s', o) else Unused(s', o) {
      if o in s.tasks {
        StepKeepsTask(s, step, o);
      } else {
        StepKeepsUnused(s, step, o);
      }
    }
    forall id: TaskId ensures EntryInv(s', id) {
      StepKeepsEntry(s, step, id);
    }
  }

  lemma {:induction false} RunKeepsInv(s: State, steps: seq<Step>)
    requires Inv(s) && Exec(s, steps).Some?
    ensures Inv(Exec(s, steps).value)
    decreases |steps|
  {
    if steps != [] {
      StepKeepsInv(s, steps[0]);
      RunKeepsInv(Apply(s, steps[0]).value, steps[1..]);
    }
  }

  /** In every reachable state: the copies of a task (queued, behind a retry timer, dequeued, or in the
      hands of its goroutine) are one more than its retries, so at most four; it was sent at most once
      per dequeued copy; and a task with a target engine has exactly one copy. */
  lemma Reachable(steps: seq<Step>, o: Ref)
    requires Exec(INIT, steps).Some? && o in Exec(INIT, steps).value.tasks
    ensures var s := Exec(INIT, steps).value;
            var t := s.tasks[o];
            && Copies(s, o) == 1 + t.retryCount <= 4
            && s.sent[o] <= s.dequeued[o] <= Copies(s, o)
            && (t.target != "" ==> Copies(s, o) == 1)
  {
    InitInv();
    RunKeepsInv(INIT, steps);
    assert TaskInv(Exec(INIT, steps).value, o);
  }

  /** Once a task has accepted a result, it is never retried again. */
  ghost predicate Frozen(t: Task, t': Task) {
    && t'.id == t.id && t'.target == t.target && t'.tenant == t.tenant && t'.stream == t.stream
    && t.nextResultIndex <= t'.nextResultIndex && t.retryCount <= t'.retryCount
    && t.delivered <= t'.delivered
    && (t.nextResultIndex > 0 ==> t'.retryCount == t.retryCount)
  }

  lemma StepFreezes(s: State, step: Step, o: Ref)
    requires Apply(s, step).Some? && o in s.tasks
    ensures o in Apply(s, step).value.tasks && Frozen(s.tasks[o], Apply(s, step).value.tasks[o])
  {
    if step.Receive? {
      var t := s.tasks[step.task];
      ResultMakesProgress(t.(buffer := t.buffer[1..]), t.buffer[0], step.verdict, step.inTime);
    } else if step.Assign? {
      AssignFreezes(s, step, o);
    } else if step.Deliver? || step.Unassign? {
      LiveFreezes(s, step, o);
    } else if step.Submit? || step.Enqueue? || step.Cancel? || step.Deregister? || step.Drain? {
      OwnerFreezes(s, step, o);
    } else if step.Arrive? || step.LookUp? || step.EngineStatus? || step.RemoveEngine? {
      OthersKeepCopies(s, step);
    } else {
      SchedulerFreezes(s, step);
    }
  }

  lemma AssignFreezes(s: State, step: Step, o: Ref)
    requires Apply(s, step).Some? && o in s.tasks && step.Assign?
    ensures o in Apply(s, step).value.tasks && Frozen(s.tasks[o], Apply(s, step).value.tasks[o])
  {
  }

  lemma LiveFreezes(s: State, step: Step, o: Ref)
    requires Apply(s, step).Some? && o in s.tasks
    requires step.Deliver? || step.Unassign?
    ensures o in Apply(s, step).value.tasks && Frozen(s.tasks[o], Apply(s, step).value.tasks[o])
  {
  }

  lemma OwnerFreezes(s: State, step: Step, o: Ref)
    requires Apply(s, step).Some? && o in s.tasks
    requires step.Submit? || step.Enqueue? || step.Cancel? || step.Deregister? || step.Drain?
    ensures o in Apply(s, step).value.tasks && Frozen(s.tasks[o], Apply(s, step).value.tasks[o])
  {
  }

  lemma SchedulerFreezes(s: State, step: Step)
    requires Apply(s, step).Some?
    requires step.Dequeue? || step.FindFails? || step.SendEnds? || step.TimerFires?
    ensures Apply(s, step).value.tasks == s.tasks
  {
  }

  lemma {:induction false} RunFreezes(s: State, steps: seq<Step>, o: Ref)
    requires Exec(s, steps).Some? && o in s.tasks
    ensures o in Exec(s, steps).value.tasks && Frozen(s.tasks[o], Exec(s, steps).value.tasks[o])
    decreases |steps|
  {
    if steps != [] {
      StepFreezes(s, steps[0], o);
      RunFreezes(Apply(s, steps[0]).value, steps[1..], o);
    }
  }
}
