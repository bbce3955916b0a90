/**
 The event loop of the runtime manager (engine/internal/runtime): one goroutine takes events one at a
 time and moves callers that wait for a model between in-flight events, runtimes' wait lists and
 lists of pulls that wait for a base model.

 What the outside world answers (Kubernetes, the model store, the LoRA loader, the readiness probe) is
 an input of each step.
 */
module Manager {
  import opened Common

  type ModelId = string
  type Address = string

  /** A caller's wait channel, by identity. */
  type WaitCh = nat

  const ERR_UNREACHABLE := "runtime is unreachable"
  const ERR_DELETED := "runtime is deleted"
  const ERR_UNSCHEDULABLE := "Unschedulable"
  const READINESS_CHECK_MAX_RETRY_COUNT := 3

  /** A pull of a model; `ch` is None for callers that do not wait. */
  datatype Pull = Pull(model: ModelId, ch: Option<WaitCh>)

  datatype Event =
    | PullModel(pull: Pull)
    | DeleteModel(model: ModelId)
    | UpdateModel(model: ModelId)
    | ReconcileStatefulSet(name: string)
    | ReadinessCheck(model: ModelId, address: Address, retryCount: nat)
    | PullStatusCheck(model: ModelId, address: Address, awaited: bool)
    | StatusUpdate(podIP: string, added: seq<ModelId>, removed: seq<ModelId>)
    | LoadAdapter(model: ModelId, address: Address)

  /** `addrs` is None until the runtime first becomes ready. */
  datatype Runtime = Runtime(
    name: string, lora: bool, ready: bool, waitChs: seq<WaitCh>, lastErr: string,
    pending: seq<Pull>, addrs: Option<set<Address>>)

  function NewPendingRuntime(name: string): Runtime {
    Runtime(name, false, false, [], "", [], None)
  }

  /** `inflight`: events that some goroutine is about to put on the event channel. `notified`: wait
      channels that got their reason, "" for success, and were closed. */
  datatype State = State(runtimes: map<ModelId, Runtime>, inflight: seq<Event>, notified: seq<(WaitCh, string)>)

  const INIT := State(map[], [], [])

  /** Failed: the handler returned an error, which ends the run. Crashed: a nil channel was closed, or a
      nil address set used. Blocked: the handler waits for good to report an error that nobody reads. */
  datatype Outcome = Next(state: State) | Failed | Crashed | Blocked

  /** The answers of the outside world to one event. `gaveUp`: the caller that awaits the outcome of a
      status check has stopped waiting. */
  datatype Answers = Answers(
    failed: bool, nameOf: ModelId -> string, addressOf: ModelId -> Address,
    dynamicLoRA: bool, baseModel: ModelId,
    found: bool, annotatedModel: ModelId, replicas: nat, readyReplicas: nat, unschedulable: bool, address: Address,
    reachable: bool, targetExists: bool, pulled: Option<bool>, loaded: bool, gaveUp: bool)

  // ---------------------------------------------------------------------------------------------
  // Runtimes.

  function Notices(chs: seq<WaitCh>, reason: string): seq<(WaitCh, string)> {
    seq(|chs|, i requires 0 <= i < |chs| => (chs[i], reason))
  }

  /** The wait channels of pulls; callers that do not wait have none. */
  function ChsOf(pulls: seq<Pull>): seq<WaitCh> {
    if pulls == [] then []
    else ChsOf(pulls[..|pulls| - 1]) + (if pulls[|pulls| - 1].ch.Some? then [pulls[|pulls| - 1].ch.value] else [])
  }

  predicate AllWait(pulls: seq<Pull>) {
    forall i :: 0 <= i < |pulls| ==> pulls[i].ch.Some?
  }

  /** Closing all wait channels with a reason; None is the crash on a pending pull without a channel. */
  function Closed(r: Runtime, reason: string): Option<(Runtime, seq<(WaitCh, string)>)> {
    if !AllWait(r.pending) then None
    else Some((r.(waitChs := [], pending := [], lastErr := reason), Notices(r.waitChs + ChsOf(r.pending), reason)))
  }

  function Requeued(pulls: seq<Pull>): seq<Event> {
    seq(|pulls|, i requires 0 <= i < |pulls| => PullModel(pulls[i]))
  }

  function BecomeReady(r: Runtime, address: Address): Runtime {
    r.(ready := true, addrs := Some({address}))
  }

  function Waiting(r: Runtime, ch: Option<WaitCh>): Runtime {
    if ch.Some? then r.(waitChs := r.waitChs + [ch.value]) else r
  }

  function Emit(s: State, e: Event): State {
    s.(inflight := s.inflight + [e])
  }

  function Put(s: State, id: ModelId, r: Runtime): State {
    s.(runtimes := s.runtimes[id := r])
  }

  /** Deleting a runtime: its pending pulls go back on the channel, its waiters get an error. */
  function DeleteRuntime(s: State, id: ModelId): State
    requires id in s.runtimes
  {
    var r := s.runtimes[id];
    State(s.runtimes - {id}, s.inflight + Requeued(r.pending), s.notified + Notices(r.waitChs, ERR_DELETED))
  }

  // ---------------------------------------------------------------------------------------------
  // Handlers.

  function Notify(s: State, ch: Option<WaitCh>, reason: string): State {
    if ch.Some? then s.(notified := s.notified + [(ch.value, reason)]) else s
  }

  function HandlePull(s: State, p: Pull, a: Answers): Outcome {
    if a.failed then Failed
    else if p.model in s.runtimes then
      var r := s.runtimes[p.model];
      if r.ready then Next(Notify(s, p.ch, ""))
      else if r.lastErr != "" then Next(Notify(s, p.ch, r.lastErr))
      else Next(Put(s, p.model, Waiting(r, p.ch)))
    else if !a.dynamicLoRA then
      Next(Emit(Put(s, p.model, Waiting(NewPendingRuntime(a.nameOf(p.model)), p.ch)), ReconcileStatefulSet(a.nameOf(p.model))))
    else
      var s1 := if a.baseModel in s.runtimes then s
                else Emit(Put(s, a.baseModel, NewPendingRuntime(a.nameOf(a.baseModel))),
                           ReconcileStatefulSet(a.nameOf(a.baseModel)));
      var br := s1.runtimes[a.baseModel];
      if !br.ready then Next(Put(s1, a.baseModel, br.(pending := br.pending + [p])))
      else Next(Emit(Put(s1, p.model, Waiting(NewPendingRuntime(a.nameOf(p.model)).(lora := true), p.ch)),
                     PullStatusCheck(p.model, a.address, false)))
  }

  function HandleDelete(s: State, id: ModelId, a: Answers): Outcome {
    if id !in s.runtimes then Next(s)
    else if a.failed then Failed
    else if s.runtimes[id].lora then Next(DeleteRuntime(s, id))
    else Next(s)
  }

  /** A stateful set changed. If it is gone, so is the runtime of its name. */
  function HandleReconcile(s: State, name: string, named: Option<ModelId>, a: Answers): Outcome
    requires named.Some? ==> named.value in s.runtimes
  {
    if a.failed then Failed
    else if !a.found then Next(if named.Some? then DeleteRuntime(s, named.value) else s)
    else
      var id := a.annotatedModel;
      var r := if id in s.runtimes then s.runtimes[id] else NewPendingRuntime(name);
      var s1 := Put(s, id, r);
      if r.ready then Next(if a.replicas == 0 then Put(s1, id, r.(ready := false)) else s1)
      else if a.readyReplicas == 0 then
        if !a.unschedulable then Next(s1)
        else match Closed(r, ERR_UNSCHEDULABLE)
          case None => Crashed
          case Some((r', notices)) => Next(Put(s1, id, r').(notified := s1.notified + notices))
      else Next(Emit(s1, ReadinessCheck(id, a.address, 0)))
  }

  function HandleReadiness(s: State, id: ModelId, address: Address, retryCount: nat, a: Answers): Outcome {
    if id !in s.runtimes then Next(s)
    else
      var r := s.runtimes[id];
      if !a.reachable then
        if retryCount >= READINESS_CHECK_MAX_RETRY_COUNT then
          match Closed(r, ERR_UNREACHABLE)
          case None => Crashed
          case Some((r', notices)) => Next(Emit(Put(s, id, r').(notified := s.notified + notices), DeleteModel(id)))
        else Next(Emit(s, ReadinessCheck(id, address, retryCount + 1)))
      else
        // The pending pulls are put back before the waiters are told.
        var r' := BecomeReady(r, address).(waitChs := [], pending := [], lastErr := "");
        Next(State(s.runtimes[id := r'], s.inflight + Requeued(r.pending), s.notified + Notices(r.waitChs, "")))
  }

  /** A check that goes wrong reports to the caller that awaits it; those that a pull started have none. */
  function HandlePullStatus(s: State, e: Event, a: Answers): Outcome
    requires e.PullStatusCheck?
  {
    if a.failed then Failed
    else if !a.targetExists || a.pulled.None? then if e.awaited && !a.gaveUp then Next(s) else Blocked
    else if !a.pulled.value || !a.loaded then Next(Emit(s, e))
    else Next(Emit(s, ReadinessCheck(e.model, e.address, 0)))
  }

  /** A pod loaded an adapter: a new runtime is ready at once, a ready one gets the address, and one that
      is still being created has to try again. */
  function AddAdapter(s: State, retry: seq<ModelId>, address: Address, id: ModelId, name: string): (State, seq<ModelId>) {
    if id !in s.runtimes then (Put(s, id, BecomeReady(NewPendingRuntime(name).(lora := true), address)), retry)
    else
      var r := s.runtimes[id];
      // A ready runtime always has addresses.
      if r.ready && r.addrs.Some? then (Put(s, id, r.(addrs := Some(r.addrs.value + {address}))), retry)
      else (s, retry + [id])
  }

  function AddAdapters(s: State, ids: seq<ModelId>, a: Answers): (State, seq<ModelId>) {
    if ids == [] then (s, [])
    else
      var (s', retry) := AddAdapters(s, ids[..|ids| - 1], a);
      var id := ids[|ids| - 1];
      AddAdapter(s', retry, a.addressOf(id), id, a.nameOf(id))
  }

  /** A pod dropped an adapter; the runtime goes with its last address. None is the crash on a runtime
      that never had addresses. */
  function RemoveAdapter(s: State, address: Address, id: ModelId): Option<State> {
    if id !in s.runtimes then Some(s)
    else
      var r := s.runtimes[id];
      if r.addrs.None? then None
      else
        var r' := r.(addrs := Some(r.addrs.value - {address}));
        if r'.addrs.value != {} then Some(Put(s, id, r')) else Some(DeleteRuntime(Put(s, id, r'), id))
  }

  function RemoveAdapters(s: State, ids: seq<ModelId>, a: Answers): Option<State> {
    if ids == [] then Some(s)
    else
      var s' := RemoveAdapters(s, ids[..|ids| - 1], a);
      if s'.None? then None else RemoveAdapter(s'.value, a.addressOf(ids[|ids| - 1]), ids[|ids| - 1])
  }

  function HandleStatusUpdate(s: State, e: Event, a: Answers): Outcome
    requires e.StatusUpdate?
  {
    if a.failed || e.podIP == "" then Failed
    else
      var (s1, retry) := AddAdapters(s, e.added, a);
      match RemoveAdapters(s1, e.removed, a)
      case None => Crashed
      case Some(s2) => Next(if retry == [] then s2 else Emit(s2, StatusUpdate(e.podIP, retry, [])))
  }

  /** The runtime of a stateful set, by name; with several of that name it is any of them. */
  ghost predicate Named(s: State, name: string, id: Option<ModelId>) {
    if id.Some? then id.value in s.runtimes && s.runtimes[id.value].name == name
    else forall m :: m in s.runtimes ==> s.runtimes[m].name != name
  }

  // ---------------------------------------------------------------------------------------------
  // Runs.

  datatype Step = Arrive(event: Event) | Handle(i: nat, named: Option<ModelId>, answers: Answers)

  function Without(es: seq<Event>, i: nat): seq<Event>
    requires i < |es|
  {
    es[..i] + es[i + 1..]
  }

  function HandleEvent(s: State, e: Event, named: Option<ModelId>, a: Answers): Outcome
    requires named.Some? ==> named.value in s.runtimes
  {
    match e
    case PullModel(p) => HandlePull(s, p, a)
    case DeleteModel(id) => HandleDelete(s, id, a)
    case UpdateModel(_) => if a.failed then Failed else Next(s)
    case ReconcileStatefulSet(name) => HandleReconcile(s, name, named, a)
    case ReadinessCheck(id, address, retryCount) => HandleReadiness(s, id, address, retryCount, a)
    case PullStatusCheck(_, _, _) => HandlePullStatus(s, e, a)
    case StatusUpdate(_, _, _) => HandleStatusUpdate(s, e, a)
    case LoadAdapter(id, address) => if a.failed then Failed else Next(Emit(s, PullStatusCheck(id, address, true)))
  }

  /** One step of a run: an event arrives, a waiting caller with a channel of its own; or the loop takes
      one of the in-flight events and handles it without an error. */
  ghost predicate Steps(s: State, step: Step, s': State) {
    match step
    case Arrive(e) =>
      && s' == Emit(s, e)
      && (e.PullModel? && e.pull.ch.Some? ==> Places(s, e.pull.ch.value) == 0)
    case Handle(i, named, a) =>
      && i < |s.inflight|
      && (named.Some? ==> named.value in s.runtimes)
      && (s.inflight[i].ReconcileStatefulSet? ==> Named(s, s.inflight[i].name, named))
      && HandleEvent(s.(inflight := Without(s.inflight, i)), s.inflight[i], named, a) == Next(s')
  }

  ghost predicate Run(states: seq<State>, steps: seq<Step>) {
    && |states| == |steps| + 1 && states[0] == INIT
    && forall i :: 0 <= i < |steps| ==> Steps(states[i], steps[i], states[i + 1])
  }

  // ---------------------------------------------------------------------------------------------
  // Where a wait channel is.

  function OfEvent(e: Event, c: WaitCh): nat {
    if e.PullModel? && e.pull.ch == Some(c) then 1 else 0
  }

  function InFlight(es: seq<Event>, c: WaitCh): nat {
    if es == [] then 0 else InFlight(es[..|es| - 1], c) + OfEvent(es[|es| - 1], c)
  }

  function Done(ns: seq<(WaitCh, string)>, c: WaitCh): nat {
    if ns == [] then 0 else Done(ns[..|ns| - 1], c) + (if ns[|ns| - 1].0 == c then 1 else 0)
  }

  function OfRuntime(r: Runtime, c: WaitCh): nat {
    multiset(r.waitChs)[c] + multiset(ChsOf(r.pending))[c]
  }

  ghost function Held(rs: map<ModelId, Runtime>, c: WaitCh): nat {
    if rs == map[] then 0
    else
      var id :| id in rs;
      OfRuntime(rs[id], c) + Held(rs - {id}, c)
  }

  /** In how many places a wait channel is: with an in-flight pull, with a runtime as a waiter or behind
      a pending pull, or notified and closed. */
  ghost function Places(s: State, c: WaitCh): nat {
    InFlight(s.inflight, c) + Held(s.runtimes, c) + Done(s.notified, c)
  }

  class Manager {
    var runtimes: map<ModelId, Runtime>
    var inflight: seq<Event>
    var notified: seq<(WaitCh, string)>

    ghost function Now(): State
      reads this
    {
      State(runtimes, inflight, notified)
    }

    constructor ()
      ensures Now() == INIT
    {
      runtimes, inflight, notified := map[], [], [];
    }

    /** Tells every waiter of a runtime and every caller behind a pending pull, then forgets both. */
    method CloseWaitChs(id: ModelId, reason: string) returns (ok: bool)
      requires id in runtimes
      modifies this
      ensures inflight == old(inflight)
      ensures ok == Closed(old(runtimes[id]), reason).Some?
      ensures ok ==>
        var (r, notices) := Closed(old(runtimes[id]), reason).value;
        runtimes == old(runtimes)[id := r] && notified == old(notified) + notices
    {
      var r := runtimes[id];
      for i := 0 to |r.waitChs|
        invariant runtimes == old(runtimes) && inflight == old(inflight)
        invariant notified == old(notified) + Notices(r.waitChs[..i], reason)
      {
        NoticesSnoc(r.waitChs, i, reason);
        notified := notified + [(r.waitChs[i], reason)];
      }
      assert r.waitChs[..|r.waitChs|] == r.waitChs;
      for i := 0 to |r.pending|
        invariant runtimes == old(runtimes) && inflight == old(inflight)
        invariant AllWait(r.pending[..i])
        invariant notified == old(notified) + Notices(r.waitChs, reason) + Notices(ChsOf(r.pending[..i]), reason)
      {
        if r.pending[i].ch.None? {
          return false;
        }
        ChsOfSnoc(r.pending, i, reason);
        notified := notified + [(r.pending[i].ch.value, reason)];
      }
      assert r.pending[..|r.pending|] == r.pending;
      NoticesConcat(r.waitChs, ChsOf(r.pending), reason);
      runtimes := runtimes[id := r.(waitChs := [], pending := [], lastErr := reason)];
      return true;
    }

    method RequeuePendingPullModelRequests(id: ModelId)
      requires id in runtimes
      modifies this
      ensures runtimes == old(runtimes)[id := old(runtimes[id]).(pending := [])] && notified == old(notified)
      ensures inflight == old(inflight) + Requeued(old(runtimes[id]).pending)
    {
      var pulls := runtimes[id].pending;
      runtimes := runtimes[id := runtimes[id].(pending := [])];
      for i := 0 to |pulls|
        invariant runtimes == old(runtimes)[id := old(runtimes[id]).(pending := [])] && notified == old(notified)
        invariant inflight == old(inflight) + Requeued(pulls[..i])
      {
        assert Requeued(pulls[..i + 1]) == Requeued(pulls[..i]) + [PullModel(pulls[i])];
        inflight := inflight + [PullModel(pulls[i])];
      }
      assert pulls[..|pulls|] == pulls;
    }

    method DeleteRuntimeByModelID(id: ModelId)
      modifies this
      ensures Now() == if id in old(runtimes) then DeleteRuntime(old(Now()), id) else old(Now())
    {
      if id !in runtimes {
        return;
      }
      RequeuePendingPullModelRequests(id);
      var ok := CloseWaitChs(id, ERR_DELETED);
      assert Notices(old(runtimes[id]).waitChs + ChsOf([]), ERR_DELETED) == Notices(old(runtimes[id]).waitChs, ERR_DELETED);
      runtimes := runtimes - {id};
      assert runtimes == old(runtimes) - {id};
    }

    /** Stops at the first runtime of that name. */
    method DeleteRuntimeByName(name: string) returns (ghost named: Option<ModelId>)
      modifies this
      ensures Named(old(Now()), name, named)
      ensures Now() == if named.Some? then DeleteRuntime(old(Now()), named.value) else old(Now())
    {
      var rest := runtimes.Keys;
      while rest != {}
        invariant Now() == old(Now()) && rest <= runtimes.Keys
        invariant forall id :: id in runtimes && id !in rest ==> runtimes[id].name != name
        decreases rest
      {
        var id :| id in rest;
        if runtimes[id].name == name {
          DeleteRuntimeByModelID(id);
          return Some(id);
        }
        rest := rest - {id};
      }
      return None;
    }

    method ProcessPullModelEvent(p: Pull, a: Answers) returns (failed: bool)
      modifies this
      ensures HandlePull(old(Now()), p, a) == if failed then Failed else Next(Now())
    {
      if a.failed {
        return true;
      }
      if p.model in runtimes {
        var r := runtimes[p.model];
        if r.ready {
          if p.ch.Some? {
            notified := notified + [(p.ch.value, "")];
          }
        } else if r.lastErr != "" {
          if p.ch.Some? {
            notified := notified + [(p.ch.value, r.lastErr)];
          }
        } else {
          if p.ch.Some? {
            r := r.(waitChs := r.waitChs + [p.ch.value]);
          }
          runtimes := runtimes[p.model := r];
        }
        return false;
      }
      if !a.dynamicLoRA {
        var r := NewPendingRuntime(a.nameOf(p.model));
        if p.ch.Some? {
          r := r.(waitChs := r.waitChs + [p.ch.value]);
        }
        runtimes := runtimes[p.model := r];
        inflight := inflight + [ReconcileStatefulSet(a.nameOf(p.model))];
        return false;
      }
      if a.baseModel !in runtimes {
        runtimes := runtimes[a.baseModel := NewPendingRuntime(a.nameOf(a.baseModel))];
        inflight := inflight + [ReconcileStatefulSet(a.nameOf(a.baseModel))];
      }
      var br := runtimes[a.baseModel];
      if !br.ready {
        runtimes := runtimes[a.baseModel := br.(pending := br.pending + [p])];
        return false;
      }
      var r := NewPendingRuntime(a.nameOf(p.model));
      if p.ch.Some? {
        r := r.(waitChs := r.waitChs + [p.ch.value]);
      }
      runtimes := runtimes[p.model := r.(lora := true)];
      inflight := inflight + [PullStatusCheck(p.model, a.address, false)];
      return false;
    }

    method ProcessDeleteModelEvent(id: ModelId, a: Answers) returns (failed: bool)
      modifies this
      ensures HandleDelete(old(Now()), id, a) == if failed then Failed else Next(Now())
    {
      if id in runtimes {
        if a.failed {
          return true;
        }
        if runtimes[id].lora {
          DeleteRuntimeByModelID(id);
        }
      }
      return false;
    }

    method ProcessReconcileStatefulSetEvent(name: string, a: Answers) returns (ghost named: Option<ModelId>, o: Verdict)
      modifies this
      ensures Named(old(Now()), name, named)
      ensures HandleReconcile(old(Now()), name, named, a) == ToOutcome(o, Now())
    {
      named := SomeNamed(Now(), name);
      if a.failed {
        return named, Error;
      }
      if !a.found {
        named := DeleteRuntimeByName(name);
        return named, Ok;
      }
      var id := a.annotatedModel;
      if id !in runtimes {
        runtimes := runtimes[id := NewPendingRuntime(name)];
      }
      assert Now() == Put(old(Now()), id, runtimes[id]);
      if runtimes[id].ready {
        if a.replicas == 0 {
          runtimes := runtimes[id := runtimes[id].(ready := false)];
        }
        return named, Ok;
      }
      if a.readyReplicas == 0 {
        if a.unschedulable {
          var ok := CloseWaitChs(id, ERR_UNSCHEDULABLE);
          return named, if ok then Ok else Crash;
        }
        return named, Ok;
      }
      inflight := inflight + [ReadinessCheck(id, a.address, 0)];
      return named, Ok;
    }

    method ProcessReadinessCheckEvent(id: ModelId, address: Address, retryCount: nat, a: Answers) returns (o: Verdict)
      modifies this
      ensures HandleReadiness(old(Now()), id, address, retryCount, a) == ToOutcome(o, Now())
    {
      if id !in runtimes {
        return Ok;
      }
      if !a.reachable {
        if retryCount >= READINESS_CHECK_MAX_RETRY_COUNT {
          var ok := CloseWaitChs(id, ERR_UNREACHABLE);
          if !ok {
            return Crash;
          }
          inflight := inflight + [DeleteModel(id)];
        } else {
          inflight := inflight + [ReadinessCheck(id, address, retryCount + 1)];
        }
        return Ok;
      }
      var r := runtimes[id];
      runtimes := runtimes[id := r.(ready := true, addrs := Some({address}))];
      RequeuePendingPullModelRequests(id);
      var ok := CloseWaitChs(id, "");
      assert r.waitChs + ChsOf([]) == r.waitChs;
      assert runtimes == old(runtimes)[id := BecomeReady(r, address).(waitChs := [], pending := [], lastErr := "")];
      return Ok;
    }

    method ProcessLoRAAdapterStatusUpdateEvent(podIP: string, added: seq<ModelId>, removed: seq<ModelId>, a: Answers)
      returns (o: Verdict)
      modifies this
      ensures HandleStatusUpdate(old(Now()), StatusUpdate(podIP, added, removed), a) == ToOutcome(o, Now())
    {
      if a.failed || podIP == "" {
        return Error;
      }
      var needRetry: seq<ModelId> := [];
      for i := 0 to |added|
        invariant (Now(), needRetry) == AddAdapters(old(Now()), added[..i], a)
      {
        assert added[..i + 1][..i] == added[..i];
        var id, address := added[i], a.addressOf(added[i]);
        if id !in runtimes {
          var r := NewPendingRuntime(a.nameOf(id)).(lora := true);
          runtimes := runtimes[id := r.(ready := true, addrs := Some({address}))];
        } else {
          var r := runtimes[id];
          if r.ready && r.addrs.Some? {
            runtimes := runtimes[id := r.(addrs := Some(r.addrs.value + {address}))];
          } else {
            needRetry := needRetry + [id];
          }
        }
      }
      assert added[..|added|] == added;
      ghost var mid := Now();
      for i := 0 to |removed|
        invariant Some(Now()) == RemoveAdapters(mid, removed[..i], a)
      {
        assert removed[..i + 1][..i] == removed[..i];
        var id, address := removed[i], a.addressOf(removed[i]);
        if id in runtimes {
          var r := runtimes[id];
          if r.addrs.None? {
            RemoveStays(mid, removed, i + 1, a);
            return Crash;
          }
          runtimes := runtimes[id := r.(addrs := Some(r.addrs.value - {address}))];
          if runtimes[id].addrs.value == {} {
            DeleteRuntimeByModelID(id);
          }
        }
      }
      assert removed[..|removed|] == removed;
      if needRetry != [] {
        inflight := inflight + [StatusUpdate(podIP, needRetry, [])];
      }
      return Ok;
    }

    method ProcessLoRAAdapterPullStatusCheckEvent(id: ModelId, address: Address, awaited: bool, a: Answers) returns (o: Verdict)
      modifies this
      ensures HandlePullStatus(old(Now()), PullStatusCheck(id, address, awaited), a) == ToOutcome(o, Now())
    {
      if a.failed {
        return Error;
      }
      if !a.targetExists || a.pulled.None? {
        return if awaited && !a.gaveUp then Ok else Block;
      }
      if a.pulled.value && a.loaded {
        inflight := inflight + [ReadinessCheck(id, address, 0)];
      } else {
        inflight := inflight + [PullStatusCheck(id, address, awaited)];
      }
      return Ok;
    }

    /** One turn of the event loop, with one of the events whose senders are blocked on the channel. */
    method ProcessEvent(i: nat, a: Answers) returns (ghost named: Option<ModelId>, o: Verdict)
      requires i < |inflight|
      modifies this
      ensures named.Some? ==> named.value in old(runtimes)
      ensures o.Ok? ==> Steps(old(Now()), Handle(i, named, a), Now())
      ensures !o.Ok? ==> HandleEvent(
          old(Now()).(inflight := Without(old(inflight), i)), old(inflight[i]), named, a) == ToOutcome(o, Now())
    {
      var e := inflight[i];
      inflight := inflight[..i] + inflight[i + 1..];
      named := None;
      var failed := false;
      match e {
        case PullModel(p) => failed := ProcessPullModelEvent(p, a);
        case DeleteModel(id) => failed := ProcessDeleteModelEvent(id, a);
        case UpdateModel(_) => failed := a.failed;
        case ReconcileStatefulSet(name) => named, o := ProcessReconcileStatefulSetEvent(name, a); return;
        case ReadinessCheck(id, address, retryCount) =>
          o := ProcessReadinessCheckEvent(id, address, retryCount, a); return;
        case PullStatusCheck(id, address, awaited) =>
          o := ProcessLoRAAdapterPullStatusCheckEvent(id, address, awaited, a); return;
        case StatusUpdate(podIP, added, removed) =>
          o := ProcessLoRAAdapterStatusUpdateEvent(podIP, added, removed, a); return;
        case LoadAdapter(id, address) =>
          failed := a.failed;
          if !failed {
            inflight := inflight + [PullStatusCheck(id, address, true)];
          }
      }
      o := if failed then Error else Ok;
    }
  }

  /** How a handler ends. */
  datatype Verdict = Ok | Error | Crash | Block

  function ToOutcome(v: Verdict, s: State): Outcome {
    match v
    case Ok => Next(s)
    case Error => Failed
    case Crash => Crashed
    case Block => Blocked
  }

  ghost function SomeNamed(s: State, name: string): (id: Option<ModelId>)
    ensures Named(s, name, id)
  {
    if m :| m in s.runtimes && s.runtimes[m].name == name then Some(m) else None
  }

  lemma NoticesSnoc(chs: seq<WaitCh>, i: nat, reason: string)
    requires i < |chs|
    ensures Notices(chs[..i + 1], reason) == Notices(chs[..i], reason) + [(chs[i], reason)]
  {
  }

  lemma NoticesConcat(a: seq<WaitCh>, b: seq<WaitCh>, reason: string)
    ensures Notices(a + b, reason) == Notices(a, reason) + Notices(b, reason)
  {
  }

  lemma ChsOfSnoc(pulls: seq<Pull>, i: nat, reason: string)
    requires i < |pulls| && pulls[i].ch.Some?
    ensures Notices(ChsOf(pulls[..i + 1]), reason) == Notices(ChsOf(pulls[..i]), reason) + [(pulls[i].ch.value, reason)]
  {
    assert pulls[..i + 1][..i] == pulls[..i];
    NoticesConcat(ChsOf(pulls[..i]), [pulls[i].ch.value], reason);
  }

  /** A crash among the first removals is the crash of the whole list. */
  lemma {:induction false} RemoveStays(s: State, ids: seq<ModelId>, i: nat, a: Answers)
    requires i <= |ids| && RemoveAdapters(s, ids[..i], a).None?
    ensures RemoveAdapters(s, ids, a).None?
    decreases |ids| - i
  {
    if i < |ids| {
      assert ids[..i + 1][..i] == ids[..i];
      RemoveStays(s, ids, i + 1, a);
    } else {
      assert ids[..i] == ids;
    }
  }
}
