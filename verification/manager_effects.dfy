/**
 What the events of the runtime manager lead to: from a pull to a ready runtime and a caller that is told so, and
 what becomes of runtimes and waiters when checks fail, stateful sets change and pods load or drop adapters.
 */
module ManagerEffects {
  import opened Common
  import opened Manager
  import opened ManagerReasons

  // ---------------------------------------------------------------------------------------------
  // From a pull to a ready runtime.

  /** Handling the event leaves the state as given and puts one more event on the channel. */
  ghost predicate Leads(s: State, e: Event, a: Answers, s': State, e': Event) {
    HandleEvent(s, e, None, a) == Next(Emit(s', e')) && s'.inflight == s.inflight
  }

  /** The first three failed readiness checks lead to another one each, with nobody told. */
  ghost predicate Retries(s: State, id: ModelId, address: Address) {
    forall k: nat, a: Answers :: k < 3 && !a.reachable ==>
      Leads(s, ReadinessCheck(id, address, k), a, s, ReadinessCheck(id, address, k + 1))
  }

  lemma ThreeRetries(s: State, id: ModelId, address: Address)
    requires id in s.runtimes
    ensures Retries(s, id, address)
  {
  }

  /** The runtime is ready at one address, its waiters are told, the pulls that were pending there are in flight again
      and nobody waits there; other runtimes are as they were. */
  ghost predicate BecameReady(s: State, id: ModelId, address: Address, s': State) {
    && IsReady(s', id) && s'.runtimes[id].addrs == Some({address}) && s'.runtimes[id].lastErr == ""
    && s'.runtimes[id].waitChs == [] && s'.runtimes[id].pending == []
    && s'.runtimes - {id} == s.runtimes - {id}
    && id in s.runtimes
    && (forall c: WaitCh :: c in s.runtimes[id].waitChs ==> (c, "") in s'.notified)
    && s'.inflight == s.inflight + Requeued(s.runtimes[id].pending)
  }

  lemma Succeeds(s: State, id: ModelId, address: Address, retries: nat, a: Answers)
    requires id in s.runtimes && a.reachable
    ensures var o := HandleReadiness(s, id, address, retries, a); o.Next? && BecameReady(s, id, address, o.state)
  {
    var s' := HandleReadiness(s, id, address, retries, a).state;
    var chs := s.runtimes[id].waitChs;
    forall c: WaitCh | c in chs ensures (c, "") in s'.notified {
      var i :| 0 <= i < |chs| && chs[i] == c;
      assert Notices(chs, "")[i] == (c, "");
    }
  }

  /** All that wait at a runtime are told of a failure, and the runtime keeps it for later callers. */
  ghost predicate FailedFor(s: State, id: ModelId, reason: string, s': State) {
    && id in s'.runtimes && s'.runtimes[id].lastErr == reason
    && (forall c: WaitCh, m: ModelId :: WaitsAt(s, id, c, m) ==> (c, reason) in s'.notified)
    && (forall c: WaitCh, m: ModelId :: !WaitsAt(s', id, c, m))
    && s'.runtimes - {id} == s.runtimes - {id}
    && (id in s.runtimes ==> (IsReady(s', id) <==> IsReady(s, id)))
  }

  lemma CloseTellsAll(s: State, id: ModelId, reason: string, s': State)
    requires id in s.runtimes && Closed(s.runtimes[id], reason).Some?
    requires var (r, notices) := Closed(s.runtimes[id], reason).value;
             s'.runtimes == s.runtimes[id := r] && s'.notified == s.notified + notices
    ensures FailedFor(s, id, reason, s')
  {
    var r := s.runtimes[id];
    var chs := r.waitChs + ChsOf(r.pending);
    forall c: WaitCh, m: ModelId | WaitsAt(s, id, c, m) ensures (c, reason) in s'.notified {
      ChsOfMembers(r.pending, c);
      assert c in chs;
      var i :| 0 <= i < |chs| && chs[i] == c;
      assert Notices(chs, reason)[i] == (c, reason);
    }
  }

  /** The fourth failure in a row is final: everyone who waits is told, and the model is to be deleted. */
  lemma FourthFailureIsFinal(s: State, id: ModelId, address: Address, a: Answers)
    requires id in s.runtimes && AllWait(s.runtimes[id].pending) && !a.reachable
    ensures var o := HandleReadiness(s, id, address, 3, a);
            o.Next? && FailedFor(s, id, ERR_UNREACHABLE, o.state) && o.state.inflight == s.inflight + [DeleteModel(id)]
  {
    CloseTellsAll(s, id, ERR_UNREACHABLE, HandleReadiness(s, id, address, 3, a).state);
  }

  /** A runtime that is new, with one caller waiting. */
  function NewlyPulled(s: State, m: ModelId, name: string, lora: bool, c: WaitCh): State {
    Put(s, m, Runtime(name, lora, false, [c], "", [], None))
  }

  /** The pulled model is served at one address, its caller is told, and nothing else has changed. */
  ghost predicate Served(s: State, m: ModelId, address: Address, lora: bool, c: WaitCh, s': State) {
    && IsReady(s', m) && s'.runtimes[m].addrs == Some({address}) && s'.runtimes[m].lora == lora
    && (c, "") in s'.notified && s'.inflight == s.inflight && s'.runtimes - {m} == s.runtimes
  }

  lemma ServedWhenReady(s: State, m: ModelId, name: string, lora: bool, c: WaitCh, address: Address, k: nat, a: Answers)
    requires m !in s.runtimes && a.reachable
    ensures var o := HandleReadiness(NewlyPulled(s, m, name, lora, c), m, address, k, a);
            o.Next? && Served(s, m, address, lora, c, o.state)
  {
    var s1 := NewlyPulled(s, m, name, lora, c);
    Succeeds(s1, m, address, k, a);
    assert s1.runtimes[m].waitChs == [c] && s1.runtimes[m].pending == [];
    assert s1.runtimes - {m} == s.runtimes;
  }

  /** A pull of a base model: its stateful set gets ready, the runtime is found reachable at once or after up to
      three checks that fail, and the caller is told. */
  lemma PullOfBaseModel(s: State, m: ModelId, c: WaitCh, pulled: Answers, changed: Answers) returns (s1: State)
    requires m !in s.runtimes && !pulled.failed && !pulled.dynamicLoRA
    requires !changed.failed && changed.found && changed.annotatedModel == m && changed.readyReplicas > 0
    ensures var change, check := ReconcileStatefulSet(pulled.nameOf(m)), ReadinessCheck(m, changed.address, 0);
            && Leads(s, PullModel(Pull(m, Some(c))), pulled, s1, change)
            && Leads(s1, change, changed, s1, check)
    ensures Retries(s1, m, changed.address)
    ensures forall k: nat, a: Answers :: a.reachable ==>
      var o := HandleReadiness(s1, m, changed.address, k, a); o.Next? && Served(s, m, changed.address, false, c, o.state)
  {
    var name := pulled.nameOf(m);
    s1 := NewlyPulled(s, m, name, false, c);
    assert Waiting(NewPendingRuntime(name), Some(c)) == s1.runtimes[m];
    assert Put(s1, m, s1.runtimes[m]) == s1;
    ThreeRetries(s1, m, changed.address);
    forall k: nat, a: Answers | a.reachable
      ensures var o := HandleReadiness(s1, m, changed.address, k, a); o.Next? && Served(s, m, changed.address, false, c, o.state)
    {
      ServedWhenReady(s, m, name, false, c, changed.address, k, a);
    }
  }

  /** Not pulled yet, or pulled but not loaded by the pod. */
  predicate NotLoadedYet(a: Answers) {
    !a.failed && a.targetExists && a.pulled.Some? && !(a.pulled.value && a.loaded)
  }

  predicate IsLoaded(a: Answers) {
    !a.failed && a.targetExists && a.pulled == Some(true) && a.loaded
  }

  /** A status check of an adapter is made again until the pod has loaded it; then its readiness is checked. */
  ghost predicate LoadsThenChecks(s: State, check: Event)
    requires check.PullStatusCheck?
  {
    && (forall a: Answers :: NotLoadedYet(a) ==> Leads(s, check, a, s, check))
    && (forall a: Answers :: IsLoaded(a) ==> Leads(s, check, a, s, ReadinessCheck(check.model, check.address, 0)))
  }

  lemma StatusChecks(s: State, check: Event)
    requires check.PullStatusCheck?
    ensures LoadsThenChecks(s, check)
  {
  }

  /** A pull of an adapter whose base model is ready: however long the adapter takes to be pulled and loaded, and
      after up to three failed readiness checks, it is served from the pod that loads it. */
  lemma PullOfAdapter(s: State, m: ModelId, c: WaitCh, pulled: Answers) returns (s1: State)
    requires m !in s.runtimes && !pulled.failed && pulled.dynamicLoRA && IsReady(s, pulled.baseModel)
    ensures var check := PullStatusCheck(m, pulled.address, false);
            Leads(s, PullModel(Pull(m, Some(c))), pulled, s1, check) && LoadsThenChecks(s1, check)
    ensures Retries(s1, m, pulled.address)
    ensures forall k: nat, a: Answers :: a.reachable ==>
      var o := HandleReadiness(s1, m, pulled.address, k, a); o.Next? && Served(s, m, pulled.address, true, c, o.state)
  {
    var name := pulled.nameOf(m);
    s1 := NewlyPulled(s, m, name, true, c);
    assert Waiting(NewPendingRuntime(name).(lora := true), Some(c)) == s1.runtimes[m];
    StatusChecks(s1, PullStatusCheck(m, pulled.address, false));
    ThreeRetries(s1, m, pulled.address);
    forall k: nat, a: Answers | a.reachable
      ensures var o := HandleReadiness(s1, m, pulled.address, k, a); o.Next? && Served(s, m, pulled.address, true, c, o.state)
    {
      ServedWhenReady(s, m, name, true, c, pulled.address, k, a);
    }
  }

  /** A pull of a model that has a runtime is answered at once if and only if the runtime is ready or carries an error;
      otherwise its caller joins those who wait there. No runtime is created, and no event put on the channel. */
  lemma PullAnsweredIff(s: State, m: ModelId, c: WaitCh, a: Answers)
    requires m in s.runtimes && !a.failed
    ensures var o := HandlePull(s, Pull(m, Some(c)), a);
            var now := IsReady(s, m) || s.runtimes[m].lastErr != "";
            && o.Next? && o.state.runtimes.Keys == s.runtimes.Keys && o.state.inflight == s.inflight
            && (now <==> |o.state.notified| == |s.notified| + 1)
            && (now ==> o.state.runtimes == s.runtimes && o.state.notified[|s.notified|].0 == c)
            && (!now ==> o.state.notified == s.notified && OwnWaiter(o.state, c, m) && o.state.runtimes - {m} == s.runtimes - {m})
  {
  }

  /** A pod that is told to load an adapter is asked until it has loaded it. A check that goes wrong ends this: it
      is the caller's to know, who waits for the outcome. */
  lemma LoadOfAdapter(s: State, id: ModelId, address: Address, a: Answers)
    ensures var check := PullStatusCheck(id, address, true);
            && (!a.failed ==> Leads(s, LoadAdapter(id, address), a, s, check))
            && (!a.failed && (!a.targetExists || a.pulled.None?) && !a.gaveUp ==> HandleEvent(s, check, None, a) == Next(s))
            && LoadsThenChecks(s, check)
  {
    StatusChecks(s, PullStatusCheck(id, address, true));
  }

  /** A pull of an adapter whose base model is not ready waits behind it, and is handled again once it is. */
  lemma PullBehindBaseModel(s: State, p: Pull, pulled: Answers, address: Address, retries: nat, a: Answers)
    requires p.model !in s.runtimes && !pulled.failed && pulled.dynamicLoRA && !IsReady(s, pulled.baseModel) && a.reachable
    ensures var o := HandlePull(s, p, pulled);
            && o.Next? && o.state.notified == s.notified && pulled.baseModel in o.state.runtimes
            && p in o.state.runtimes[pulled.baseModel].pending
            && (pulled.baseModel !in s.runtimes ==> o.state.inflight == s.inflight + [ReconcileStatefulSet(pulled.nameOf(pulled.baseModel))])
            && (pulled.baseModel in s.runtimes ==> o.state.inflight == s.inflight)
            && var o' := HandleReadiness(o.state, pulled.baseModel, address, retries, a);
               o'.Next? && IsReady(o'.state, pulled.baseModel) && PullModel(p) in o'.state.inflight
  {
    var s1 := HandlePull(s, p, pulled).state;
    var pending := s1.runtimes[pulled.baseModel].pending;
    Succeeds(s1, pulled.baseModel, address, retries, a);
    assert pending[|pending| - 1] == p;
    assert Requeued(pending)[|pending| - 1] == PullModel(p);
  }

  // ---------------------------------------------------------------------------------------------
  // Deletions and changed stateful sets.

  /** The runtime is gone, its waiters are told, and the pulls that were pending there are in flight again. */
  ghost predicate Deleted(s: State, id: ModelId, s': State) {
    && id in s.runtimes && s'.runtimes == s.runtimes - {id}
    && (forall c: WaitCh :: c in s.runtimes[id].waitChs ==> (c, ERR_DELETED) in s'.notified)
    && (forall p :: p in s.runtimes[id].pending ==> PullModel(p) in s'.inflight)
  }

  lemma DeletionReachesAll(s: State, id: ModelId)
    requires id in s.runtimes
    ensures Deleted(s, id, DeleteRuntime(s, id))
  {
    var r, s' := s.runtimes[id], DeleteRuntime(s, id);
    forall c: WaitCh | c in r.waitChs ensures (c, ERR_DELETED) in s'.notified {
      var i :| 0 <= i < |r.waitChs| && r.waitChs[i] == c;
      assert Notices(r.waitChs, ERR_DELETED)[i] == (c, ERR_DELETED);
    }
    forall p | p in r.pending ensures PullModel(p) in s'.inflight {
      var i :| 0 <= i < |r.pending| && r.pending[i] == p;
      assert Requeued(r.pending)[i] == PullModel(p);
    }
  }

  /** A deletion that is not refused takes the runtime of an adapter away, and no other: the runtime of a base model
      goes with its stateful set. */
  lemma DeleteIff(s: State, id: ModelId, a: Answers, s': State)
    requires HandleDelete(s, id, a) == Next(s')
    ensures forall m :: m in s'.runtimes <==> m in s.runtimes && !(m == id && s.runtimes[m].lora)
    ensures id in s.runtimes && s.runtimes[id].lora ==> Deleted(s, id, s')
    ensures id in s'.runtimes || id !in s.runtimes ==> s' == s
  {
    if id in s.runtimes {
      DeletionReachesAll(s, id);
    }
  }

  /** A stateful set that is gone takes a runtime of its name with it, if there is one. */
  lemma GoneSetIff(s: State, name: string, named: Option<ModelId>, a: Answers, s': State)
    requires Named(s, name, named) && !a.found && HandleReconcile(s, name, named, a) == Next(s')
    ensures s' == s <==> forall m :: m in s.runtimes ==> s.runtimes[m].name != name
    ensures s' != s ==> named.Some? && s.runtimes[named.value].name == name && Deleted(s, named.value, s')
  {
    if named.Some? {
      DeletionReachesAll(s, named.value);
      assert named.value in s.runtimes && named.value !in s'.runtimes;
    }
  }

  /** A stateful set that is there has a runtime afterwards. Being ready is lost exactly with the last replica; a
      runtime that is not ready is checked if and only if a replica is, and fails its callers if and only if none is
      and its pod cannot be scheduled. */
  lemma ReconcileIff(s: State, name: string, named: Option<ModelId>, a: Answers, s': State)
    requires named.Some? ==> named.value in s.runtimes
    requires a.found && HandleReconcile(s, name, named, a) == Next(s')
    ensures var id, ready := a.annotatedModel, IsReady(s, a.annotatedModel);
            && s'.runtimes.Keys == s.runtimes.Keys + {id} && s'.runtimes - {id} == s.runtimes - {id}
            && (IsReady(s', id) <==> ready && a.replicas > 0)
            && (id !in s.runtimes ==> s'.runtimes[id].name == name && !s'.runtimes[id].lora)
            && s'.inflight == s.inflight + (if !ready && a.readyReplicas > 0 then [ReadinessCheck(id, a.address, 0)] else [])
            && (if !ready && a.readyReplicas == 0 && a.unschedulable then FailedFor(s, id, ERR_UNSCHEDULABLE, s')
                else s'.notified == s.notified && (id in s.runtimes ==> s'.runtimes[id].(ready := ready) == s.runtimes[id]))
  {
    var id := a.annotatedModel;
    var r := if id in s.runtimes then s.runtimes[id] else NewPendingRuntime(name);
    if !r.ready && a.readyReplicas == 0 && a.unschedulable {
      var s1 := Put(s, id, r);
      CloseTellsAll(s1, id, ERR_UNSCHEDULABLE, s');
      assert s1.runtimes - {id} == s.runtimes - {id};
      assert forall c: WaitCh, m: ModelId :: WaitsAt(s, id, c, m) ==> WaitsAt(s1, id, c, m);
    }
  }

  // ---------------------------------------------------------------------------------------------
  // Pods that load and drop adapters.

  /** A runtime that cannot take an address: it is still being created, or was scaled down. */
  predicate NotServing(s: State, id: ModelId) {
    id in s.runtimes && !(s.runtimes[id].ready && s.runtimes[id].addrs.Some?)
  }

  /** What added adapters leave of one runtime: a new one is ready at the pod's address, one that serves gets the
      address, one that does not is left alone, and so are those of other models. */
  ghost predicate AddedTo(s: State, ids: seq<ModelId>, a: Answers, s': State, id: ModelId) {
    if id !in ids || NotServing(s, id) then Lookup(s'.runtimes, id) == Lookup(s.runtimes, id)
    else
      && IsReady(s', id)
      && s'.runtimes[id].addrs == Some((if id in s.runtimes then s.runtimes[id].addrs.value else {}) + {a.addressOf(id)})
      && (if id in s.runtimes then s'.runtimes[id].(addrs := s.runtimes[id].addrs) == s.runtimes[id] else s'.runtimes[id].lora)
  }

  lemma MemberOfSnoc(ids: seq<ModelId>, last: ModelId, id: ModelId)
    ensures id in ids + [last] <==> id in ids || id == last
  {
  }

  lemma AddedOne(s: State, init: seq<ModelId>, a: Answers, s1: State, retry: seq<ModelId>, last: ModelId, id: ModelId)
    requires AddedTo(s, init, a, s1, id) && AddedTo(s, init, a, s1, last)
    ensures AddedTo(s, init + [last], a, AddAdapter(s1, retry, a.addressOf(last), last, a.nameOf(last)).0, id)
  {
    MemberOfSnoc(init, last, id);
    var none: set<Address> := {};
    assert none + {a.addressOf(id)} == {a.addressOf(id)};
    if id == last && !NotServing(s, id) && id in s1.runtimes {
      var addrs := if id in s.runtimes then s.runtimes[id].addrs.value else {};
      assert s1.runtimes[id].addrs.Some?;
      assert s1.runtimes[id].addrs.value + {a.addressOf(id)} == addrs + {a.addressOf(id)};
    }
  }

  lemma RetriedOne(s: State, init: seq<ModelId>, a: Answers, s1: State, retry: seq<ModelId>, last: ModelId)
    requires AddedTo(s, init, a, s1, last)
    ensures AddAdapter(s1, retry, a.addressOf(last), last, a.nameOf(last)).1 == if NotServing(s, last) then retry + [last] else retry
  {
  }

  /** The adapters to be tried again are those whose runtime does not serve, each as often as it was reported. */
  lemma {:induction false} AdaptersAdded(s: State, ids: seq<ModelId>, a: Answers)
    ensures var (s', retry) := AddAdapters(s, ids, a);
            && (forall id :: AddedTo(s, ids, a, s', id))
            && (forall id :: id in retry <==> id in ids && NotServing(s, id))
  {
    if ids != [] {
      var init, last := ids[..|ids| - 1], ids[|ids| - 1];
      AdaptersAdded(s, init, a);
      var (s1, retry) := AddAdapters(s, init, a);
      assert ids == init + [last];
      forall id ensures AddedTo(s, ids, a, AddAdapters(s, ids, a).0, id) {
        AddedOne(s, init, a, s1, retry, last, id);
      }
      RetriedOne(s, init, a, s1, retry, last);
    }
  }

  /** What dropped adapters leave of one runtime: it loses the pod's address, and goes with its last one. */
  ghost predicate RemovedFrom(s: State, ids: seq<ModelId>, a: Answers, s': State, id: ModelId) {
    if id !in ids || id !in s.runtimes then Lookup(s'.runtimes, id) == Lookup(s.runtimes, id)
    else
      && s.runtimes[id].addrs.Some?
      && var left := s.runtimes[id].addrs.value - {a.addressOf(id)};
         if left == {} then id !in s'.runtimes
         else id in s'.runtimes && s'.runtimes[id] == s.runtimes[id].(addrs := Some(left))
  }

  lemma RemovedOne(s: State, init: seq<ModelId>, a: Answers, s1: State, last: ModelId, s': State, id: ModelId)
    requires RemovedFrom(s, init, a, s1, id) && RemoveAdapter(s1, a.addressOf(last), last) == Some(s')
    ensures RemovedFrom(s, init + [last], a, s', id)
  {
    MemberOfSnoc(init, last, id);
    if id == last && id in s1.runtimes && id in s.runtimes {
      var address := a.addressOf(id);
      assert s.runtimes[id].addrs.Some?;
      var left := s.runtimes[id].addrs.value - {address};
      assert s1.runtimes[id].addrs.value - {address} == left;
    }
  }

  lemma {:induction false} AdaptersRemoved(s: State, ids: seq<ModelId>, a: Answers)
    requires RemoveAdapters(s, ids, a).Some?
    ensures forall id :: RemovedFrom(s, ids, a, RemoveAdapters(s, ids, a).value, id)
  {
    if ids != [] {
      var init, last := ids[..|ids| - 1], ids[|ids| - 1];
      AdaptersRemoved(s, init, a);
      assert ids == init + [last];
      forall id ensures RemovedFrom(s, ids, a, RemoveAdapters(s, ids, a).value, id) {
        RemovedOne(s, init, a, RemoveAdapters(s, init, a).value, last, RemoveAdapters(s, ids, a).value, id);
      }
    }
  }

  /** After a status update of a pod: what it loaded is served from its address, unless the runtime is not serving
      yet, and then an update of the pod with exactly those is put back, last of all; what it dropped is not served
      from there. */
  lemma StatusUpdateIs(s: State, e: Event, a: Answers, s': State) returns (s1: State, s2: State, retry: seq<ModelId>)
    requires e.StatusUpdate? && HandleStatusUpdate(s, e, a) == Next(s')
    ensures forall id :: AddedTo(s, e.added, a, s1, id)
    ensures forall id :: RemovedFrom(s1, e.removed, a, s2, id)
    ensures forall id :: id in retry <==> id in e.added && NotServing(s, id)
    ensures s' == if retry == [] then s2 else s2.(inflight := s2.inflight + [StatusUpdate(e.podIP, retry, [])])
  {
    AdaptersAdded(s, e.added, a);
    s1, retry := AddAdapters(s, e.added, a).0, AddAdapters(s, e.added, a).1;
    AdaptersRemoved(s1, e.removed, a);
    s2 := RemoveAdapters(s1, e.removed, a).value;
  }
}
