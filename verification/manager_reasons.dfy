/**
 What the callers of the runtime manager are told: every reason that a caller gets in a run is true of the step in
 which it gets it, and every failure and success reaches those that wait.
 */
module ManagerReasons {
  import opened Common
  import opened Manager
  import opened ManagerRuns

  /** The caller waits for model `m`: with its runtime, or behind a pull that is pending at the runtime `id`. */
  ghost predicate WaitsAt(s: State, id: ModelId, c: WaitCh, m: ModelId) {
    && id in s.runtimes
    && ((id == m && c in s.runtimes[id].waitChs) || Pull(m, Some(c)) in s.runtimes[id].pending)
  }

  ghost predicate OwnWaiter(s: State, c: WaitCh, m: ModelId) {
    m in s.runtimes && c in s.runtimes[m].waitChs
  }

  predicate IsReady(s: State, id: ModelId) {
    id in s.runtimes && s.runtimes[id].ready
  }

  /** A waiter of a runtime that the step deletes. */
  ghost predicate ToldOfDeletion(s: State, s': State, c: WaitCh, m: ModelId, reason: string) {
    OwnWaiter(s, c, m) && m !in s'.runtimes && reason == ERR_DELETED
  }

  /** The caller is told at once: success by a ready runtime, the stored error by one that is not. */
  ghost predicate ToldByPull(s: State, p: Pull, s': State, c: WaitCh, m: ModelId, reason: string) {
    && p == Pull(m, Some(c)) && m in s.runtimes && s'.runtimes == s.runtimes
    && (IsReady(s, m) ==> reason == "")
    && (!IsReady(s, m) ==> reason == s.runtimes[m].lastErr && reason != "")
  }

  ghost predicate ToldByReadiness(s: State, id: ModelId, retryCount: nat, a: Answers, s': State, c: WaitCh, m: ModelId, reason: string) {
    if a.reachable then reason == "" && id == m && OwnWaiter(s, c, m) && IsReady(s', m)
    else reason == ERR_UNREACHABLE && retryCount >= 3 && WaitsAt(s, id, c, m) && !IsReady(s', id)
  }

  ghost predicate ToldByReconcile(s: State, a: Answers, s': State, c: WaitCh, m: ModelId, reason: string) {
    if !a.found then ToldOfDeletion(s, s', c, m, reason)
    else
      && reason == ERR_UNSCHEDULABLE && a.unschedulable && a.readyReplicas == 0
      && WaitsAt(s, a.annotatedModel, c, m) && !IsReady(s', a.annotatedModel)
  }

  /** The step has a ground for the reason it gives to a caller that asked for the model `m`. */
  ghost predicate Told(s: State, e: Event, a: Answers, s': State, c: WaitCh, m: ModelId, reason: string) {
    match e
    case PullModel(p) => ToldByPull(s, p, s', c, m, reason)
    case ReadinessCheck(id, _, retryCount) => ToldByReadiness(s, id, retryCount, a, s', c, m, reason)
    case ReconcileStatefulSet(_) => ToldByReconcile(s, a, s', c, m, reason)
    case DeleteModel(id) => id == m && ToldOfDeletion(s, s', c, m, reason)
    case StatusUpdate(_, _, _) => ToldOfDeletion(s, s', c, m, reason)
    case _ => false
  }

  /** What callers have asked for: their channels, each with its model. */
  type Asked = set<(WaitCh, ModelId)>

  ghost predicate PullKnown(p: Pull, asked: Asked) {
    p.ch.Some? ==> (p.ch.value, p.model) in asked
  }

  ghost predicate RuntimeKnown(id: ModelId, r: Runtime, asked: Asked) {
    && (forall c :: c in r.waitChs ==> (c, id) in asked)
    && (forall p :: p in r.pending ==> PullKnown(p, asked))
  }

  ghost predicate EventKnown(e: Event, asked: Asked) {
    e.PullModel? ==> PullKnown(e.pull, asked)
  }

  ghost predicate AllKnown(rs: map<ModelId, Runtime>, asked: Asked) {
    forall id :: id in rs ==> RuntimeKnown(id, rs[id], asked)
  }

  ghost predicate EventsKnown(es: seq<Event>, asked: Asked) {
    forall e :: e in es ==> EventKnown(e, asked)
  }

  /** Every caller waits for the model it asked for. */
  ghost predicate Known(s: State, asked: Asked) {
    AllKnown(s.runtimes, asked) && EventsKnown(s.inflight, asked)
  }

  ghost predicate Justified(s: State, e: Event, a: Answers, s': State, asked: Asked, n: (WaitCh, string)) {
    exists m :: (n.0, m) in asked && Told(s, e, a, s', n.0, m, n.1)
  }

  /** The notices that a step adds are those given. */
  ghost predicate Adds(s: State, s': State, notices: seq<(WaitCh, string)>) {
    s'.notified == s.notified + notices
  }

  ghost predicate AllJustified(s: State, e: Event, a: Answers, s': State, asked: Asked, notices: seq<(WaitCh, string)>) {
    forall j :: 0 <= j < |notices| ==> Justified(s, e, a, s', asked, notices[j])
  }

  // ---------------------------------------------------------------------------------------------
  // Small steps on lists.

  lemma {:induction false} ChsOfMembers(pulls: seq<Pull>, c: WaitCh)
    ensures c in ChsOf(pulls) <==> exists p :: p in pulls && p.ch == Some(c)
  {
    if pulls != [] {
      var init, last := pulls[..|pulls| - 1], pulls[|pulls| - 1];
      ChsOfMembers(init, c);
      assert pulls == init + [last];
      assert forall p :: p in pulls <==> p in init || p == last;
    }
  }

  lemma RequeuedKnown(pulls: seq<Pull>, asked: Asked)
    requires forall p :: p in pulls ==> PullKnown(p, asked)
    ensures EventsKnown(Requeued(pulls), asked)
  {
    forall e | e in Requeued(pulls) ensures EventKnown(e, asked) {
      var i :| 0 <= i < |pulls| && Requeued(pulls)[i] == e;
      assert pulls[i] in pulls;
    }
  }

  lemma NoticesAre(chs: seq<WaitCh>, reason: string, j: nat)
    requires j < |chs|
    ensures Notices(chs, reason)[j].0 in chs && Notices(chs, reason)[j].1 == reason
  {
  }

  // ---------------------------------------------------------------------------------------------
  // Each handler.

  lemma PullTells(s: State, p: Pull, a: Answers, s': State, asked: Asked) returns (notices: seq<(WaitCh, string)>)
    requires Known(s, asked) && PullKnown(p, asked) && HandlePull(s, p, a) == Next(s')
    ensures Adds(s, s', notices) && AllJustified(s, PullModel(p), a, s', asked, notices)
  {
    notices := [];
    if p.model in s.runtimes && p.ch.Some? && (s.runtimes[p.model].ready || s.runtimes[p.model].lastErr != "") {
      var reason := if s.runtimes[p.model].ready then "" else s.runtimes[p.model].lastErr;
      notices := [(p.ch.value, reason)];
      assert Told(s, PullModel(p), a, s', p.ch.value, p.model, reason);
    }
  }

  lemma PullKeepsKnown(s: State, p: Pull, a: Answers, s': State, asked: Asked)
    requires Known(s, asked) && PullKnown(p, asked) && HandlePull(s, p, a) == Next(s')
    ensures Known(s', asked)
  {
    forall id | id in s'.runtimes ensures RuntimeKnown(id, s'.runtimes[id], asked) {
      if id in s.runtimes {
        assert RuntimeKnown(id, s.runtimes[id], asked);
      }
    }
  }

  /** Deleting a runtime tells its own waiters, and puts the pulls that are pending there back. */
  lemma DeletionTells(s: State, id: ModelId, asked: Asked)
    requires Known(s, asked) && id in s.runtimes
    ensures Known(DeleteRuntime(s, id), asked)
    ensures forall j :: 0 <= j < |s.runtimes[id].waitChs| ==>
              var n := Notices(s.runtimes[id].waitChs, ERR_DELETED)[j];
              (n.0, id) in asked && ToldOfDeletion(s, DeleteRuntime(s, id), n.0, id, n.1)
  {
    var r := s.runtimes[id];
    assert RuntimeKnown(id, r, asked);
    RequeuedKnown(r.pending, asked);
  }

  lemma DeleteTells(s: State, id: ModelId, a: Answers, s': State, asked: Asked) returns (notices: seq<(WaitCh, string)>)
    requires Known(s, asked) && HandleDelete(s, id, a) == Next(s')
    ensures Known(s', asked) && Adds(s, s', notices) && AllJustified(s, DeleteModel(id), a, s', asked, notices)
  {
    notices := [];
    if s' != s {
      DeletionTells(s, id, asked);
      notices := Notices(s.runtimes[id].waitChs, ERR_DELETED);
      forall j | 0 <= j < |notices| ensures Justified(s, DeleteModel(id), a, s', asked, notices[j]) {
        assert Told(s, DeleteModel(id), a, s', notices[j].0, id, notices[j].1);
      }
    }
  }

  lemma ClosedTells(s: State, id: ModelId, r: Runtime, reason: string, asked: Asked, j: nat) returns (m: ModelId)
    requires Known(s, asked) && id in s.runtimes && r == s.runtimes[id] && Closed(r, reason).Some?
    requires j < |Closed(r, reason).value.1|
    ensures var n := Closed(r, reason).value.1[j]; (n.0, m) in asked && n.1 == reason && WaitsAt(s, id, n.0, m)
  {
    var chs := r.waitChs + ChsOf(r.pending);
    NoticesAre(chs, reason, j);
    assert RuntimeKnown(id, r, asked);
    var c := chs[j];
    if c in r.waitChs {
      m := id;
    } else {
      ChsOfMembers(r.pending, c);
      var p :| p in r.pending && p.ch == Some(c);
      m := p.model;
      assert p == Pull(m, Some(c));
    }
  }

  lemma ReadinessFailureTells(s: State, id: ModelId, address: Address, retryCount: nat, a: Answers, s': State, asked: Asked)
    returns (notices: seq<(WaitCh, string)>)
    requires Known(s, asked) && AllSound(s) && HandleReadiness(s, id, address, retryCount, a) == Next(s')
    requires id in s.runtimes && !a.reachable && retryCount >= 3
    ensures Adds(s, s', notices) && AllJustified(s, ReadinessCheck(id, address, retryCount), a, s', asked, notices)
  {
    var r, e := s.runtimes[id], ReadinessCheck(id, address, retryCount);
    notices := Closed(r, ERR_UNREACHABLE).value.1;
    forall j | 0 <= j < |notices| ensures Justified(s, e, a, s', asked, notices[j]) {
      var m := ClosedTells(s, id, r, ERR_UNREACHABLE, asked, j);
      assert Sound(r) && !r.ready;
      assert Told(s, e, a, s', notices[j].0, m, notices[j].1);
    }
  }

  lemma ReadinessSuccessTells(s: State, id: ModelId, address: Address, retryCount: nat, a: Answers, s': State, asked: Asked)
    returns (notices: seq<(WaitCh, string)>)
    requires Known(s, asked) && HandleReadiness(s, id, address, retryCount, a) == Next(s')
    requires id in s.runtimes && a.reachable
    ensures Adds(s, s', notices) && AllJustified(s, ReadinessCheck(id, address, retryCount), a, s', asked, notices)
  {
    var r, e := s.runtimes[id], ReadinessCheck(id, address, retryCount);
    assert RuntimeKnown(id, r, asked);
    notices := Notices(r.waitChs, "");
    forall j | 0 <= j < |notices| ensures Justified(s, e, a, s', asked, notices[j]) {
      assert Told(s, e, a, s', notices[j].0, id, notices[j].1);
    }
  }

  lemma ReadinessKeepsKnown(s: State, id: ModelId, address: Address, retryCount: nat, a: Answers, s': State, asked: Asked)
    requires Known(s, asked) && HandleReadiness(s, id, address, retryCount, a) == Next(s')
    ensures Known(s', asked)
  {
    if id in s.runtimes {
      assert RuntimeKnown(id, s.runtimes[id], asked);
      RequeuedKnown(s.runtimes[id].pending, asked);
    }
  }

  lemma ReadinessTells(s: State, id: ModelId, address: Address, retryCount: nat, a: Answers, s': State, asked: Asked)
    returns (notices: seq<(WaitCh, string)>)
    requires Known(s, asked) && AllSound(s) && HandleReadiness(s, id, address, retryCount, a) == Next(s')
    ensures Adds(s, s', notices) && AllJustified(s, ReadinessCheck(id, address, retryCount), a, s', asked, notices)
  {
    if id !in s.runtimes || (!a.reachable && retryCount < 3) {
      notices := [];
    } else if a.reachable {
      notices := ReadinessSuccessTells(s, id, address, retryCount, a, s', asked);
    } else {
      notices := ReadinessFailureTells(s, id, address, retryCount, a, s', asked);
    }
  }

  lemma GoneTells(s: State, name: string, named: Option<ModelId>, a: Answers, s': State, asked: Asked)
    returns (notices: seq<(WaitCh, string)>)
    requires named.Some? ==> named.value in s.runtimes
    requires Known(s, asked) && HandleReconcile(s, name, named, a) == Next(s') && !a.found
    ensures Known(s', asked) && Adds(s, s', notices) && AllJustified(s, ReconcileStatefulSet(name), a, s', asked, notices)
  {
    notices := [];
    if named.Some? {
      var id := named.value;
      DeletionTells(s, id, asked);
      notices := Notices(s.runtimes[id].waitChs, ERR_DELETED);
      forall j | 0 <= j < |notices| ensures Justified(s, ReconcileStatefulSet(name), a, s', asked, notices[j]) {
        assert Told(s, ReconcileStatefulSet(name), a, s', notices[j].0, id, notices[j].1);
      }
    }
  }

  lemma FoundKeepsKnown(s: State, name: string, named: Option<ModelId>, a: Answers, s': State, asked: Asked)
    requires named.Some? ==> named.value in s.runtimes
    requires Known(s, asked) && HandleReconcile(s, name, named, a) == Next(s') && a.found
    ensures Known(s', asked)
  {
    if a.annotatedModel in s.runtimes {
      assert RuntimeKnown(a.annotatedModel, s.runtimes[a.annotatedModel], asked);
    }
  }

  lemma FoundTells(s: State, name: string, named: Option<ModelId>, a: Answers, s': State, asked: Asked)
    returns (notices: seq<(WaitCh, string)>)
    requires named.Some? ==> named.value in s.runtimes
    requires Known(s, asked) && AllSound(s) && HandleReconcile(s, name, named, a) == Next(s') && a.found
    ensures Adds(s, s', notices) && AllJustified(s, ReconcileStatefulSet(name), a, s', asked, notices)
  {
    var id := a.annotatedModel;
    var r := if id in s.runtimes then s.runtimes[id] else NewPendingRuntime(name);
    if r.ready || a.readyReplicas > 0 || !a.unschedulable {
      notices := [];
    } else {
      notices := Closed(r, ERR_UNSCHEDULABLE).value.1;
      if id !in s.runtimes {
        assert notices == [];
      } else {
        forall j | 0 <= j < |notices| ensures Justified(s, ReconcileStatefulSet(name), a, s', asked, notices[j]) {
          var m := ClosedTells(s, id, r, ERR_UNSCHEDULABLE, asked, j);
          assert Told(s, ReconcileStatefulSet(name), a, s', notices[j].0, m, notices[j].1);
        }
      }
    }
  }

  // ---------------------------------------------------------------------------------------------
  // Status updates.

  /** No caller of a runtime is touched by added adapters. */
  ghost predicate SameCallers(s: State, s': State) {
    && s'.inflight == s.inflight && s'.notified == s.notified
    && (forall id :: id in s.runtimes ==>
          id in s'.runtimes && s'.runtimes[id].waitChs == s.runtimes[id].waitChs && s'.runtimes[id].pending == s.runtimes[id].pending)
    && (forall id :: id in s'.runtimes && id !in s.runtimes ==> s'.runtimes[id].waitChs == [] && s'.runtimes[id].pending == [])
  }

  lemma {:induction false} AddsKeepCallers(s: State, ids: seq<ModelId>, a: Answers)
    ensures SameCallers(s, AddAdapters(s, ids, a).0)
  {
    if ids != [] {
      AddsKeepCallers(s, ids[..|ids| - 1], a);
    }
  }

  lemma SameCallersKnown(s: State, s': State, asked: Asked)
    requires SameCallers(s, s') && Known(s, asked)
    ensures Known(s', asked)
  {
    forall id | id in s'.runtimes ensures RuntimeKnown(id, s'.runtimes[id], asked) {
      if id in s.runtimes {
        assert RuntimeKnown(id, s.runtimes[id], asked);
      }
    }
  }

  /** The waiters of runtimes that removals delete, and of no others, are told so. */
  ghost predicate DeletionNotice(s: State, s': State, asked: Asked, n: (WaitCh, string)) {
    exists m :: (n.0, m) in asked && ToldOfDeletion(s, s', n.0, m, n.1)
  }

  ghost predicate RemovedSoFar(s: State, s': State, asked: Asked, notices: seq<(WaitCh, string)>) {
    && Known(s', asked) && Adds(s, s', notices)
    && (forall id :: id in s'.runtimes ==> id in s.runtimes && s'.runtimes[id].waitChs == s.runtimes[id].waitChs)
    && (forall j :: 0 <= j < |notices| ==> DeletionNotice(s, s', asked, notices[j]))
  }

  lemma RemoveOneTells(s: State, s1: State, address: Address, id: ModelId, s': State, asked: Asked, before: seq<(WaitCh, string)>)
    returns (notices: seq<(WaitCh, string)>)
    requires RemovedSoFar(s, s1, asked, before) && RemoveAdapter(s1, address, id) == Some(s')
    ensures RemovedSoFar(s, s', asked, notices)
  {
    notices := before;
    if id in s1.runtimes {
      var r := s1.runtimes[id];
      var r' := r.(addrs := Some(r.addrs.value - {address}));
      var s2 := Put(s1, id, r');
      assert RuntimeKnown(id, r, asked);
      assert Known(s2, asked);
      if r'.addrs.value == {} {
        DeletionTells(s2, id, asked);
        var last := Notices(r.waitChs, ERR_DELETED);
        notices := before + last;
        forall j | 0 <= j < |notices| ensures DeletionNotice(s, s', asked, notices[j]) {
          if j < |before| {
            assert DeletionNotice(s, s1, asked, before[j]);
            var m :| (before[j].0, m) in asked && ToldOfDeletion(s, s1, before[j].0, m, before[j].1);
            assert ToldOfDeletion(s, s', notices[j].0, m, notices[j].1);
          } else {
            var n := last[j - |before|];
            assert (n.0, id) in asked && ToldOfDeletion(s, s', n.0, id, n.1);
          }
        }
      } else {
        forall j | 0 <= j < |notices| ensures DeletionNotice(s, s', asked, notices[j]) {
          assert DeletionNotice(s, s1, asked, before[j]);
          var m :| (before[j].0, m) in asked && ToldOfDeletion(s, s1, before[j].0, m, before[j].1);
          assert ToldOfDeletion(s, s', notices[j].0, m, notices[j].1);
        }
      }
    }
  }

  lemma {:induction false} RemovalsTell(s: State, ids: seq<ModelId>, a: Answers, asked: Asked) returns (notices: seq<(WaitCh, string)>)
    requires Known(s, asked) && RemoveAdapters(s, ids, a).Some?
    ensures RemovedSoFar(s, RemoveAdapters(s, ids, a).value, asked, notices)
  {
    if ids == [] {
      notices := [];
    } else {
      var before := RemovalsTell(s, ids[..|ids| - 1], a, asked);
      var id := ids[|ids| - 1];
      notices := RemoveOneTells(s, RemoveAdapters(s, ids[..|ids| - 1], a).value, a.addressOf(id), id,
                                RemoveAdapters(s, ids, a).value, asked, before);
    }
  }

  lemma StatusUpdateTells(s: State, e: Event, a: Answers, s': State, asked: Asked) returns (notices: seq<(WaitCh, string)>)
    requires e.StatusUpdate? && Known(s, asked) && HandleStatusUpdate(s, e, a) == Next(s')
    ensures Known(s', asked) && Adds(s, s', notices) && AllJustified(s, e, a, s', asked, notices)
  {
    var (s1, retry) := AddAdapters(s, e.added, a);
    AddsKeepCallers(s, e.added, a);
    SameCallersKnown(s, s1, asked);
    notices := RemovalsTell(s1, e.removed, a, asked);
    forall j | 0 <= j < |notices| ensures Justified(s, e, a, s', asked, notices[j]) {
      var s2 := RemoveAdapters(s1, e.removed, a).value;
      assert DeletionNotice(s1, s2, asked, notices[j]);
      var m :| (notices[j].0, m) in asked && ToldOfDeletion(s1, s2, notices[j].0, m, notices[j].1);
      assert m in s.runtimes;
      assert Told(s, e, a, s', notices[j].0, m, notices[j].1);
    }
  }

  // ---------------------------------------------------------------------------------------------
  // Runs.

  /** Every handler keeps each caller with the model it asked for, and gives reasons that are true. */
  lemma HandlerTells(s: State, e: Event, named: Option<ModelId>, a: Answers, s': State, asked: Asked)
    returns (notices: seq<(WaitCh, string)>)
    requires named.Some? ==> named.value in s.runtimes
    requires Known(s, asked) && EventKnown(e, asked) && AllSound(s) && HandleEvent(s, e, named, a) == Next(s')
    ensures Known(s', asked) && Adds(s, s', notices) && AllJustified(s, e, a, s', asked, notices)
  {
    match e
    case PullModel(p) =>
      PullKeepsKnown(s, p, a, s', asked);
      notices := PullTells(s, p, a, s', asked);
    case DeleteModel(id) => notices := DeleteTells(s, id, a, s', asked);
    case UpdateModel(_) => notices := [];
    case ReconcileStatefulSet(name) =>
      if a.found {
        FoundKeepsKnown(s, name, named, a, s', asked);
        notices := FoundTells(s, name, named, a, s', asked);
      } else {
        notices := GoneTells(s, name, named, a, s', asked);
      }
    case ReadinessCheck(id, address, retryCount) =>
      ReadinessKeepsKnown(s, id, address, retryCount, a, s', asked);
      notices := ReadinessTells(s, id, address, retryCount, a, s', asked);
    case PullStatusCheck(_, _, _) => notices := [];
    case StatusUpdate(_, _, _) => notices := StatusUpdateTells(s, e, a, s', asked);
    case LoadAdapter(_, _) => notices := [];
  }

  /** What has been asked for by the pulls that arrived. */
  function AskedFor(steps: seq<Step>): Asked {
    if steps == [] then {}
    else
      var step := steps[|steps| - 1];
      AskedFor(steps[..|steps| - 1]) +
      (if step.Arrive? && step.event.PullModel? && step.event.pull.ch.Some?
       then {(step.event.pull.ch.value, step.event.pull.model)} else {})
  }

  lemma MoreAsked(s: State, asked: Asked, asked': Asked)
    requires Known(s, asked) && asked <= asked'
    ensures Known(s, asked')
  {
    forall id | id in s.runtimes ensures RuntimeKnown(id, s.runtimes[id], asked') {
      assert RuntimeKnown(id, s.runtimes[id], asked);
      forall p | p in s.runtimes[id].pending ensures PullKnown(p, asked') {
        assert PullKnown(p, asked);
      }
    }
    forall e | e in s.inflight ensures EventKnown(e, asked') {
      assert EventKnown(e, asked);
    }
  }

  lemma WithoutOne(s: State, i: nat, asked: Asked)
    requires Known(s, asked) && i < |s.inflight|
    ensures Known(s.(inflight := Without(s.inflight, i)), asked) && EventKnown(s.inflight[i], asked)
  {
  }

  /** One step of a run. */
  lemma StepTells(s: State, step: Step, s': State, asked: Asked, asked': Asked) returns (notices: seq<(WaitCh, string)>)
    requires Steps(s, step, s') && Known(s, asked) && AllSound(s)
    requires asked <= asked' && (step.Arrive? ==> EventKnown(step.event, asked'))
    ensures Known(s', asked') && Adds(s, s', notices)
    ensures step.Arrive? ==> notices == []
    ensures step.Handle? ==>
      AllJustified(s.(inflight := Without(s.inflight, step.i)), s.inflight[step.i], step.answers, s', asked, notices)
  {
    match step
    case Arrive(e) =>
      MoreAsked(s, asked, asked');
      notices := [];
    case Handle(i, named, a) =>
      WithoutOne(s, i, asked);
      notices := HandlerTells(s.(inflight := Without(s.inflight, i)), s.inflight[i], named, a, s', asked);
      MoreAsked(s', asked, asked');
  }

  /** Step `k` of the run gives the notice, with a ground for it. */
  ghost predicate GroundAt(states: seq<State>, steps: seq<Step>, k: nat, n: (WaitCh, string))
    requires |states| == |steps| + 1
  {
    && k < |steps| && steps[k].Handle? && steps[k].i < |states[k].inflight|
    && Justified(states[k].(inflight := Without(states[k].inflight, steps[k].i)), states[k].inflight[steps[k].i],
                 steps[k].answers, states[k + 1], AskedFor(steps[..k]), n)
  }

  lemma {:induction false} RunKeepsKnown(states: seq<State>, steps: seq<Step>, n: nat)
    requires Run(states, steps) && n <= |steps|
    ensures Known(states[n], AskedFor(steps[..n]))
  {
    if n > 0 {
      RunKeepsKnown(states, steps, n - 1);
      RunKeepsSound(states, steps, n - 1);
      assert Steps(states[n - 1], steps[n - 1], states[n]);
      assert steps[..n][..n - 1] == steps[..n - 1];
      var notices := StepTells(states[n - 1], steps[n - 1], states[n], AskedFor(steps[..n - 1]), AskedFor(steps[..n]));
    }
  }

  /** A notice that is new after step `k`. */
  lemma NewNotice(states: seq<State>, steps: seq<Step>, k: nat, j: nat)
    requires Run(states, steps) && k < |steps| && |states[k].notified| <= j < |states[k + 1].notified|
    ensures GroundAt(states, steps, k, states[k + 1].notified[j])
  {
    RunKeepsKnown(states, steps, k);
    RunKeepsSound(states, steps, k);
    assert Steps(states[k], steps[k], states[k + 1]);
    var asked := AskedFor(steps[..k]);
    var notices := StepTells(states[k], steps[k], states[k + 1], asked, asked + AskedFor(steps[k..k + 1]));
    assert states[k + 1].notified[j] == notices[j - |states[k].notified|];
  }

  lemma NoticesStay(states: seq<State>, steps: seq<Step>, k: nat)
    requires Run(states, steps) && k < |steps|
    ensures states[k].notified <= states[k + 1].notified
  {
    RunKeepsKnown(states, steps, k);
    RunKeepsSound(states, steps, k);
    assert Steps(states[k], steps[k], states[k + 1]);
    var asked := AskedFor(steps[..k]);
    var notices := StepTells(states[k], steps[k], states[k + 1], asked, asked + AskedFor(steps[k..k + 1]));
  }

  /** In every run, whatever a caller was told had a ground in the step that told it: see `Told`. */
  lemma {:induction false} ReasonsAreTrue(states: seq<State>, steps: seq<Step>, n: nat, j: nat)
    requires Run(states, steps) && n <= |steps| && j < |states[n].notified|
    ensures exists k :: 0 <= k < n && GroundAt(states, steps, k, states[n].notified[j])
  {
    if n > 0 {
      NoticesStay(states, steps, n - 1);
      if j < |states[n - 1].notified| {
        ReasonsAreTrue(states, steps, n - 1, j);
      } else {
        NewNotice(states, steps, n - 1, j);
      }
    }
  }

  /** A caller is told of success if and only if after the step the runtime of its model is ready and the caller
      was not behind another runtime: its pull was handled in the step, or it waited for that runtime itself. */
  lemma SuccessIff(s: State, e: Event, named: Option<ModelId>, a: Answers, s': State, c: WaitCh, m: ModelId, reason: string)
    requires named.Some? ==> named.value in s.runtimes
    requires AllSound(s) && HandleEvent(s, e, named, a) == Next(s') && Told(s, e, a, s', c, m, reason)
    ensures reason == "" <==> IsReady(s', m) && (e.PullModel? || OwnWaiter(s, c, m))
    ensures reason in {"", ERR_DELETED, ERR_UNREACHABLE, ERR_UNSCHEDULABLE} || (e.PullModel? && reason == s.runtimes[m].lastErr)
  {
    if !e.PullModel? && OwnWaiter(s, c, m) {
      assert Sound(s.runtimes[m]);
    }
  }

  // ---------------------------------------------------------------------------------------------
  // A caller that is told of a failure of the base model when the adapter it asked for is ready.

  const PULL := Pull("adapter", Some(7))

  /** The pull waits behind the base model. */
  lemma BehindBase()
    ensures Reachable(State(map["base" := NewPendingRuntime("sts").(pending := [PULL])], [ReconcileStatefulSet("sts")], []))
  {
    var none: seq<Step> := [];
    assert Run([INIT], none) && [INIT][|none|] == INIT;
    var s1 := State(map[], [PullModel(PULL)], []);
    Reach(INIT, Arrive(PullModel(PULL)), s1);
    assert Without(s1.inflight, 0) == [];
    var a := NOTHING.(dynamicLoRA := true, baseModel := "base");
    var s2 := State(map["base" := NewPendingRuntime("sts").(pending := [PULL])], [ReconcileStatefulSet("sts")], []);
    var got := HandlePull(INIT, PULL, a).state;
    var br := NewPendingRuntime("sts");
    assert a.nameOf("base") == "sts" && br.pending + [PULL] == [PULL];
    assert got.runtimes == map["base" := br]["base" := br.(pending := br.pending + [PULL])];
    assert got.runtimes == s2.runtimes;
    Reach(s1, Handle(0, None, a), s2);
  }

  function AdapterReady(es: seq<Event>): State {
    State(map["base" := NewPendingRuntime("sts").(pending := [PULL]),
              "adapter" := BecomeReady(NewPendingRuntime("sts").(lora := true), "ip")], es, [])
  }

  const UPDATE := StatusUpdate("pod", ["adapter"], [])

  lemma UpdateArrives()
    ensures Reachable(State(map["base" := NewPendingRuntime("sts").(pending := [PULL])], [ReconcileStatefulSet("sts"), UPDATE], []))
  {
    BehindBase();
    var s := State(map["base" := NewPendingRuntime("sts").(pending := [PULL])], [ReconcileStatefulSet("sts")], []);
    assert s.inflight + [UPDATE] == [ReconcileStatefulSet("sts"), UPDATE];
    Reach(s, Arrive(UPDATE), s.(inflight := [ReconcileStatefulSet("sts"), UPDATE]));
  }

  lemma UpdateIs(s: State)
    requires "adapter" !in s.runtimes
    ensures HandleStatusUpdate(s, UPDATE, NOTHING)
         == Next(Put(s, "adapter", BecomeReady(NewPendingRuntime("sts").(lora := true), "ip")))
  {
    assert ["adapter"][..0] == [] && AddAdapters(s, [], NOTHING) == (s, []);
  }

  /** A pod reports that it has loaded the adapter. */
  lemma AdapterBecomesReady()
    ensures Reachable(AdapterReady([ReconcileStatefulSet("sts")]))
  {
    UpdateArrives();
    var change := ReconcileStatefulSet("sts");
    var s := State(map["base" := NewPendingRuntime("sts").(pending := [PULL])], [change, UPDATE], []);
    assert Without(s.inflight, 1) == [change];
    UpdateIs(s.(inflight := [change]));
    var s' := AdapterReady([change]);
    assert Put(s.(inflight := [change]), "adapter", BecomeReady(NewPendingRuntime("sts").(lora := true), "ip")) == s';
    Reach(s, Handle(1, None, NOTHING), s');
  }

  /** The caller is told that the base model cannot be scheduled, although the adapter is ready before and after. */
  lemma ToldOfBaseModel() returns (s: State, a: Answers, s': State)
    ensures Reachable(s) && s.inflight == [ReconcileStatefulSet("sts")] && Named(s, "sts", Some("base"))
    ensures HandleEvent(s.(inflight := []), s.inflight[0], Some("base"), a) == Next(s')
    ensures IsReady(s, "adapter") && IsReady(s', "adapter") && s'.notified == [(7, ERR_UNSCHEDULABLE)]
  {
    AdapterBecomesReady();
    s := AdapterReady([ReconcileStatefulSet("sts")]);
    a := NOTHING.(annotatedModel := "base", readyReplicas := 0, unschedulable := true);
    var base := s.runtimes["base"];
    assert ChsOf([PULL][..0]) == [] && ChsOf([PULL]) == [7];
    assert Notices([] + ChsOf(base.pending), ERR_UNSCHEDULABLE) == [(7, ERR_UNSCHEDULABLE)];
    assert Put(s.(inflight := []), "base", base) == s.(inflight := []);
    s' := HandleReconcile(s.(inflight := []), "sts", Some("base"), a).state;
  }
}
