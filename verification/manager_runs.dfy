/**
 What every run of the runtime manager keeps: where the wait channels are, what a ready runtime looks
 like, and when a ready runtime carries an error all the same.
 */
module ManagerRuns {
  import opened Common
  import opened Manager

  // ---------------------------------------------------------------------------------------------
  // Counting places.

  lemma {:induction false} HeldSplit(rs: map<ModelId, Runtime>, id: ModelId, c: WaitCh)
    requires id in rs
    ensures Held(rs, c) == OfRuntime(rs[id], c) + Held(rs - {id}, c)
    decreases |rs|
  {
    var k :| k in rs && Held(rs, c) == OfRuntime(rs[k], c) + Held(rs - {k}, c);
    if k != id {
      HeldSplit(rs - {k}, id, c);
      HeldSplit(rs - {id}, k, c);
      assert rs - {k} - {id} == rs - {id} - {k};
    }
  }

  lemma HeldPut(rs: map<ModelId, Runtime>, id: ModelId, r: Runtime, c: WaitCh)
    ensures Held(rs[id := r], c) == Held(rs, c) + OfRuntime(r, c) - (if id in rs then OfRuntime(rs[id], c) else 0)
  {
    HeldSplit(rs[id := r], id, c);
    assert rs[id := r] - {id} == rs - {id};
    if id in rs {
      HeldSplit(rs, id, c);
    } else {
      assert rs - {id} == rs;
    }
  }

  lemma {:induction false} InFlightConcat(a: seq<Event>, b: seq<Event>, c: WaitCh)
    ensures InFlight(a + b, c) == InFlight(a, c) + InFlight(b, c)
  {
    if b == [] {
      assert a + b == a;
    } else {
      InFlightConcat(a, b[..|b| - 1], c);
      assert (a + b)[..|a + b| - 1] == a + b[..|b| - 1];
    }
  }

  lemma InFlightTake(es: seq<Event>, i: nat, c: WaitCh)
    requires i < |es|
    ensures InFlight(es, c) == InFlight(Without(es, i), c) + OfEvent(es[i], c)
  {
    assert es == es[..i] + [es[i]] + es[i + 1..];
    InFlightConcat(es[..i] + [es[i]], es[i + 1..], c);
    InFlightConcat(es[..i], [es[i]], c);
    InFlightConcat(es[..i], es[i + 1..], c);
  }

  lemma {:induction false} DoneConcat(a: seq<(WaitCh, string)>, b: seq<(WaitCh, string)>, c: WaitCh)
    ensures Done(a + b, c) == Done(a, c) + Done(b, c)
  {
    if b == [] {
      assert a + b == a;
    } else {
      DoneConcat(a, b[..|b| - 1], c);
      assert (a + b)[..|a + b| - 1] == a + b[..|b| - 1];
    }
  }

  lemma {:induction false} DoneNotices(chs: seq<WaitCh>, reason: string, c: WaitCh)
    ensures Done(Notices(chs, reason), c) == multiset(chs)[c]
  {
    if chs != [] {
      DoneNotices(chs[..|chs| - 1], reason, c);
      assert Notices(chs, reason)[..|chs| - 1] == Notices(chs[..|chs| - 1], reason);
      assert chs == chs[..|chs| - 1] + [chs[|chs| - 1]];
    }
  }

  lemma {:induction false} InFlightRequeued(pulls: seq<Pull>, c: WaitCh)
    ensures InFlight(Requeued(pulls), c) == multiset(ChsOf(pulls))[c]
  {
    if pulls != [] {
      InFlightRequeued(pulls[..|pulls| - 1], c);
      assert Requeued(pulls)[..|pulls| - 1] == Requeued(pulls[..|pulls| - 1]);
    }
  }

  lemma PendingSnoc(pulls: seq<Pull>, p: Pull, c: WaitCh)
    ensures multiset(ChsOf(pulls + [p]))[c] == multiset(ChsOf(pulls))[c] + OfEvent(PullModel(p), c)
  {
    assert (pulls + [p])[..|pulls|] == pulls;
  }

  lemma EmitPlaces(s: State, e: Event, c: WaitCh)
    ensures Places(Emit(s, e), c) == Places(s, c) + OfEvent(e, c)
  {
    assert (s.inflight + [e])[..|s.inflight|] == s.inflight;
  }

  lemma PutPlaces(s: State, id: ModelId, r: Runtime, c: WaitCh)
    ensures Places(Put(s, id, r), c)
         == Places(s, c) + OfRuntime(r, c) - (if id in s.runtimes then OfRuntime(s.runtimes[id], c) else 0)
  {
    HeldPut(s.runtimes, id, r, c);
  }

  lemma NotifyPlaces(s: State, id: ModelId, r: Runtime, notices: seq<(WaitCh, string)>, c: WaitCh)
    ensures Places(Put(s, id, r).(notified := s.notified + notices), c) == Places(Put(s, id, r), c) + Done(notices, c)
  {
    DoneConcat(s.notified, notices, c);
  }

  lemma WaitingPlaces(r: Runtime, p: Pull, c: WaitCh)
    ensures OfRuntime(Waiting(r, p.ch), c) == OfRuntime(r, c) + OfEvent(PullModel(p), c)
  {
  }

  /** Closing turns a runtime's waiters and pending pulls into notices, one for one. */
  lemma ClosedPlaces(r: Runtime, reason: string, c: WaitCh)
    requires Closed(r, reason).Some?
    ensures var (r', notices) := Closed(r, reason).value;
            OfRuntime(r', c) == 0 && Done(notices, c) == OfRuntime(r, c)
  {
    DoneNotices(r.waitChs + ChsOf(r.pending), reason, c);
  }

  /** Requeueing and closing do the same when pulls go back to the event channel. */
  lemma SettledPlaces(s: State, r: Runtime, reason: string, c: WaitCh)
    ensures InFlight(s.inflight + Requeued(r.pending), c) + Done(s.notified + Notices(r.waitChs, reason), c)
         == InFlight(s.inflight, c) + Done(s.notified, c) + OfRuntime(r, c)
  {
    InFlightConcat(s.inflight, Requeued(r.pending), c);
    InFlightRequeued(r.pending, c);
    DoneConcat(s.notified, Notices(r.waitChs, reason), c);
    DoneNotices(r.waitChs, reason, c);
  }

  lemma DeletePlaces(s: State, id: ModelId, c: WaitCh)
    requires id in s.runtimes
    ensures Places(DeleteRuntime(s, id), c) == Places(s, c)
  {
    HeldSplit(s.runtimes, id, c);
    SettledPlaces(s, s.runtimes[id], ERR_DELETED, c);
  }

  // ---------------------------------------------------------------------------------------------
  // Every handler moves the channel of its event somewhere, and loses none.

  lemma PullPlaces(s: State, p: Pull, a: Answers, s': State, c: WaitCh)
    requires HandlePull(s, p, a) == Next(s')
    ensures Places(s', c) == Places(s, c) + OfEvent(PullModel(p), c)
  {
    if p.model in s.runtimes {
      var r := s.runtimes[p.model];
      if r.ready || r.lastErr != "" {
        if p.ch.Some? {
          assert s'.notified[..|s.notified|] == s.notified;
        }
      } else {
        WaitingPlaces(r, p, c);
        PutPlaces(s, p.model, Waiting(r, p.ch), c);
      }
    } else if !a.dynamicLoRA {
      var r := NewPendingRuntime(a.nameOf(p.model));
      WaitingPlaces(r, p, c);
      PutPlaces(s, p.model, Waiting(r, p.ch), c);
      EmitPlaces(Put(s, p.model, Waiting(r, p.ch)), ReconcileStatefulSet(a.nameOf(p.model)), c);
    } else {
      AdapterPullPlaces(s, p, a, s', c);
    }
  }

  lemma AdapterPullPlaces(s: State, p: Pull, a: Answers, s': State, c: WaitCh)
    requires p.model !in s.runtimes && a.dynamicLoRA && HandlePull(s, p, a) == Next(s')
    ensures Places(s', c) == Places(s, c) + OfEvent(PullModel(p), c)
  {
    var name := a.nameOf(a.baseModel);
    var s1 := if a.baseModel in s.runtimes then s
              else Emit(Put(s, a.baseModel, NewPendingRuntime(name)), ReconcileStatefulSet(name));
    if a.baseModel !in s.runtimes {
      PutPlaces(s, a.baseModel, NewPendingRuntime(name), c);
      EmitPlaces(Put(s, a.baseModel, NewPendingRuntime(name)), ReconcileStatefulSet(name), c);
    }
    assert Places(s1, c) == Places(s, c);
    var br := s1.runtimes[a.baseModel];
    if !br.ready {
      PendingSnoc(br.pending, p, c);
      PutPlaces(s1, a.baseModel, br.(pending := br.pending + [p]), c);
    } else {
      var r := NewPendingRuntime(a.nameOf(p.model)).(lora := true);
      WaitingPlaces(r, p, c);
      PutPlaces(s1, p.model, Waiting(r, p.ch), c);
      EmitPlaces(Put(s1, p.model, Waiting(r, p.ch)), PullStatusCheck(p.model, a.address, false), c);
    }
  }

  lemma ReconcilePlaces(s: State, name: string, named: Option<ModelId>, a: Answers, s': State, c: WaitCh)
    requires named.Some? ==> named.value in s.runtimes
    requires HandleReconcile(s, name, named, a) == Next(s')
    ensures Places(s', c) == Places(s, c)
  {
    if !a.found {
      if named.Some? {
        DeletePlaces(s, named.value, c);
      }
    } else {
      var id := a.annotatedModel;
      var r := if id in s.runtimes then s.runtimes[id] else NewPendingRuntime(name);
      var s1 := Put(s, id, r);
      PutPlaces(s, id, r, c);
      assert Places(s1, c) == Places(s, c);
      if r.ready {
        PutPlaces(s1, id, r.(ready := false), c);
      } else if a.readyReplicas > 0 {
        EmitPlaces(s1, ReadinessCheck(id, a.address, 0), c);
      } else if a.unschedulable {
        var (r', notices) := Closed(r, ERR_UNSCHEDULABLE).value;
        ClosedPlaces(r, ERR_UNSCHEDULABLE, c);
        PutPlaces(s1, id, r', c);
        NotifyPlaces(s1, id, r', notices, c);
      }
    }
  }

  lemma ReadinessPlaces(s: State, id: ModelId, address: Address, retryCount: nat, a: Answers, s': State, c: WaitCh)
    requires HandleReadiness(s, id, address, retryCount, a) == Next(s')
    ensures Places(s', c) == Places(s, c)
  {
    if id in s.runtimes {
      var r := s.runtimes[id];
      if a.reachable {
        var r' := BecomeReady(r, address).(waitChs := [], pending := [], lastErr := "");
        PutPlaces(s, id, r', c);
        SettledPlaces(s, r, "", c);
      } else if retryCount < READINESS_CHECK_MAX_RETRY_COUNT {
        EmitPlaces(s, ReadinessCheck(id, address, retryCount + 1), c);
      } else {
        var (r', notices) := Closed(r, ERR_UNREACHABLE).value;
        ClosedPlaces(r, ERR_UNREACHABLE, c);
        PutPlaces(s, id, r', c);
        NotifyPlaces(s, id, r', notices, c);
        EmitPlaces(Put(s, id, r').(notified := s.notified + notices), DeleteModel(id), c);
      }
    }
  }

  lemma {:induction false} AddPlaces(s: State, ids: seq<ModelId>, a: Answers, c: WaitCh)
    ensures Places(AddAdapters(s, ids, a).0, c) == Places(s, c)
  {
    if ids != [] {
      AddPlaces(s, ids[..|ids| - 1], a, c);
      var s', id := AddAdapters(s, ids[..|ids| - 1], a).0, ids[|ids| - 1];
      if id !in s'.runtimes {
        PutPlaces(s', id, BecomeReady(NewPendingRuntime(a.nameOf(id)).(lora := true), a.addressOf(id)), c);
      } else {
        var r := s'.runtimes[id];
        if r.addrs.Some? {
          PutPlaces(s', id, r.(addrs := Some(r.addrs.value + {a.addressOf(id)})), c);
        }
      }
    }
  }

  lemma {:induction false} RemovePlaces(s: State, ids: seq<ModelId>, a: Answers, c: WaitCh)
    requires RemoveAdapters(s, ids, a).Some?
    ensures Places(RemoveAdapters(s, ids, a).value, c) == Places(s, c)
  {
    if ids != [] {
      RemovePlaces(s, ids[..|ids| - 1], a, c);
      var s', id := RemoveAdapters(s, ids[..|ids| - 1], a).value, ids[|ids| - 1];
      if id in s'.runtimes {
        var r := s'.runtimes[id];
        var r' := r.(addrs := Some(r.addrs.value - {a.addressOf(id)}));
        PutPlaces(s', id, r', c);
        DeletePlaces(Put(s', id, r'), id, c);
      }
    }
  }

  lemma HandlerPlaces(s: State, e: Event, named: Option<ModelId>, a: Answers, s': State, c: WaitCh)
    requires named.Some? ==> named.value in s.runtimes
    requires HandleEvent(s, e, named, a) == Next(s')
    ensures Places(s', c) == Places(s, c) + OfEvent(e, c)
  {
    match e
    case PullModel(p) => PullPlaces(s, p, a, s', c);
    case DeleteModel(id) =>
      if id in s.runtimes {
        DeletePlaces(s, id, c);
      }
    case UpdateModel(_) =>
    case ReconcileStatefulSet(name) => ReconcilePlaces(s, name, named, a, s', c);
    case ReadinessCheck(id, address, retryCount) => ReadinessPlaces(s, id, address, retryCount, a, s', c);
    case PullStatusCheck(id, address, _) =>
      EmitPlaces(s, e, c);
      EmitPlaces(s, ReadinessCheck(id, address, 0), c);
    case StatusUpdate(podIP, added, removed) =>
      var (s1, retry) := AddAdapters(s, added, a);
      AddPlaces(s, added, a, c);
      RemovePlaces(s1, removed, a, c);
      EmitPlaces(RemoveAdapters(s1, removed, a).value, StatusUpdate(podIP, retry, []), c);
    case LoadAdapter(id, address) => EmitPlaces(s, PullStatusCheck(id, address, true), c);
  }

  /** How often a wait channel has arrived with a pull. */
  function Arrived(steps: seq<Step>, c: WaitCh): nat {
    if steps == [] then 0
    else
      var last := steps[|steps| - 1];
      Arrived(steps[..|steps| - 1], c) + (if last.Arrive? then OfEvent(last.event, c) else 0)
  }

  lemma StepPlaces(s: State, step: Step, s': State, c: WaitCh)
    requires Steps(s, step, s')
    ensures Places(s', c) == Places(s, c) + (if step.Arrive? then OfEvent(step.event, c) else 0)
    ensures Places(s', c) <= 1 || Places(s', c) == Places(s, c)
  {
    match step
    case Arrive(e) => EmitPlaces(s, e, c);
    case Handle(i, named, a) =>
      InFlightTake(s.inflight, i, c);
      HandlerPlaces(s.(inflight := Without(s.inflight, i)), s.inflight[i], named, a, s', c);
  }

  /** In every run a wait channel that has arrived is in exactly one place: it is not lost, not with two
      runtimes, not closed twice. One that has not arrived is nowhere. */
  lemma {:induction false} WaitChsAreConserved(states: seq<State>, steps: seq<Step>, c: WaitCh)
    requires Run(states, steps)
    ensures Places(states[|steps|], c) == Arrived(steps, c) <= 1
  {
    var n := |steps|;
    if n > 0 {
      assert Run(states[..n], steps[..n - 1]);
      WaitChsAreConserved(states[..n], steps[..n - 1], c);
      assert Steps(states[n - 1], steps[n - 1], states[n]);
      StepPlaces(states[n - 1], steps[n - 1], states[n], c);
    }
  }

  // ---------------------------------------------------------------------------------------------
  // Ready runtimes.

  /** A ready runtime has addresses and nobody waits for it; a runtime does not outlive its last address. */
  predicate Sound(r: Runtime) {
    && (r.ready ==> r.waitChs == [] && r.pending == [] && r.addrs.Some?)
    && (r.addrs.Some? ==> r.addrs.value != {})
  }

  ghost predicate AllSound(s: State) {
    forall id :: id in s.runtimes ==> Sound(s.runtimes[id])
  }

  /** No ready runtime carries the reason of a failure. */
  ghost predicate Clean(s: State) {
    forall id :: id in s.runtimes && s.runtimes[id].ready ==> s.runtimes[id].lastErr == ""
  }

  /** A readiness check fails for the last time after another one made the runtime ready. */
  predicate StaleFailure(s: State, e: Event, a: Answers) {
    && e.ReadinessCheck? && e.model in s.runtimes && s.runtimes[e.model].ready
    && !a.reachable && e.retryCount >= READINESS_CHECK_MAX_RETRY_COUNT
  }

  lemma {:induction false} AddKeeps(s: State, ids: seq<ModelId>, a: Answers)
    requires AllSound(s)
    ensures AllSound(AddAdapters(s, ids, a).0)
    ensures Clean(s) ==> Clean(AddAdapters(s, ids, a).0)
  {
    if ids != [] {
      AddKeeps(s, ids[..|ids| - 1], a);
    }
  }

  lemma {:induction false} RemoveKeeps(s: State, ids: seq<ModelId>, a: Answers)
    requires AllSound(s) && RemoveAdapters(s, ids, a).Some?
    ensures AllSound(RemoveAdapters(s, ids, a).value)
    ensures Clean(s) ==> Clean(RemoveAdapters(s, ids, a).value)
  {
    if ids != [] {
      RemoveKeeps(s, ids[..|ids| - 1], a);
    }
  }

  lemma HandlerKeepsSound(s: State, e: Event, named: Option<ModelId>, a: Answers, s': State)
    requires named.Some? ==> named.value in s.runtimes
    requires AllSound(s) && HandleEvent(s, e, named, a) == Next(s')
    ensures AllSound(s')
  {
    if e.StatusUpdate? {
      AddKeeps(s, e.added, a);
      RemoveKeeps(AddAdapters(s, e.added, a).0, e.removed, a);
    }
  }

  /** A step keeps ready runtimes free of errors if and only if it is not a stale readiness failure. */
  lemma CleanIff(s: State, e: Event, named: Option<ModelId>, a: Answers, s': State)
    requires named.Some? ==> named.value in s.runtimes
    requires AllSound(s) && Clean(s) && HandleEvent(s, e, named, a) == Next(s')
    ensures Clean(s') <==> !StaleFailure(s, e, a)
  {
    if e.StatusUpdate? {
      AddKeeps(s, e.added, a);
      RemoveKeeps(AddAdapters(s, e.added, a).0, e.removed, a);
    } else if StaleFailure(s, e, a) {
      assert s'.runtimes[e.model].ready && s'.runtimes[e.model].lastErr == ERR_UNREACHABLE;
    }
  }

  lemma {:induction false} RunKeepsSound(states: seq<State>, steps: seq<Step>, n: nat)
    requires Run(states, steps) && n <= |steps|
    ensures AllSound(states[n])
  {
    if n > 0 {
      RunKeepsSound(states, steps, n - 1);
      assert Steps(states[n - 1], steps[n - 1], states[n]);
      if steps[n - 1].Handle? {
        var i := steps[n - 1].i;
        HandlerKeepsSound(states[n - 1].(inflight := Without(states[n - 1].inflight, i)), states[n - 1].inflight[i],
                          steps[n - 1].named, steps[n - 1].answers, states[n]);
      }
    }
  }

  ghost predicate StaleAt(states: seq<State>, steps: seq<Step>, k: nat)
    requires |states| == |steps| + 1
  {
    && k < |steps| && steps[k].Handle? && steps[k].i < |states[k].inflight|
    && StaleFailure(states[k], states[k].inflight[steps[k].i], steps[k].answers)
  }

  /** Along a run, ready runtimes are free of errors in every state if and only if no readiness check ever
      fails for the last time on a runtime that is already ready. */
  lemma {:induction false} RunCleanIff(states: seq<State>, steps: seq<Step>, n: nat)
    requires Run(states, steps) && n <= |steps|
    ensures (forall k :: 0 <= k <= n ==> Clean(states[k])) <==> (forall k :: 0 <= k < n ==> !StaleAt(states, steps, k))
  {
    if n > 0 {
      RunCleanIff(states, steps, n - 1);
      RunKeepsSound(states, steps, n - 1);
      var s, step := states[n - 1], steps[n - 1];
      assert Steps(s, step, states[n]);
      if step.Handle? && Clean(s) {
        CleanIff(s.(inflight := Without(s.inflight, step.i)), s.inflight[step.i], step.named, step.answers, states[n]);
        assert Clean(states[n]) <==> !StaleAt(states, steps, n - 1);
      } else {
        assert Clean(s) ==> Clean(states[n]);
      }
    }
  }

  // ---------------------------------------------------------------------------------------------
  // A run that leaves an error on a ready runtime.

  const NOTHING := Answers(false, (_: ModelId) => "sts", (_: ModelId) => "ip", false, "", true, "m", 1, 1, false, "ip",
                           false, true, None, false, false)

  lemma Extend(states: seq<State>, steps: seq<Step>, step: Step, s': State)
    requires Run(states, steps) && Steps(states[|steps|], step, s')
    ensures Run(states + [s'], steps + [step])
  {
    forall i | 0 <= i < |steps| + 1 ensures Steps((states + [s'])[i], (steps + [step])[i], (states + [s'])[i + 1]) {
      if i < |steps| {
        assert Steps(states[i], steps[i], states[i + 1]);
      }
    }
  }

  ghost predicate Reachable(s: State) {
    exists states, steps :: Run(states, steps) && states[|steps|] == s
  }

  lemma Reach(s: State, step: Step, s': State)
    requires Reachable(s) && Steps(s, step, s')
    ensures Reachable(s')
  {
    var states, steps :| Run(states, steps) && states[|steps|] == s;
    Extend(states, steps, step, s');
    assert (states + [s'])[|steps + [step]|] == s';
  }

  /** The stateful set changes twice before the first change is handled. */
  lemma TwoChanges()
    ensures Reachable(State(map[], [ReconcileStatefulSet("sts"), ReconcileStatefulSet("sts")], []))
  {
    var e := ReconcileStatefulSet("sts");
    var none: seq<Step> := [];
    assert Run([INIT], none) && [INIT][|none|] == INIT;
    Reach(INIT, Arrive(e), State(map[], [e], []));
    Reach(State(map[], [e], []), Arrive(e), State(map[], [e, e], []));
  }

  lemma FirstCheck()
    ensures Reachable(State(map["m" := NewPendingRuntime("sts")], [ReconcileStatefulSet("sts"), ReadinessCheck("m", "ip", 0)], []))
  {
    var e, check := ReconcileStatefulSet("sts"), ReadinessCheck("m", "ip", 0);
    TwoChanges();
    var s2, s3 := State(map[], [e, e], []), State(map["m" := NewPendingRuntime("sts")], [e, check], []);
    assert Without(s2.inflight, 0) == [e] && Named(s2, "sts", None);
    assert HandleReconcile(s2.(inflight := [e]), "sts", None, NOTHING) == Next(s3);
    Reach(s2, Handle(0, None, NOTHING), s3);
  }

  /** Each change starts a readiness check of the same runtime. */
  lemma TwoChecks()
    ensures Reachable(State(map["m" := NewPendingRuntime("sts")], [ReadinessCheck("m", "ip", 0), ReadinessCheck("m", "ip", 0)], []))
  {
    var e, check, rs := ReconcileStatefulSet("sts"), ReadinessCheck("m", "ip", 0), map["m" := NewPendingRuntime("sts")];
    FirstCheck();
    var s3, s4 := State(rs, [e, check], []), State(rs, [check, check], []);
    assert Without(s3.inflight, 0) == [check] && Named(s3, "sts", Some("m"));
    assert rs["m" := rs["m"]] == rs;
    assert HandleReconcile(s3.(inflight := [check]), "sts", Some("m"), NOTHING) == Next(s4);
    Reach(s3, Handle(0, Some("m"), NOTHING), s4);
  }

  /** The first check succeeds, the second is still to come. */
  lemma ReadyAndChecked()
    ensures Reachable(State(map["m" := BecomeReady(NewPendingRuntime("sts"), "ip")], [ReadinessCheck("m", "ip", 0)], []))
  {
    var check, r := ReadinessCheck("m", "ip", 0), NewPendingRuntime("sts");
    TwoChecks();
    var s := State(map["m" := r], [check, check], []);
    assert Without(s.inflight, 0) == [check];
    assert Requeued([]) == [] && Notices([], "") == [];
    Reach(s, Handle(0, None, NOTHING.(reachable := true)), State(map["m" := BecomeReady(r, "ip")], [check], []));
  }

  lemma {:induction false} Retried(s: State, n: nat)
    requires n <= READINESS_CHECK_MAX_RETRY_COUNT && "m" in s.runtimes
    requires Reachable(s.(inflight := [ReadinessCheck("m", "ip", 0)]))
    ensures Reachable(s.(inflight := [ReadinessCheck("m", "ip", n)]))
  {
    if n > 0 {
      Retried(s, n - 1);
      var before := s.(inflight := [ReadinessCheck("m", "ip", n - 1)]);
      assert Without(before.inflight, 0) == [];
      Reach(before, Handle(0, None, NOTHING), s.(inflight := [ReadinessCheck("m", "ip", n)]));
    }
  }

  /** Ready does not imply free of errors. */
  lemma ReadyWithAnError()
    ensures exists s :: Reachable(s) && !Clean(s)
  {
    ReadyAndChecked();
    var r := BecomeReady(NewPendingRuntime("sts"), "ip");
    var s := State(map["m" := r], [ReadinessCheck("m", "ip", 0)], []);
    Retried(s, READINESS_CHECK_MAX_RETRY_COUNT);
    var last := s.(inflight := [ReadinessCheck("m", "ip", READINESS_CHECK_MAX_RETRY_COUNT)]);
    assert Without(last.inflight, 0) == [];
    var r' := r.(lastErr := ERR_UNREACHABLE);
    assert Notices([] + ChsOf([]), ERR_UNREACHABLE) == [];
    assert Closed(r, ERR_UNREACHABLE) == Some((r', []));
    var end := State(map["m" := r'], [DeleteModel("m")], []);
    Reach(last, Handle(0, None, NOTHING), end);
    assert end.runtimes["m"].ready;
  }

  // ---------------------------------------------------------------------------------------------
  // Closing a pending pull nobody waits for is a crash.

  /** Every pull that is pending or on its way has a caller that waits. */
  ghost predicate AllPullsWait(s: State) {
    && (forall id :: id in s.runtimes ==> AllWait(s.runtimes[id].pending))
    && (forall i :: 0 <= i < |s.inflight| ==> EventWaits(s.inflight[i]))
  }

  predicate EventWaits(e: Event) {
    e.PullModel? ==> e.pull.ch.Some?
  }

  lemma {:induction false} AddAdaptersWait(s: State, ids: seq<ModelId>, a: Answers)
    requires AllPullsWait(s)
    ensures AllPullsWait(AddAdapters(s, ids, a).0)
  {
    if ids != [] {
      AddAdaptersWait(s, ids[..|ids| - 1], a);
    }
  }

  lemma {:induction false} RemoveAdaptersWait(s: State, ids: seq<ModelId>, a: Answers)
    requires AllPullsWait(s) && RemoveAdapters(s, ids, a).Some?
    ensures AllPullsWait(RemoveAdapters(s, ids, a).value)
  {
    if ids != [] {
      RemoveAdaptersWait(s, ids[..|ids| - 1], a);
    }
  }

  lemma PullKeepsWaiting(s: State, p: Pull, a: Answers, s': State)
    requires AllPullsWait(s) && p.ch.Some? && HandlePull(s, p, a) == Next(s')
    ensures AllPullsWait(s')
  {
    forall id | id in s'.runtimes ensures AllWait(s'.runtimes[id].pending) {
      if id in s.runtimes {
        assert s'.runtimes[id].pending == s.runtimes[id].pending || s'.runtimes[id].pending == s.runtimes[id].pending + [p];
      }
    }
    forall i | 0 <= i < |s'.inflight| ensures EventWaits(s'.inflight[i]) {
      if i < |s.inflight| {
        assert s'.inflight[i] == s.inflight[i];
      }
    }
  }

  lemma HandlerKeepsWaiting(s: State, e: Event, named: Option<ModelId>, a: Answers)
    requires named.Some? ==> named.value in s.runtimes
    requires AllPullsWait(s) && EventWaits(e)
    ensures HandleEvent(s, e, named, a).Next? ==> AllPullsWait(HandleEvent(s, e, named, a).state)
    ensures HandleEvent(s, e, named, a).Crashed? ==> e.StatusUpdate?
  {
    match e
    case PullModel(p) =>
      if !a.failed {
        PullKeepsWaiting(s, p, a, HandlePull(s, p, a).state);
      }
    case DeleteModel(_) =>
    case UpdateModel(_) =>
    case ReconcileStatefulSet(name) => ReconcileKeepsWaiting(s, name, named, a);
    case ReadinessCheck(id, address, retryCount) => ReadinessKeepsWaiting(s, id, address, retryCount, a);
    case PullStatusCheck(_, _, _) =>
    case StatusUpdate(_, added, removed) =>
      AddAdaptersWait(s, added, a);
      if RemoveAdapters(AddAdapters(s, added, a).0, removed, a).Some? {
        RemoveAdaptersWait(AddAdapters(s, added, a).0, removed, a);
      }
    case LoadAdapter(_, _) =>
  }

  lemma ReconcileKeepsWaiting(s: State, name: string, named: Option<ModelId>, a: Answers)
    requires named.Some? ==> named.value in s.runtimes
    requires AllPullsWait(s)
    ensures var o := HandleReconcile(s, name, named, a); !o.Crashed? && (o.Next? ==> AllPullsWait(o.state))
  {
  }

  lemma ReadinessKeepsWaiting(s: State, id: ModelId, address: Address, retryCount: nat, a: Answers)
    requires AllPullsWait(s)
    ensures var o := HandleReadiness(s, id, address, retryCount, a); !o.Crashed? && (o.Next? ==> AllPullsWait(o.state))
  {
  }

  // ---------------------------------------------------------------------------------------------
  // Removing an adapter from a runtime that never had addresses is a crash.

  predicate NoAddressSet(s: State, id: ModelId) {
    id in s.runtimes && s.runtimes[id].addrs.None?
  }

  lemma {:induction false} AddKeepsNoAddressSet(s: State, ids: seq<ModelId>, a: Answers)
    ensures forall id :: NoAddressSet(AddAdapters(s, ids, a).0, id) <==> NoAddressSet(s, id)
  {
    if ids != [] {
      AddKeepsNoAddressSet(s, ids[..|ids| - 1], a);
    }
  }

  lemma {:induction false} RemoveCrashIff(s: State, ids: seq<ModelId>, a: Answers)
    ensures RemoveAdapters(s, ids, a).None? <==> exists i :: 0 <= i < |ids| && NoAddressSet(s, ids[i])
    ensures RemoveAdapters(s, ids, a).Some? ==> forall id :: NoAddressSet(RemoveAdapters(s, ids, a).value, id) <==> NoAddressSet(s, id)
  {
    if ids != [] {
      var init := ids[..|ids| - 1];
      RemoveCrashIff(s, init, a);
      if exists i :: 0 <= i < |init| && NoAddressSet(s, init[i]) {
        var i :| 0 <= i < |init| && NoAddressSet(s, init[i]);
        assert NoAddressSet(s, ids[i]);
      } else {
        assert forall i :: 0 <= i < |init| ==> init[i] == ids[i];
      }
    }
  }

  /** A removed adapter whose runtime is there but has not become ready yet. */
  ghost predicate RemovesTooEarly(s: State, e: Event, a: Answers) {
    && e.StatusUpdate? && !a.failed && e.podIP != ""
    && exists i :: 0 <= i < |e.removed| && NoAddressSet(s, e.removed[i])
  }

  lemma StatusUpdateCrashIff(s: State, e: Event, a: Answers)
    requires e.StatusUpdate?
    ensures HandleStatusUpdate(s, e, a).Crashed? <==> RemovesTooEarly(s, e, a)
  {
    AddKeepsNoAddressSet(s, e.added, a);
    RemoveCrashIff(AddAdapters(s, e.added, a).0, e.removed, a);
  }

  /** As long as every pull has a caller that waits, no handler closes a channel that does not exist: the
      loop crashes if and only if an adapter is removed from a runtime that never had addresses. */
  lemma {:induction false} RunKeepsWaiting(states: seq<State>, steps: seq<Step>, n: nat)
    requires Run(states, steps) && n <= |steps|
    requires forall k :: 0 <= k < |steps| && steps[k].Arrive? ==> EventWaits(steps[k].event)
    ensures AllPullsWait(states[n])
    ensures forall i, named: Option<ModelId>, a: Answers ::
        0 <= i < |states[n].inflight| && (named.Some? ==> named.value in states[n].runtimes) ==>
        (HandleEvent(states[n].(inflight := Without(states[n].inflight, i)), states[n].inflight[i], named, a).Crashed?
         <==> RemovesTooEarly(states[n], states[n].inflight[i], a))
  {
    var s := states[n];
    if n > 0 {
      RunKeepsWaiting(states, steps, n - 1);
      var before, step := states[n - 1], steps[n - 1];
      assert Steps(before, step, s);
      if step.Handle? {
        HandlerKeepsWaiting(before.(inflight := Without(before.inflight, step.i)), before.inflight[step.i], step.named, step.answers);
      }
    }
    forall i, named: Option<ModelId>, a: Answers | 0 <= i < |s.inflight| && (named.Some? ==> named.value in s.runtimes)
      ensures HandleEvent(s.(inflight := Without(s.inflight, i)), s.inflight[i], named, a).Crashed?
              <==> RemovesTooEarly(s, s.inflight[i], a)
    {
      CrashIff(s, i, named, a);
    }
  }

  lemma CrashIff(s: State, i: nat, named: Option<ModelId>, a: Answers)
    requires AllPullsWait(s) && i < |s.inflight| && (named.Some? ==> named.value in s.runtimes)
    ensures HandleEvent(s.(inflight := Without(s.inflight, i)), s.inflight[i], named, a).Crashed?
            <==> RemovesTooEarly(s, s.inflight[i], a)
  {
    var rest := s.(inflight := Without(s.inflight, i));
    assert EventWaits(s.inflight[i]);
    HandlerKeepsWaiting(rest, s.inflight[i], named, a);
    if s.inflight[i].StatusUpdate? {
      StatusUpdateCrashIff(rest, s.inflight[i], a);
      assert forall id :: NoAddressSet(rest, id) <==> NoAddressSet(s, id);
    }
  }

  // ---------------------------------------------------------------------------------------------
  // A failed status check that nobody awaits blocks the loop.

  /** The loop blocks if and only if a status check goes wrong and nobody waits for its outcome: no check that
      a pull started is awaited, and a caller that awaits one can give up. */
  lemma BlocksIff(s: State, e: Event, named: Option<ModelId>, a: Answers)
    requires named.Some? ==> named.value in s.runtimes
    ensures HandleEvent(s, e, named, a).Blocked? <==>
              e.PullStatusCheck? && !a.failed && (!a.targetExists || a.pulled.None?) && (!e.awaited || a.gaveUp)
  {
  }

  const READY := State(map["base" := BecomeReady(NewPendingRuntime("sts").(lora := true), "ip")], [], [])

  lemma BaseReady()
    ensures Reachable(READY)
  {
    var none: seq<Step> := [];
    assert Run([INIT], none) && [INIT][|none|] == INIT;
    var update := StatusUpdate("pod", ["base"], []);
    var s1 := State(map[], [update], []);
    Reach(INIT, Arrive(update), s1);
    assert Without(s1.inflight, 0) == [];
    assert ["base"][..0] == [] && AddAdapters(INIT, [], NOTHING) == (INIT, []);
    assert AddAdapters(INIT, ["base"], NOTHING) == (READY, []);
    assert RemoveAdapters(READY, [], NOTHING) == Some(READY);
    Reach(s1, Handle(0, None, NOTHING), READY);
  }

  /** The status check of an adapter that a pull started, when the pod is gone. */
  lemma PullBlocksTheLoop()
    ensures exists s, a :: Reachable(s) && |s.inflight| == 1 && HandleEvent(s.(inflight := []), s.inflight[0], None, a) == Blocked
  {
    BaseReady();
    var pull := Pull("adapter", None);
    var s1 := READY.(inflight := [PullModel(pull)]);
    Reach(READY, Arrive(PullModel(pull)), s1);
    var a := NOTHING.(dynamicLoRA := true, baseModel := "base");
    assert Without(s1.inflight, 0) == [];
    var s2 := HandlePull(READY, pull, a).state;
    Reach(s1, Handle(0, None, a), s2);
    assert s2.inflight == [PullStatusCheck("adapter", "ip", false)];
    assert HandleEvent(s2.(inflight := []), s2.inflight[0], None, NOTHING.(targetExists := false)) == Blocked;
  }
}
