/**
 What a reader of the reconciler's updates ends up with. The updates of commits are sent in order, those
 of deletions in any order, and the two interleave freely; so what is delivered depends on who is faster.
 */
module LoraSending {
  import opened Common
  import opened Lora

  // ---------------------------------------------------------------------------------------------
  // Replaying from a given set.

  function ReplayFrom(x: set<Adapter>, us: seq<Update>, pod: PodName): set<Adapter> {
    if us == [] then x
    else
      var last, before := us[|us| - 1], ReplayFrom(x, us[..|us| - 1], pod);
      if last.pod == pod then before + last.added - last.removed else before
  }

  lemma {:induction false} ReplayConcat(a: seq<Update>, b: seq<Update>, pod: PodName)
    ensures Replay(a + b, pod) == ReplayFrom(Replay(a, pod), b, pod)
  {
    if b == [] {
      assert a + b == a;
    } else {
      ReplayConcat(a, b[..|b| - 1], pod);
      assert a + b == (a + b[..|b| - 1]) + [b[|b| - 1]];
      ReplayOne(a + b[..|b| - 1], b[|b| - 1], pod);
    }
  }

  lemma {:induction false} ReplayMonotone(x: set<Adapter>, y: set<Adapter>, us: seq<Update>, pod: PodName)
    requires x <= y
    ensures ReplayFrom(x, us, pod) <= ReplayFrom(y, us, pod)
  {
    if us != [] {
      ReplayMonotone(x, y, us[..|us| - 1], pod);
    }
  }

  /** Nothing comes from elsewhere than the given set and the updates themselves. */
  lemma {:induction false} ReplayBounded(x: set<Adapter>, us: seq<Update>, pod: PodName)
    ensures ReplayFrom(x, us, pod) <= x + ReplayFrom({}, us, pod)
  {
    if us != [] {
      ReplayBounded(x, us[..|us| - 1], pod);
    }
  }

  lemma {:induction false} ReplayIsFromEmpty(us: seq<Update>, pod: PodName)
    ensures Replay(us, pod) == ReplayFrom({}, us, pod)
  {
    if us != [] {
      ReplayIsFromEmpty(us[..|us| - 1], pod);
    }
  }

  /** Deletions only remove. */
  predicate RemovalsOnly(us: seq<Update>) {
    forall i :: 0 <= i < |us| ==> us[i].added == {}
  }

  function RemovedBy(us: seq<Update>, pod: PodName): set<Adapter> {
    if us == [] then {}
    else RemovedBy(us[..|us| - 1], pod) + (if us[|us| - 1].pod == pod then us[|us| - 1].removed else {})
  }

  lemma {:induction false} ReplayRemovals(x: set<Adapter>, us: seq<Update>, pod: PodName)
    requires RemovalsOnly(us)
    ensures ReplayFrom(x, us, pod) == x - RemovedBy(us, pod)
  {
    if us != [] {
      ReplayRemovals(x, us[..|us| - 1], pod);
    }
  }

  lemma {:induction false} RemovedByConcat(a: seq<Update>, b: seq<Update>, pod: PodName)
    ensures RemovedBy(a + b, pod) == RemovedBy(a, pod) + RemovedBy(b, pod)
  {
    if b == [] {
      assert a + b == a;
    } else {
      RemovedByConcat(a, b[..|b| - 1], pod);
      assert (a + b)[..|a + b| - 1] == a + b[..|b| - 1];
    }
  }

  lemma OneRemoval(u: Update, pod: PodName)
    ensures RemovedBy([u], pod) == if u.pod == pod then u.removed else {}
  {
    assert RemovedBy([u][..0], pod) == {};
  }

  // ---------------------------------------------------------------------------------------------
  // The two extreme orders.

  /** What a reader ends up with if all deletions are sent first ... */
  function DeletesFirst(s: State, pod: PodName): set<Adapter> {
    ReplayFrom(Replay(s.delivered, pod) - RemovedBy(s.fromDeletes, pod), s.fromRun, pod)
  }

  /** ... and if they are sent last. */
  function DeletesLast(s: State, pod: PodName): set<Adapter> {
    ReplayFrom(Replay(s.delivered, pod), s.fromRun, pod) - RemovedBy(s.fromDeletes, pod)
  }

  lemma RunMovesOn(x: set<Adapter>, u: Update, removed: set<Adapter>, rest: seq<Update>, pod: PodName)
    ensures var y := if u.pod == pod then x + u.added - u.removed else x;
            && ReplayFrom(x, [u] + rest, pod) == ReplayFrom(y, rest, pod)
            && ReplayFrom(y - removed, rest, pod) <= ReplayFrom(x - removed, [u] + rest, pod)
  {
    FirstUpdate(x, u, rest, pod);
    FirstUpdate(x - removed, u, rest, pod);
    var y := if u.pod == pod then x + u.added - u.removed else x;
    ReplayMonotone(y - removed, if u.pod == pod then (x - removed) + u.added - u.removed else x - removed, rest, pod);
  }

  lemma {:induction false} FirstUpdate(x: set<Adapter>, u: Update, rest: seq<Update>, pod: PodName)
    ensures ReplayFrom(x, [u] + rest, pod) == ReplayFrom(if u.pod == pod then x + u.added - u.removed else x, rest, pod)
  {
    if rest == [] {
      assert [u] + rest == [u] && [u][..0] == [];
    } else {
      FirstUpdate(x, u, rest[..|rest| - 1], pod);
      assert ([u] + rest)[..|rest|] == [u] + rest[..|rest| - 1];
    }
  }

  predicate Sending(step: Step) {
    step.SendFromRun? || step.SendFromDelete?
  }

  /** Each update that is sent narrows what is still possible. */
  lemma SendNarrows(s: State, step: Step, s': State, pod: PodName)
    requires RemovalsOnly(s.fromDeletes) && Sending(step) && Steps(s, step, s')
    ensures RemovalsOnly(s'.fromDeletes) && Stored(s', pod) == Stored(s, pod)
    ensures DeletesLast(s, pod) <= DeletesLast(s', pod) && DeletesFirst(s', pod) <= DeletesFirst(s, pod)
  {
    if step.SendFromRun? {
      var u, rest := s.fromRun[0], s.fromRun[1..];
      assert s.fromRun == [u] + rest;
      ReplayOne(s.delivered, u, pod);
      RunMovesOn(Replay(s.delivered, pod), u, RemovedBy(s.fromDeletes, pod), rest, pod);
    } else {
      DeleteMovesOn(s, step.i, pod);
    }
  }

  lemma DeleteMovesOn(s: State, i: nat, pod: PodName)
    requires RemovalsOnly(s.fromDeletes) && i < |s.fromDeletes|
    ensures var s' := s.(fromDeletes := s.fromDeletes[..i] + s.fromDeletes[i + 1..], delivered := s.delivered + [s.fromDeletes[i]]);
            DeletesFirst(s', pod) == DeletesFirst(s, pod) && DeletesLast(s, pod) <= DeletesLast(s', pod)
  {
    var v, x := s.fromDeletes[i], Replay(s.delivered, pod);
    RemovedByTake(s.fromDeletes, i, pod);
    ReplayOne(s.delivered, v, pod);
    assert v.added == {};
    assert Replay(s.delivered + [v], pod) == x - (if v.pod == pod then v.removed else {});
    OneRemovalSooner(x, if v.pod == pod then v.removed else {},
                     RemovedBy(s.fromDeletes[..i] + s.fromDeletes[i + 1..], pod), s.fromRun, pod);
  }

  lemma RemovedByTake(us: seq<Update>, i: nat, pod: PodName)
    requires i < |us|
    ensures RemovedBy(us, pod) == (if us[i].pod == pod then us[i].removed else {}) + RemovedBy(us[..i] + us[i + 1..], pod)
  {
    assert us == us[..i] + ([us[i]] + us[i + 1..]);
    RemovedByConcat(us[..i], [us[i]] + us[i + 1..], pod);
    RemovedByConcat([us[i]], us[i + 1..], pod);
    RemovedByConcat(us[..i], us[i + 1..], pod);
    OneRemoval(us[i], pod);
  }

  lemma OneRemovalSooner(x: set<Adapter>, gone: set<Adapter>, rest: set<Adapter>, us: seq<Update>, pod: PodName)
    ensures (x - gone) - rest == x - (gone + rest)
    ensures ReplayFrom(x, us, pod) - (gone + rest) <= ReplayFrom(x - gone, us, pod) - rest
  {
    RemovedEarlier(x, gone, us, pod);
  }

  /** Removing before other updates leaves at least as much as removing after them. */
  lemma {:induction false} RemovedEarlier(x: set<Adapter>, gone: set<Adapter>, us: seq<Update>, pod: PodName)
    ensures ReplayFrom(x, us, pod) - gone <= ReplayFrom(x - gone, us, pod)
  {
    if us != [] {
      RemovedEarlier(x, gone, us[..|us| - 1], pod);
    }
  }

  /** `n` updates are sent, and nothing else happens. */
  ghost predicate Sends(s: State, s': State, n: nat)
    decreases n
  {
    if n == 0 then s == s' else exists mid, step :: Sends(s, mid, n - 1) && SendStep(mid, step, s')
  }

  ghost predicate SendStep(s: State, step: Step, s': State) {
    Sending(step) && Steps(s, step, s')
  }

  predicate AllSent(s: State) {
    s.fromRun == [] && s.fromDeletes == []
  }

  lemma {:induction false} SendsNarrow(s: State, s': State, n: nat, pod: PodName)
    requires RemovalsOnly(s.fromDeletes) && Sends(s, s', n)
    ensures RemovalsOnly(s'.fromDeletes) && Stored(s', pod) == Stored(s, pod)
    ensures DeletesLast(s, pod) <= DeletesLast(s', pod) && DeletesFirst(s', pod) <= DeletesFirst(s, pod)
    decreases n
  {
    if n > 0 {
      var mid, step :| Sends(s, mid, n - 1) && SendStep(mid, step, s');
      SendsNarrow(s, mid, n - 1, pod);
      SendNarrows(mid, step, s', pod);
    }
  }

  lemma SendsOn(start: State, s: State, step: Step, s': State, n: nat)
    requires Sends(start, s, n) && SendStep(s, step, s')
    ensures Sends(start, s', n + 1)
  {
  }

  lemma HeadMoves(d: seq<Update>, us: seq<Update>)
    requires us != []
    ensures d + [us[0]] + us[1..] == d + us
  {
    assert us == [us[0]] + us[1..];
  }

  lemma FirstDeleteIsSent(s: State)
    requires s.fromDeletes != []
    ensures SendStep(s, SendFromDelete(0), s.(fromDeletes := s.fromDeletes[1..], delivered := s.delivered + [s.fromDeletes[0]]))
  {
    assert s.fromDeletes[..0] + s.fromDeletes[1..] == s.fromDeletes[1..];
  }

  lemma {:induction false} SendAllDeletes(start: State, s: State, n: nat) returns (s': State, m: nat)
    requires Sends(start, s, n)
    ensures Sends(start, s', m) && s' == s.(fromDeletes := [], delivered := s.delivered + s.fromDeletes)
    decreases |s.fromDeletes|
  {
    s', m := s, n;
    if s.fromDeletes == [] {
      assert s.delivered + s.fromDeletes == s.delivered;
    } else {
      var v, rest := s.fromDeletes[0], s.fromDeletes[1..];
      var next := s.(fromDeletes := rest, delivered := s.delivered + [v]);
      FirstDeleteIsSent(s);
      SendsOn(start, s, SendFromDelete(0), next, n);
      s', m := SendAllDeletes(start, next, n + 1);
      HeadMoves(s.delivered, s.fromDeletes);
    }
  }

  lemma {:induction false} SendAllFromRun(start: State, s: State, n: nat) returns (s': State, m: nat)
    requires Sends(start, s, n)
    ensures Sends(start, s', m) && s' == s.(fromRun := [], delivered := s.delivered + s.fromRun)
    decreases |s.fromRun|
  {
    s', m := s, n;
    if s.fromRun == [] {
      assert s.delivered + s.fromRun == s.delivered;
    } else {
      var u, rest := s.fromRun[0], s.fromRun[1..];
      var next := s.(fromRun := rest, delivered := s.delivered + [u]);
      SendsOn(start, s, SendFromRun, next, n);
      s', m := SendAllFromRun(start, next, n + 1);
      HeadMoves(s.delivered, s.fromRun);
    }
  }

  lemma BothOrdersHappen(s: State, pod: PodName) returns (first: State, n: nat, last: State, m: nat)
    requires RemovalsOnly(s.fromDeletes)
    ensures Sends(s, first, n) && AllSent(first) && Replay(first.delivered, pod) == DeletesFirst(s, pod)
    ensures Sends(s, last, m) && AllSent(last) && Replay(last.delivered, pod) == DeletesLast(s, pod)
  {
    first, n := SendAllDeletes(s, s, 0);
    first, n := SendAllFromRun(s, first, n);
    ReplayConcat(s.delivered, s.fromDeletes, pod);
    ReplayConcat(s.delivered + s.fromDeletes, s.fromRun, pod);
    ReplayRemovals(Replay(s.delivered, pod), s.fromDeletes, pod);
    last, m := SendAllFromRun(s, s, 0);
    last, m := SendAllDeletes(s, last, m);
    ReplayConcat(s.delivered, s.fromRun, pod);
    ReplayConcat(s.delivered + s.fromRun, s.fromDeletes, pod);
    ReplayRemovals(Replay(s.delivered + s.fromRun, pod), s.fromDeletes, pod);
  }

  /** However the rest is sent, the reader ends up with what is stored for the pod. */
  ghost predicate EveryOrder(s: State, pod: PodName) {
    forall s', n: nat :: Sends(s, s', n) && AllSent(s') ==> Replay(s'.delivered, pod) == Stored(s, pod)
  }

  /** The two extreme orders end with what is stored. */
  predicate Agrees(s: State, pod: PodName) {
    DeletesFirst(s, pod) == Stored(s, pod) == DeletesLast(s, pod)
  }

  /** What a reader ends up with lies between the two extreme orders, and both can happen. */
  lemma EveryOrderIff(s: State, pod: PodName)
    requires RemovalsOnly(s.fromDeletes)
    ensures EveryOrder(s, pod) <==> Agrees(s, pod)
  {
    var first, n, last, m := BothOrdersHappen(s, pod);
    if Agrees(s, pod) {
      forall s', k: nat | Sends(s, s', k) && AllSent(s') ensures Replay(s'.delivered, pod) == Stored(s, pod) {
        SendsNarrow(s, s', k, pod);
        assert DeletesFirst(s', pod) == Replay(s'.delivered, pod) == DeletesLast(s', pod);
      }
    }
  }

  // ---------------------------------------------------------------------------------------------
  // Which steps spoil it.

  /** A pod is deleted while updates that add adapters of it are unsent; a commit adds an adapter that an
      unsent deletion removes; or a commit brings back a deleted pod with adapters. */
  ghost predicate Spoils(s: State, step: Step, pod: PodName) {
    match step
    case Delete(gone) => gone == pod && pod in s.stored && Replay(s.fromRun, pod) != {}
    case Seen(seen, _) =>
      && !BaseChange(s.stored, seen) && pod in seen
      && if pod in s.stored then (seen[pod].adapters - Stored(s, pod)) * RemovedBy(s.fromDeletes, pod) != {}
         else seen[pod].adapters != {}
    case _ => false
  }

  lemma DeleteAgreesIff(s: State, pod: PodName)
    requires Agrees(s, pod) && pod in s.stored
    ensures Agrees(DeletePod(s, pod), pod) <==> Replay(s.fromRun, pod) == {}
  {
    var v := Update(pod, {}, Adapters(s.stored[pod]));
    RemovedByConcat(s.fromDeletes, [v], pod);
    OneRemoval(v, pod);
    var x, a := Replay(s.delivered, pod) - RemovedBy(s.fromDeletes, pod), Stored(s, pod);
    assert Replay(s.delivered, pod) - (RemovedBy(s.fromDeletes, pod) + a) == x - a;
    ReplayMonotone(x - a, x, s.fromRun, pod);
    ReplayMonotone({}, x - a, s.fromRun, pod);
    ReplayBounded(x - a, s.fromRun, pod);
    ReplayIsFromEmpty(s.fromRun, pod);
    assert DeletesFirst(DeletePod(s, pod), pod) == Replay(s.fromRun, pod);
  }

  lemma OtherDeleteAgrees(s: State, gone: PodName, pod: PodName)
    requires Agrees(s, pod) && gone != pod
    ensures Agrees(DeletePod(s, gone), pod)
  {
    if gone in s.stored {
      var v := Update(gone, {}, Adapters(s.stored[gone]));
      RemovedByConcat(s.fromDeletes, [v], pod);
      OneRemoval(v, pod);
      assert RemovedBy(s.fromDeletes + [v], pod) == RemovedBy(s.fromDeletes, pod);
    }
  }

  /** What a commit does to a pod, whatever a reader believes before. */
  lemma {:induction false} CommitFrom(x: set<Adapter>, before: seq<Update>, s: State, seen: map<PodName, Status>, order: seq<PodName>, pod: PodName)
    requires Enumerates(order, s.stored.Keys)
    ensures ReplayFrom(x, before + Updates(s.stored, seen, order), pod)
         == if pod in s.stored then Effect(ReplayFrom(x, before, pod), DiffOf(pod, s.stored[pod], Lookup(seen, pod)))
            else ReplayFrom(x, before, pod)
  {
    // A first update that adds exactly x.
    var start := Update(pod, x, {});
    assert [] + [start] == [start];
    ReplayOne([], start, pod);
    assert Replay([start], pod) == x;
    ReplayConcat([start], before, pod);
    ReplayConcat([start], before + Updates(s.stored, seen, order), pod);
    assert [start] + (before + Updates(s.stored, seen, order)) == ([start] + before) + Updates(s.stored, seen, order);
    ReplayUpdates([start] + before, s.stored, seen, order, pod);
    assert pod in order <==> pod in s.stored;
  }

  lemma EffectIs(x: set<Adapter>, pod: PodName, oldS: Option<Status>, newS: Option<Status>)
    requires !DiffOf(pod, oldS, newS).BaseChanged?
    ensures Effect(x, DiffOf(pod, oldS, newS)) == x + (Adapters(newS) - Adapters(oldS)) - (Adapters(oldS) - Adapters(newS))
  {
  }

  lemma CommitSets(x: set<Adapter>, gone: set<Adapter>, was: set<Adapter>, now: set<Adapter>)
    requires x - gone == was
    ensures was + (now - was) - (was - now) == now
    ensures x + (now - was) - (was - now) - gone == now <==> (now - was) * gone == {}
  {
    var missing := (now - was) * gone;
    assert x + (now - was) - (was - now) - gone == now - missing;
    assert missing <= now;
    assert now - missing == now ==> missing == now * missing == {};
  }

  lemma CommitAgreesIff(s: State, seen: map<PodName, Status>, order: seq<PodName>, pod: PodName)
    requires Agrees(s, pod) && Enumerates(order, s.stored.Keys) && !BaseChange(s.stored, seen)
    ensures Agrees(Commit(s, seen, order), pod) <==> !Spoils(s, Seen(seen, order), pod)
  {
    var x, gone := Replay(s.delivered, pod), RemovedBy(s.fromDeletes, pod);
    CommitFrom(x, s.fromRun, s, seen, order, pod);
    CommitFrom(x - gone, s.fromRun, s, seen, order, pod);
    if pod in s.stored {
      var oldS, newS := s.stored[pod], Lookup(seen, pod);
      assert !DiffOf(pod, oldS, newS).BaseChanged?;
      EffectIs(ReplayFrom(x, s.fromRun, pod), pod, oldS, newS);
      EffectIs(Stored(s, pod), pod, oldS, newS);
      CommitSets(ReplayFrom(x, s.fromRun, pod), gone, Adapters(oldS), Adapters(newS));
    }
  }

  /** A step keeps every order of sending right if and only if it does not spoil it. */
  lemma AgreesIff(s: State, step: Step, s': State, pod: PodName)
    requires RemovalsOnly(s.fromDeletes) && Agrees(s, pod) && Steps(s, step, s')
    ensures Agrees(s', pod) <==> !Spoils(s, step, pod)
  {
    match step
    case Add(_) =>
    case Look =>
    case Delete(gone) =>
      if gone != pod {
        OtherDeleteAgrees(s, gone, pod);
      } else if pod in s.stored {
        DeleteAgreesIff(s, pod);
      }
    case Seen(seen, order) =>
      if !BaseChange(s.stored, seen) {
        CommitAgreesIff(s, seen, order, pod);
      }
    case _ => SendAgrees(s, step, s', pod);
  }

  lemma SendAgrees(s: State, step: Step, s': State, pod: PodName)
    requires RemovalsOnly(s.fromDeletes) && Agrees(s, pod) && Sending(step) && Steps(s, step, s')
    ensures Agrees(s', pod)
  {
    SendNarrows(s, step, s', pod);
    ExtremesOrdered(s', pod);
  }

  lemma ExtremesOrdered(s: State, pod: PodName)
    ensures DeletesLast(s, pod) <= DeletesFirst(s, pod)
  {
    RemovedEarlier(Replay(s.delivered, pod), RemovedBy(s.fromDeletes, pod), s.fromRun, pod);
  }

  lemma {:induction false} RunAgreesIff(states: seq<State>, steps: seq<Step>, pod: PodName, n: nat)
    requires Run(states, steps) && n <= |steps|
    ensures RemovalsOnly(states[n].fromDeletes)
    ensures (forall k :: 0 <= k <= n ==> Agrees(states[k], pod)) <==> (forall k :: 0 <= k < n ==> !Spoils(states[k], steps[k], pod))
  {
    if n > 0 {
      RunAgreesIff(states, steps, pod, n - 1);
      assert Steps(states[n - 1], steps[n - 1], states[n]);
      StepRemovesOnly(states[n - 1], steps[n - 1], states[n]);
      if Agrees(states[n - 1], pod) {
        AgreesIff(states[n - 1], steps[n - 1], states[n], pod);
      }
    }
  }

  lemma StepRemovesOnly(s: State, step: Step, s': State)
    requires RemovalsOnly(s.fromDeletes) && Steps(s, step, s')
    ensures RemovalsOnly(s'.fromDeletes)
  {
  }

  /** Along a run, every order of sending what is unsent ends with what is stored for the pod, in every state,
      if and only if no step spoils it. */
  lemma RunEveryOrderIff(states: seq<State>, steps: seq<Step>, pod: PodName)
    requires Run(states, steps)
    ensures (forall k :: 0 <= k < |states| ==> EveryOrder(states[k], pod)) <==> (forall k :: 0 <= k < |steps| ==> !Spoils(states[k], steps[k], pod))
  {
    forall k | 0 <= k < |states| ensures EveryOrder(states[k], pod) <==> Agrees(states[k], pod) {
      RunAgreesIff(states, steps, pod, k);
      EveryOrderIff(states[k], pod);
    }
    RunAgreesIff(states, steps, pod, |steps|);
  }

  /** In particular: after a run that was fine so far, a deletion can be overtaken harmfully if and only if the
      updates of commits that are still unsent add an adapter of the pod. */
  lemma DeletionOvertakenIff(states: seq<State>, steps: seq<Step>, pod: PodName)
    requires Run(states, steps) && forall k :: 0 <= k < |steps| ==> !Spoils(states[k], steps[k], pod)
    requires pod in states[|steps|].stored
    ensures EveryOrder(DeletePod(states[|steps|], pod), pod) <==> Replay(states[|steps|].fromRun, pod) == {}
  {
    var s := states[|steps|];
    RunAgreesIff(states, steps, pod, |steps|);
    assert Agrees(s, pod);
    DeleteAgreesIff(s, pod);
    assert Steps(s, Delete(pod), DeletePod(s, pod));
    StepRemovesOnly(s, Delete(pod), DeletePod(s, pod));
    EveryOrderIff(DeletePod(s, pod), pod);
  }
}
