/**
 The LoRA reconciler (engine/internal/runtime/lora_reconciler.go): it stores what each pod was last seen
 to have loaded and sends the differences on. Pods come and go while it looks, and updates are sent
 after the lock is released.
 */
module Lora {
  import opened Common

  type PodName = string
  type Adapter = string
  type ModelId = string

  /** The base model of a pod and the adapters loaded on top. */
  datatype Status = Status(base: ModelId, adapters: set<Adapter>)

  datatype Update = Update(pod: PodName, added: set<Adapter>, removed: set<Adapter>)

  /** A stored pod has no status until the first look. `emitted` lists updates in the order in which the
      lock was held; `fromRun` and `fromDeletes` are those not sent yet by the periodic look and by
      deletions. `looking` holds the pods of a look that has not come back. */
  datatype State = State(
    stored: map<PodName, Option<Status>>, looking: Option<set<PodName>>, failed: bool,
    emitted: seq<Update>, fromRun: seq<Update>, fromDeletes: seq<Update>, delivered: seq<Update>)

  const INIT := State(map[], None, false, [], [], [], [])

  function Adapters(s: Option<Status>): set<Adapter> {
    if s.Some? then s.value.adapters else {}
  }

  datatype Diff = NoUpdate | Send(update: Update) | BaseChanged

  function DiffOf(pod: PodName, oldS: Option<Status>, newS: Option<Status>): Diff {
    if newS.None? then
      if oldS.None? then NoUpdate else Send(Update(pod, {}, oldS.value.adapters))
    else if oldS.None? then Send(Update(pod, newS.value.adapters, {}))
    else if oldS.value.base != newS.value.base then BaseChanged
    else if oldS.value.adapters == newS.value.adapters then NoUpdate
    else Send(Update(pod, newS.value.adapters - oldS.value.adapters, oldS.value.adapters - newS.value.adapters))
  }

  function Updates(stored: map<PodName, Option<Status>>, seen: map<PodName, Status>, order: seq<PodName>): seq<Update>
    requires forall i :: 0 <= i < |order| ==> order[i] in stored
  {
    if order == [] then []
    else
      var pod := order[|order| - 1];
      var d := DiffOf(pod, stored[pod], Lookup(seen, pod));
      Updates(stored, seen, order[..|order| - 1]) + (if d.Send? then [d.update] else [])
  }

  /** Every stored pod once, in any order. */
  ghost predicate Enumerates(order: seq<PodName>, pods: set<PodName>) {
    && (forall i :: 0 <= i < |order| ==> order[i] in pods)
    && Distinct(order)
    && (forall p :: p in pods ==> p in order)
  }

  ghost predicate BaseChange(stored: map<PodName, Option<Status>>, seen: map<PodName, Status>) {
    exists p :: p in stored && DiffOf(p, stored[p], Lookup(seen, p)).BaseChanged?
  }

  function AsStored(seen: map<PodName, Status>): map<PodName, Option<Status>> {
    map p | p in seen :: Some(seen[p])
  }

  function AddPod(s: State, pod: PodName): State {
    if pod in s.stored then s else s.(stored := s.stored[pod := None])
  }

  function DeletePod(s: State, pod: PodName): State {
    if pod !in s.stored then s
    else
      var u := Update(pod, {}, Adapters(s.stored[pod]));
      s.(stored := s.stored - {pod}, emitted := s.emitted + [u], fromDeletes := s.fromDeletes + [u])
  }

  function Commit(s: State, seen: map<PodName, Status>, order: seq<PodName>): State
    requires forall i :: 0 <= i < |order| ==> order[i] in s.stored
  {
    var us := Updates(s.stored, seen, order);
    s.(stored := AsStored(seen), looking := None, emitted := s.emitted + us, fromRun := s.fromRun + us)
  }

  datatype Step =
    | Add(pod: PodName)
    | Delete(pod: PodName)
    | Look
    | Seen(seen: map<PodName, Status>, order: seq<PodName>)
    | SendFromRun
    | SendFromDelete(i: nat)

  /** Looking, committing and sending what a commit found is one loop; it ends on an error. The look
      reports a status with a base model for some of the pods that were there. */
  ghost predicate Steps(s: State, step: Step, s': State) {
    match step
    case Add(pod) => s' == AddPod(s, pod)
    case Delete(pod) => s' == DeletePod(s, pod)
    case Look => !s.failed && s.looking.None? && s.fromRun == [] && s' == s.(looking := Some(s.stored.Keys))
    case Seen(seen, order) =>
      && s.looking.Some? && seen.Keys <= s.looking.value && Enumerates(order, s.stored.Keys)
      && (forall p :: p in seen ==> seen[p].base != "")
      && s' == if BaseChange(s.stored, seen) then s.(looking := None, failed := true) else Commit(s, seen, order)
    case SendFromRun =>
      s.fromRun != [] && s' == s.(fromRun := s.fromRun[1..], delivered := s.delivered + [s.fromRun[0]])
    case SendFromDelete(i) =>
      && i < |s.fromDeletes|
      && s' == s.(fromDeletes := s.fromDeletes[..i] + s.fromDeletes[i + 1..], delivered := s.delivered + [s.fromDeletes[i]])
  }

  ghost predicate Run(states: seq<State>, steps: seq<Step>) {
    && |states| == |steps| + 1 && states[0] == INIT
    && forall i :: 0 <= i < |steps| ==> Steps(states[i], steps[i], states[i + 1])
  }

  /** What a reader of updates believes a pod has loaded. */
  function Replay(us: seq<Update>, pod: PodName): set<Adapter> {
    if us == [] then {}
    else
      var last, before := us[|us| - 1], Replay(us[..|us| - 1], pod);
      if last.pod == pod then before + last.added - last.removed else before
  }

  function Stored(s: State, pod: PodName): set<Adapter> {
    if pod in s.stored then Adapters(s.stored[pod]) else {}
  }

  // ---------------------------------------------------------------------------------------------
  // The reconciler.

  class LoRAReconciler {
    var podsByName: map<PodName, Option<Status>>
    var looking: Option<set<PodName>>
    var failed: bool
    var emitted: seq<Update>
    var fromRun: seq<Update>
    var fromDeletes: seq<Update>
    var delivered: seq<Update>

    ghost function Now(): State
      reads this
    {
      State(podsByName, looking, failed, emitted, fromRun, fromDeletes, delivered)
    }

    constructor ()
      ensures Now() == INIT
    {
      podsByName, looking, failed := map[], None, false;
      emitted, fromRun, fromDeletes, delivered := [], [], [], [];
    }

    method AddPod(pod: PodName)
      modifies this
      ensures Steps(old(Now()), Add(pod), Now())
    {
      if pod !in podsByName {
        podsByName := podsByName[pod := None];
      }
    }

    method DeletePod(pod: PodName)
      modifies this
      ensures Steps(old(Now()), Delete(pod), Now())
    {
      if pod !in podsByName {
        return;
      }
      var ids := {};
      if podsByName[pod].Some? {
        ids := podsByName[pod].value.adapters;
      }
      podsByName := podsByName - {pod};
      emitted, fromDeletes := emitted + [Update(pod, {}, ids)], fromDeletes + [Update(pod, {}, ids)];
    }

    method StartLooking()
      requires !failed && looking.None? && fromRun == []
      modifies this
      ensures Steps(old(Now()), Look, Now())
    {
      looking := Some(podsByName.Keys);
    }

    /** Compares what was seen with what is stored, pod by pod, and stores what was seen. */
    method UpdateLoRALoadingStatus(seen: map<PodName, Status>) returns (ghost order: seq<PodName>)
      requires looking.Some? && seen.Keys <= looking.value
      requires forall p :: p in seen ==> seen[p].base != ""
      modifies this
      ensures Steps(old(Now()), Seen(seen, order), Now())
    {
      var updates, rest := [], podsByName.Keys;
      order := [];
      while rest != {}
        invariant Now() == old(Now()) && rest <= podsByName.Keys
        invariant Visited(podsByName, seen, order, rest)
        invariant updates == Updates(podsByName, seen, order)
        decreases rest
      {
        var pod :| pod in rest;
        var d := UpdateLoRALoadingStatusForPod(pod, podsByName[pod], if pod in seen then Some(seen[pod]) else None);
        if d.BaseChanged? {
          assert BaseChange(podsByName, seen);
          looking, failed := None, true;
          order := AnyOrder(podsByName.Keys);
          return;
        }
        OneMorePod(podsByName, seen, order, rest, pod);
        order, rest := order + [pod], rest - {pod};
        if d.Send? {
          updates := updates + [d.update];
        }
      }
      AllVisited(podsByName, seen, order);
      podsByName, looking := map p | p in seen :: Some(seen[p]), None;
      emitted, fromRun := emitted + updates, fromRun + updates;
    }

    method SendNextFromRun()
      requires fromRun != []
      modifies this
      ensures Steps(old(Now()), SendFromRun, Now())
    {
      delivered, fromRun := delivered + [fromRun[0]], fromRun[1..];
    }

    method SendOneFromDelete(i: nat)
      requires i < |fromDeletes|
      modifies this
      ensures Steps(old(Now()), SendFromDelete(i), Now())
    {
      delivered, fromDeletes := delivered + [fromDeletes[i]], fromDeletes[..i] + fromDeletes[i + 1..];
    }
  }

  /** All pods but the rest have been compared, and none has changed its base model. */
  ghost predicate Visited(stored: map<PodName, Option<Status>>, seen: map<PodName, Status>, order: seq<PodName>, rest: set<PodName>) {
    && Enumerates(order, stored.Keys - rest)
    && forall i :: 0 <= i < |order| ==> !DiffOf(order[i], stored[order[i]], Lookup(seen, order[i])).BaseChanged?
  }

  lemma OneMorePod(stored: map<PodName, Option<Status>>, seen: map<PodName, Status>, order: seq<PodName>, rest: set<PodName>, pod: PodName)
    requires Visited(stored, seen, order, rest) && rest <= stored.Keys && pod in rest
    requires !DiffOf(pod, stored[pod], Lookup(seen, pod)).BaseChanged?
    ensures Visited(stored, seen, order + [pod], rest - {pod})
    ensures var d := DiffOf(pod, stored[pod], Lookup(seen, pod));
            Updates(stored, seen, order + [pod]) == Updates(stored, seen, order) + (if d.Send? then [d.update] else [])
  {
    EnumerateOne(order, stored.Keys - rest, pod);
    UpdatesSnoc(stored, seen, order, pod);
    assert stored.Keys - (rest - {pod}) == stored.Keys - rest + {pod};
  }

  lemma AllVisited(stored: map<PodName, Option<Status>>, seen: map<PodName, Status>, order: seq<PodName>)
    requires Visited(stored, seen, order, {})
    ensures Enumerates(order, stored.Keys) && !BaseChange(stored, seen)
  {
    assert stored.Keys - {} == stored.Keys;
  }

  lemma EnumerateOne(order: seq<PodName>, pods: set<PodName>, pod: PodName)
    requires Enumerates(order, pods) && pod !in pods
    ensures Enumerates(order + [pod], pods + {pod})
  {
  }

  lemma UpdatesSnoc(stored: map<PodName, Option<Status>>, seen: map<PodName, Status>, order: seq<PodName>, pod: PodName)
    requires pod in stored && forall i :: 0 <= i < |order| ==> order[i] in stored
    ensures var d := DiffOf(pod, stored[pod], Lookup(seen, pod));
            Updates(stored, seen, order + [pod]) == Updates(stored, seen, order) + (if d.Send? then [d.update] else [])
  {
    assert (order + [pod])[..|order|] == order;
  }

  /** The difference for one pod, adapter by adapter. */
  method UpdateLoRALoadingStatusForPod(pod: PodName, oldS: Option<Status>, newS: Option<Status>) returns (d: Diff)
    ensures d == DiffOf(pod, oldS, newS)
  {
    if newS.None? {
      if oldS.None? {
        return NoUpdate;
      }
      return Send(Update(pod, {}, oldS.value.adapters));
    }
    if oldS.None? {
      return Send(Update(pod, newS.value.adapters, {}));
    }
    if oldS.value.base != newS.value.base {
      return BaseChanged;
    }
    var added := OnlyIn(newS.value.adapters, oldS.value.adapters);
    var removed := OnlyIn(oldS.value.adapters, newS.value.adapters);
    if added == {} && removed == {} {
      assert oldS.value.adapters == newS.value.adapters;
      return NoUpdate;
    }
    return Send(Update(pod, added, removed));
  }

  method OnlyIn(a: set<Adapter>, b: set<Adapter>) returns (r: set<Adapter>)
    ensures r == a - b
  {
    var rest := a;
    r := {};
    while rest != {}
      invariant rest <= a && r == a - b - rest
      decreases rest
    {
      var id :| id in rest;
      if id !in b {
        r := r + {id};
      }
      rest := rest - {id};
    }
  }

  ghost function AnyOrder(pods: set<PodName>): (order: seq<PodName>)
    ensures Enumerates(order, pods)
  {
    if pods == {} then []
    else
      var p :| p in pods;
      var rest := AnyOrder(pods - {p});
      assert forall i :: 0 <= i < |rest| ==> rest[i] in pods - {p};
      rest + [p]
  }

  // ---------------------------------------------------------------------------------------------
  // The difference for a pod, and base models.

  /** The difference is a failure if and only if the pod was seen with another base model. Otherwise what was stored,
      with what is added and without what is removed, is what was seen; nothing is added that was there or removed
      that was not, and nothing is sent about a pod that was seen as it was stored. */
  lemma DiffIff(pod: PodName, oldS: Option<Status>, newS: Option<Status>)
    ensures var d := DiffOf(pod, oldS, newS);
            && (d.BaseChanged? <==> oldS.Some? && newS.Some? && oldS.value.base != newS.value.base)
            && (d.NoUpdate? ==> Adapters(newS) == Adapters(oldS))
            && (d.Send? ==>
                  && d.update.pod == pod && Adapters(newS) == Adapters(oldS) + d.update.added - d.update.removed
                  && d.update.added !! Adapters(oldS) && d.update.removed <= Adapters(oldS)
                  && oldS != newS)
  {
  }

  /** The base model that is known of a pod. */
  function BaseOf(s: State, pod: PodName): Option<ModelId> {
    if pod in s.stored && s.stored[pod].Some? then Some(s.stored[pod].value.base) else None
  }

  ghost predicate SeenOnAnother(s: State, seen: map<PodName, Status>, pod: PodName) {
    pod in seen && BaseOf(s, pod).Some? && BaseOf(s, pod).value != seen[pod].base
  }

  /** A look ends the loop with an error, and nothing stored or sent, if and only if it finds a pod on another base
      model. Otherwise exactly what was seen is stored. */
  lemma CommitIff(s: State, seen: map<PodName, Status>, order: seq<PodName>, s': State)
    requires Steps(s, Seen(seen, order), s') && !s.failed
    ensures s'.failed <==> exists pod :: SeenOnAnother(s, seen, pod)
    ensures s'.failed ==> s'.stored == s.stored && s'.emitted == s.emitted
    ensures !s'.failed ==> s'.stored.Keys == seen.Keys && forall pod :: pod in seen ==> s'.stored[pod] == Some(seen[pod])
  {
    forall pod ensures pod in s.stored && DiffOf(pod, s.stored[pod], Lookup(seen, pod)).BaseChanged? <==> SeenOnAnother(s, seen, pod) {
      if pod in s.stored {
        DiffIff(pod, s.stored[pod], Lookup(seen, pod));
      }
    }
    if s'.failed {
      assert BaseChange(s.stored, seen);
    }
  }

  lemma BaseStays(s: State, step: Step, s': State, pod: PodName)
    requires Steps(s, step, s') && BaseOf(s, pod).Some? && pod in s'.stored
    ensures BaseOf(s', pod) == BaseOf(s, pod)
  {
    if step.Seen? && pod in step.seen {
      assert SeenOnAnother(s, step.seen, pod) ==> BaseChange(s.stored, step.seen);
    }
  }

  /** In every run: as long as a pod is stored, its base model is the one it was first seen with. */
  lemma {:induction false} RunKeepsBase(states: seq<State>, steps: seq<Step>, i: nat, j: nat, pod: PodName)
    requires Run(states, steps) && i <= j <= |steps| && BaseOf(states[i], pod).Some?
    requires forall k :: i <= k <= j ==> pod in states[k].stored
    ensures BaseOf(states[j], pod) == BaseOf(states[i], pod)
    decreases j - i
  {
    if i < j {
      RunKeepsBase(states, steps, i, j - 1, pod);
      assert Steps(states[j - 1], steps[j - 1], states[j]);
      BaseStays(states[j - 1], steps[j - 1], states[j], pod);
    }
  }

  // ---------------------------------------------------------------------------------------------
  // Emitted updates against what is stored.

  lemma ReplayOne(us: seq<Update>, u: Update, pod: PodName)
    ensures Replay(us + [u], pod) == if u.pod == pod then Replay(us, pod) + u.added - u.removed else Replay(us, pod)
  {
    assert (us + [u])[..|us|] == us;
  }

  /** What the updates of a commit do to one pod. */
  function Effect(before: set<Adapter>, d: Diff): set<Adapter> {
    if d.Send? then before + d.update.added - d.update.removed else before
  }

  predicate Distinct(order: seq<PodName>) {
    forall i, j :: 0 <= i < j < |order| ==> order[i] != order[j]
  }

  lemma DistinctSplit(order: seq<PodName>)
    requires order != [] && Distinct(order)
    ensures var front, last := order[..|order| - 1], order[|order| - 1];
            Distinct(front) && last !in front && forall p :: p in order <==> p in front || p == last
  {
    assert order == order[..|order| - 1] + [order[|order| - 1]];
  }

  /** The last pod of the order adds its own difference and touches no other pod. */
  lemma ReplayLast(us: seq<Update>, stored: map<PodName, Option<Status>>, seen: map<PodName, Status>, order: seq<PodName>, pod: PodName)
    requires order != [] && forall i :: 0 <= i < |order| ==> order[i] in stored
    ensures var front, last := order[..|order| - 1], order[|order| - 1];
            var before := Replay(us + Updates(stored, seen, front), pod);
            Replay(us + Updates(stored, seen, order), pod)
              == if pod == last then Effect(before, DiffOf(pod, stored[pod], Lookup(seen, pod))) else before
  {
    var front, last := order[..|order| - 1], order[|order| - 1];
    var d := DiffOf(last, stored[last], Lookup(seen, last));
    var sent := us + Updates(stored, seen, front);
    assert order == front + [last];
    UpdatesSnoc(stored, seen, front, last);
    if d.Send? {
      ReplayOne(sent, d.update, pod);
      assert us + Updates(stored, seen, order) == sent + [d.update];
    } else {
      assert us + Updates(stored, seen, order) == sent;
    }
  }

  lemma {:induction false} ReplayUpdates(us: seq<Update>, stored: map<PodName, Option<Status>>, seen: map<PodName, Status>,
                                         order: seq<PodName>, pod: PodName)
    requires forall i :: 0 <= i < |order| ==> order[i] in stored
    requires Distinct(order)
    ensures Replay(us + Updates(stored, seen, order), pod)
         == if pod in order then Effect(Replay(us, pod), DiffOf(pod, stored[pod], Lookup(seen, pod))) else Replay(us, pod)
  {
    if order == [] {
      assert us + [] == us;
    } else {
      var front, last := order[..|order| - 1], order[|order| - 1];
      ReplayUpdates(us, stored, seen, front, pod);
      DistinctSplit(order);
      ReplayLast(us, stored, seen, order, pod);
    }
  }

  /** The replayed updates never claim an adapter that is not stored for the pod. */
  ghost predicate Covered(s: State) {
    forall pod :: Replay(s.emitted, pod) <= Stored(s, pod)
  }

  ghost predicate Exact(s: State) {
    forall pod :: Replay(s.emitted, pod) == Stored(s, pod)
  }

  /** A commit brings back a pod with adapters that was deleted after the look began. */
  ghost predicate Revives(s: State, step: Step) {
    step.Seen? && !BaseChange(s.stored, step.seen)
    && exists pod :: pod in step.seen && pod !in s.stored && step.seen[pod].adapters != {}
  }

  lemma CommitReplay(s: State, seen: map<PodName, Status>, order: seq<PodName>, pod: PodName)
    requires Enumerates(order, s.stored.Keys) && !BaseChange(s.stored, seen)
    requires Replay(s.emitted, pod) <= Stored(s, pod)
    ensures var s' := Commit(s, seen, order);
            && Replay(s'.emitted, pod) <= Stored(s', pod)
            && (pod in s.stored && Replay(s.emitted, pod) == Stored(s, pod) ==> Replay(s'.emitted, pod) == Stored(s', pod))
            && (pod !in s.stored ==> Replay(s'.emitted, pod) == {})
  {
    ReplayUpdates(s.emitted, s.stored, seen, order, pod);
    if pod in s.stored {
      var oldS, newS := s.stored[pod], Lookup(seen, pod);
      assert !DiffOf(pod, oldS, newS).BaseChanged?;
      assert Stored(Commit(s, seen, order), pod) == Adapters(newS);
    }
  }

  lemma DeleteReplay(s: State, gone: PodName, pod: PodName)
    requires Replay(s.emitted, pod) <= Stored(s, pod)
    ensures var s' := DeletePod(s, gone);
            && Replay(s'.emitted, pod) == (if pod == gone then {} else Replay(s.emitted, pod))
            && Stored(s', pod) == (if pod == gone then {} else Stored(s, pod))
  {
    if gone in s.stored {
      ReplayOne(s.emitted, Update(gone, {}, Adapters(s.stored[gone])), pod);
    }
  }

  lemma StepKeepsCovered(s: State, step: Step, s': State)
    requires Covered(s) && Steps(s, step, s')
    ensures Covered(s')
    ensures step.Delete? ==> Replay(s'.emitted, step.pod) == {} && step.pod !in s'.stored
  {
    forall pod ensures Replay(s'.emitted, pod) <= Stored(s', pod) {
      assert Replay(s.emitted, pod) <= Stored(s, pod);
      if step.Delete? {
        DeleteReplay(s, step.pod, pod);
      } else if step.Seen? && !BaseChange(s.stored, step.seen) {
        CommitReplay(s, step.seen, step.order, pod);
      }
    }
    if step.Delete? {
      assert Replay(s'.emitted, step.pod) <= Stored(s', step.pod);
    }
  }

  /** A step keeps replayed and stored sets equal if and only if it does not revive a deleted pod. */
  lemma ExactIff(s: State, step: Step, s': State)
    requires Exact(s) && Steps(s, step, s')
    ensures Exact(s') <==> !Revives(s, step)
  {
    if Revives(s, step) {
      var pod :| pod in step.seen && pod !in s.stored && step.seen[pod].adapters != {};
      assert Replay(s.emitted, pod) == Stored(s, pod);
      CommitReplay(s, step.seen, step.order, pod);
      assert Replay(s'.emitted, pod) != Stored(s', pod);
    } else {
      forall pod ensures Replay(s'.emitted, pod) == Stored(s', pod) {
        assert Replay(s.emitted, pod) == Stored(s, pod);
        if step.Delete? {
          DeleteReplay(s, step.pod, pod);
        } else if step.Seen? && !BaseChange(s.stored, step.seen) {
          CommitReplay(s, step.seen, step.order, pod);
        }
      }
    }
  }

  /** In every interleaving of looks, commits, additions and deletions. */
  lemma {:induction false} RunKeepsCovered(states: seq<State>, steps: seq<Step>, n: nat)
    requires Run(states, steps) && n <= |steps|
    ensures Covered(states[n])
    ensures n > 0 && steps[n - 1].Delete? ==> Replay(states[n].emitted, steps[n - 1].pod) == {}
  {
    if n > 0 {
      RunKeepsCovered(states, steps, n - 1);
      assert Steps(states[n - 1], steps[n - 1], states[n]);
      StepKeepsCovered(states[n - 1], steps[n - 1], states[n]);
    }
  }

  lemma {:induction false} RunExactIff(states: seq<State>, steps: seq<Step>, n: nat)
    requires Run(states, steps) && n <= |steps|
    ensures (forall k :: 0 <= k <= n ==> Exact(states[k])) <==> (forall k :: 0 <= k < n ==> !Revives(states[k], steps[k]))
  {
    if n > 0 {
      RunExactIff(states, steps, n - 1);
      assert Steps(states[n - 1], steps[n - 1], states[n]);
      if Exact(states[n - 1]) {
        ExactIff(states[n - 1], steps[n - 1], states[n]);
      }
    }
  }

  /** Nothing is deleted between a look and its commit. */
  ghost predicate NoDeletionWhileLooking(states: seq<State>, steps: seq<Step>)
    requires |states| == |steps| + 1
  {
    forall i :: 0 <= i < |steps| && steps[i].Delete? ==> states[i].looking.None?
  }

  lemma {:induction false} LookedAtStaysStored(states: seq<State>, steps: seq<Step>, n: nat)
    requires Run(states, steps) && n <= |steps| && NoDeletionWhileLooking(states, steps)
    ensures states[n].looking.Some? ==> states[n].looking.value <= states[n].stored.Keys
  {
    if n > 0 {
      LookedAtStaysStored(states, steps, n - 1);
      assert Steps(states[n - 1], steps[n - 1], states[n]);
    }
  }

  /** Then the replayed sets are exactly the stored ones, at all times. */
  lemma QuietRunsAreExact(states: seq<State>, steps: seq<Step>)
    requires Run(states, steps) && NoDeletionWhileLooking(states, steps)
    ensures forall k :: 0 <= k < |states| ==> Exact(states[k])
  {
    forall k | 0 <= k < |steps| ensures !Revives(states[k], steps[k]) {
      LookedAtStaysStored(states, steps, k);
      assert Steps(states[k], steps[k], states[k + 1]);
    }
    RunExactIff(states, steps, |steps|);
  }

  // ---------------------------------------------------------------------------------------------
  // Delivered updates against emitted ones.

  function Of(us: seq<Update>, pod: PodName): seq<Update> {
    if us == [] then []
    else Of(us[..|us| - 1], pod) + (if us[|us| - 1].pod == pod then [us[|us| - 1]] else [])
  }

  lemma {:induction false} OfConcat(a: seq<Update>, b: seq<Update>, pod: PodName)
    ensures Of(a + b, pod) == Of(a, pod) + Of(b, pod)
  {
    if b == [] {
      assert a + b == a;
    } else {
      OfConcat(a, b[..|b| - 1], pod);
      assert (a + b)[..|a + b| - 1] == a + b[..|b| - 1];
    }
  }

  lemma {:induction false} ReplayOf(us: seq<Update>, pod: PodName)
    ensures Replay(Of(us, pod), pod) == Replay(us, pod)
  {
    if us != [] {
      var front, last := us[..|us| - 1], us[|us| - 1];
      ReplayOf(front, pod);
      ReplayOne(Of(front, pod), last, pod);
      assert Of(us, pod) == if last.pod == pod then Of(front, pod) + [last] else Of(front, pod);
    }
  }

  /** The pod is deleted or looked at anew only when no update about it is still to be sent. */
  ghost predicate Settled(states: seq<State>, steps: seq<Step>, pod: PodName)
    requires |states| == |steps| + 1
  {
    forall i :: 0 <= i < |steps| && (steps[i].Seen? || steps[i] == Delete(pod)) ==>
      Of(states[i].fromRun, pod) == [] && Of(states[i].fromDeletes, pod) == []
  }

  /** What was delivered, then what one of the two senders still has. */
  predicate Ordered(emitted: seq<Update>, delivered: seq<Update>, fromRun: seq<Update>, fromDeletes: seq<Update>) {
    && emitted == delivered + fromRun + fromDeletes
    && (fromRun == [] || fromDeletes == []) && |fromDeletes| <= 1
  }

  predicate InOrder(s: State, pod: PodName) {
    Ordered(Of(s.emitted, pod), Of(s.delivered, pod), Of(s.fromRun, pod), Of(s.fromDeletes, pod))
  }

  /** In such runs the delivered updates about the pod replay to what was emitted, once all are sent. */
  lemma {:induction false} DeliveredInOrder(states: seq<State>, steps: seq<Step>, pod: PodName, n: nat)
    requires Run(states, steps) && Settled(states, steps, pod) && n <= |steps|
    ensures InOrder(states[n], pod)
  {
    if n > 0 {
      DeliveredInOrder(states, steps, pod, n - 1);
      var s, step, s' := states[n - 1], steps[n - 1], states[n];
      assert Steps(s, step, s');
      StepInOrder(s, step, s', pod);
    }
  }

  lemma RunMoves(e: seq<Update>, d: seq<Update>, h: seq<Update>, r: seq<Update>, x: seq<Update>)
    requires Ordered(e, d, h + r, x)
    ensures Ordered(e, d + h, r, x)
  {
    assert d + (h + r) + x == d + h + r + x;
    assert h + r == [] ==> r == [];
  }

  lemma DeleteMoves(e: seq<Update>, d: seq<Update>, r: seq<Update>, a: seq<Update>, h: seq<Update>, b: seq<Update>)
    requires Ordered(e, d, r, a + (h + b))
    ensures Ordered(e, d + h, r, a + b)
  {
    assert |a + (h + b)| == |a| + |h| + |b| <= 1;
    if h == [] {
      assert h + b == b && d + h == d;
    } else {
      assert a == [] && b == [];
      assert a + (h + b) == h;
      assert r == [];
      assert d + r + h == d + h + r + (a + b);
    }
  }

  lemma SendFromRunInOrder(s: State, pod: PodName)
    requires InOrder(s, pod) && s.fromRun != []
    ensures InOrder(s.(fromRun := s.fromRun[1..], delivered := s.delivered + [s.fromRun[0]]), pod)
  {
    var h, r := [s.fromRun[0]], s.fromRun[1..];
    assert s.fromRun == h + r;
    OfConcat(h, r, pod);
    OfConcat(s.delivered, h, pod);
    RunMoves(Of(s.emitted, pod), Of(s.delivered, pod), Of(h, pod), Of(r, pod), Of(s.fromDeletes, pod));
  }

  lemma SendFromDeleteInOrder(s: State, i: nat, pod: PodName)
    requires InOrder(s, pod) && i < |s.fromDeletes|
    ensures InOrder(s.(fromDeletes := s.fromDeletes[..i] + s.fromDeletes[i + 1..], delivered := s.delivered + [s.fromDeletes[i]]), pod)
  {
    var a, h, b := s.fromDeletes[..i], [s.fromDeletes[i]], s.fromDeletes[i + 1..];
    assert s.fromDeletes == a + (h + b);
    OfConcat(a, h + b, pod);
    OfConcat(h, b, pod);
    OfConcat(a, b, pod);
    OfConcat(s.delivered, h, pod);
    DeleteMoves(Of(s.emitted, pod), Of(s.delivered, pod), Of(s.fromRun, pod), Of(a, pod), Of(h, pod), Of(b, pod));
  }

  lemma DeleteInOrder(s: State, gone: PodName, pod: PodName)
    requires InOrder(s, pod)
    requires gone == pod ==> Of(s.fromRun, pod) == [] && Of(s.fromDeletes, pod) == []
    ensures InOrder(DeletePod(s, gone), pod)
  {
    if gone in s.stored {
      var u := Update(gone, {}, Adapters(s.stored[gone]));
      OfConcat(s.emitted, [u], pod);
      OfConcat(s.fromDeletes, [u], pod);
      OfOne(u, pod);
      if gone == pod {
        Appended(Of(s.emitted, pod), Of(s.delivered, pod), u);
      } else {
        Unchanged(Of(s.emitted, pod), Of(s.delivered, pod), Of(s.fromRun, pod), Of(s.fromDeletes, pod));
      }
    }
  }

  lemma OfOne(u: Update, pod: PodName)
    ensures Of([u], pod) == if u.pod == pod then [u] else []
  {
    assert Of([u][..0], pod) == [];
  }

  lemma Appended(e: seq<Update>, d: seq<Update>, u: Update)
    requires Ordered(e, d, [], [])
    ensures Ordered(e + [u], d, [], [] + [u])
  {
    assert e == d;
    assert d + [] + ([] + [u]) == d + [u];
  }

  lemma Unchanged(e: seq<Update>, d: seq<Update>, r: seq<Update>, x: seq<Update>)
    requires Ordered(e, d, r, x)
    ensures Ordered(e + [], d, r, x + [])
  {
    assert e + [] == e && x + [] == x;
  }

  lemma CommitInOrder(s: State, seen: map<PodName, Status>, order: seq<PodName>, pod: PodName)
    requires forall i :: 0 <= i < |order| ==> order[i] in s.stored
    requires InOrder(s, pod) && Of(s.fromRun, pod) == [] && Of(s.fromDeletes, pod) == []
    ensures InOrder(Commit(s, seen, order), pod)
  {
    var us := Updates(s.stored, seen, order);
    OfConcat(s.emitted, us, pod);
    OfConcat(s.fromRun, us, pod);
  }

  lemma StepInOrder(s: State, step: Step, s': State, pod: PodName)
    requires InOrder(s, pod) && Steps(s, step, s')
    requires step.Seen? || step == Delete(pod) ==> Of(s.fromRun, pod) == [] && Of(s.fromDeletes, pod) == []
    ensures InOrder(s', pod)
  {
    match step
    case Add(_) =>
    case Look =>
    case Delete(gone) => DeleteInOrder(s, gone, pod);
    case Seen(seen, order) =>
      if !BaseChange(s.stored, seen) {
        CommitInOrder(s, seen, order, pod);
      }
    case SendFromRun => SendFromRunInOrder(s, pod);
    case SendFromDelete(i) => SendFromDeleteInOrder(s, i, pod);
  }

  lemma AllSentIsExact(states: seq<State>, steps: seq<Step>, pod: PodName)
    requires Run(states, steps) && Settled(states, steps, pod) && NoDeletionWhileLooking(states, steps)
    requires states[|steps|].fromRun == [] && states[|steps|].fromDeletes == []
    ensures Replay(states[|steps|].delivered, pod) == Stored(states[|steps|], pod)
  {
    var s := states[|steps|];
    DeliveredInOrder(states, steps, pod, |steps|);
    QuietRunsAreExact(states, steps);
    ReplayOf(s.delivered, pod);
    ReplayOf(s.emitted, pod);
    assert Exact(s);
    assert Of(s.emitted, pod) == Of(s.delivered, pod);
  }

  // ---------------------------------------------------------------------------------------------
  // What the conditions above rule out does happen.

  ghost predicate Reachable(s: State) {
    exists states, steps :: Run(states, steps) && states[|steps|] == s
  }

  lemma Reach(s: State, step: Step, s': State)
    requires Reachable(s) && Steps(s, step, s')
    ensures Reachable(s')
  {
    var states, steps :| Run(states, steps) && states[|steps|] == s;
    var states', steps' := states + [s'], steps + [step];
    forall i | 0 <= i < |steps'| ensures Steps(states'[i], steps'[i], states'[i + 1]) {
      if i < |steps| {
        assert Steps(states[i], steps[i], states[i + 1]);
      }
    }
    assert Run(states', steps') && states'[|steps'|] == s';
  }

  const SEEN := Status("base", {"adapter"})
  const ADD := Update("pod", {"adapter"}, {})
  const REMOVE := Update("pod", {}, {"adapter"})
  const COMMITTED := State(map["pod" := Some(SEEN)], None, false, [ADD], [ADD], [], [])

  lemma LookedAt()
    ensures Reachable(INIT.(stored := map["pod" := None], looking := Some({"pod"})))
  {
    var none: seq<Step> := [];
    assert Run([INIT], none) && [INIT][|none|] == INIT;
    var s := INIT.(stored := map["pod" := None]);
    Reach(INIT, Add("pod"), s);
    assert s.stored.Keys == {"pod"};
    Reach(s, Look, s.(looking := Some({"pod"})));
  }

  /** A pod deleted during the look is stored again, and its adapters are never announced. */
  lemma RevivedPod()
    ensures exists s :: Reachable(s) && Stored(s, "pod") == {"adapter"} && Replay(s.emitted, "pod") == {}
  {
    LookedAt();
    var s := INIT.(stored := map["pod" := None], looking := Some({"pod"}));
    var u := Update("pod", {}, {});
    var deleted := State(map[], Some({"pod"}), false, [u], [], [u], []);
    Reach(s, Delete("pod"), deleted);
    var seen := map["pod" := SEEN];
    assert !BaseChange(deleted.stored, seen);
    var end := Commit(deleted, seen, []);
    Reach(deleted, Seen(seen, []), end);
    assert Stored(end, "pod") == {"adapter"};
    assert Replay([u], "pod") == {};
    assert end.emitted == [u];
  }

  lemma Committed()
    ensures Reachable(COMMITTED)
  {
    LookedAt();
    var s := INIT.(stored := map["pod" := None], looking := Some({"pod"}));
    var seen, order := map["pod" := SEEN], ["pod"];
    assert DiffOf("pod", None, Lookup(seen, "pod")) == Send(ADD);
    assert order[..0] == [];
    assert Updates(s.stored, seen, []) == [];
    assert Updates(s.stored, seen, order) == [] + [ADD] == [ADD];
    assert s.stored.Keys == {"pod"};
    assert AsStored(seen) == map["pod" := Some(SEEN)];
    Reach(s, Seen(seen, order), COMMITTED);
  }

  lemma Overtaken()
    ensures Reachable(State(map[], None, false, [ADD, REMOVE], [], [], [REMOVE, ADD]))
  {
    Committed();
    var deleted := State(map[], None, false, [ADD, REMOVE], [ADD], [REMOVE], []);
    assert DeletePod(COMMITTED, "pod") == deleted;
    Reach(COMMITTED, Delete("pod"), deleted);
    var overtaken := State(map[], None, false, [ADD, REMOVE], [ADD], [], [REMOVE]);
    Reach(deleted, SendFromDelete(0), overtaken);
    Reach(overtaken, SendFromRun, State(map[], None, false, [ADD, REMOVE], [], [], [REMOVE, ADD]));
  }

  /** Updates are sent after the lock is released, so that a deletion can overtake an addition: with
      everything sent, a reader still believes in an adapter of a pod that is gone. */
  lemma OvertakenUpdate()
    ensures exists s :: Reachable(s) && s.fromRun == [] && s.fromDeletes == [] && "pod" !in s.stored
                        && Replay(s.emitted, "pod") == {} && Replay(s.delivered, "pod") == {"adapter"}
  {
    Overtaken();
    ReplayTwo(ADD, REMOVE);
    ReplayTwo(REMOVE, ADD);
  }

  lemma ReplayTwo(u: Update, v: Update)
    requires u.pod == v.pod
    ensures Replay([u, v], v.pod) == u.added - u.removed + v.added - v.removed
  {
    assert [] + [u] == [u] && [u] + [v] == [u, v];
    ReplayOne([], u, v.pod);
    ReplayOne([u], v, v.pod);
  }

  // ---------------------------------------------------------------------------------------------
  // Pods that are forgotten.

  /** A commit replaces all stored pods by those it has seen. */
  ghost predicate Forgets(s: State, step: Step, pod: PodName) {
    step.Seen? && !BaseChange(s.stored, step.seen) && pod !in step.seen
  }

  /** A pod that was added and not deleted stays stored along a run if and only if every commit has seen it:
      neither added during the look, nor unreachable for it. No later look finds a pod that is not stored. */
  lemma {:induction false} StaysStoredIff(states: seq<State>, steps: seq<Step>, pod: PodName, i: nat, n: nat)
    requires Run(states, steps) && i <= n <= |steps| && pod in states[i].stored
    requires forall k :: i <= k < n ==> steps[k] != Delete(pod)
    ensures (forall k :: i <= k <= n ==> pod in states[k].stored) <==> (forall k :: i <= k < n ==> !Forgets(states[k], steps[k], pod))
    decreases n
  {
    if i < n {
      StaysStoredIff(states, steps, pod, i, n - 1);
      assert Steps(states[n - 1], steps[n - 1], states[n]);
      if pod in states[n - 1].stored {
        assert pod in states[n].stored <==> !Forgets(states[n - 1], steps[n - 1], pod);
      }
    }
  }

  /** A pod added during a look is forgotten by its commit. */
  lemma ForgottenPod()
    ensures exists s: State, seen, order ::
      && Enumerates(order, s.stored.Keys) && Reachable(s) && "pod" in s.stored
      && Reachable(Commit(s, seen, order)) && "pod" !in Commit(s, seen, order).stored
  {
    var none: seq<Step> := [];
    assert Run([INIT], none) && [INIT][|none|] == INIT;
    var looking := INIT.(looking := Some({}));
    assert INIT.stored.Keys == {};
    Reach(INIT, Look, looking);
    var added := looking.(stored := map["pod" := None]);
    Reach(looking, Add("pod"), added);
    var seen: map<PodName, Status> := map[];
    assert Enumerates(["pod"], added.stored.Keys) && !BaseChange(added.stored, seen);
    Reach(added, Seen(seen, ["pod"]), Commit(added, seen, ["pod"]));
  }
}
