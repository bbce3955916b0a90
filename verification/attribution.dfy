/**
 When the engines registered through a remote sender are exactly those in its last report. Engines are
 registered by tenant and ID, but what a sender has active is kept by ID alone, so this depends on who
 else uses an ID.
 */
module Attribution {
  import opened Common
  import opened Engines
  import opened Registry

  lemma {:induction false} IdsOfIs(statuses: seq<Status>, t: Tenant, e: EngineId)
    ensures LastOf(statuses, t, e).Some? ==> e in IdsOf(statuses)
    ensures e in IdsOf(statuses) ==> LastOf(statuses, IdsOf(statuses)[e], e).Some?
    decreases |statuses|
  {
    if statuses != [] {
      IdsOfIs(statuses[..|statuses| - 1], t, e);
    }
  }

  /** What one report does to one engine: registered if reported for that tenant, removed if the sender had
      it active for that tenant and does not report the ID at all. */
  lemma ReportAt(s: State, sender: SenderId, statuses: seq<Status>, s': State, t: Tenant, e: EngineId)
    requires Next(s, Report(sender, statuses), s')
    ensures Active(s', sender) == IdsOf(statuses)
    ensures forall other :: other != sender ==> Active(s', other) == Active(s, other)
    ensures Entry(s', t, e) == if LastOf(statuses, t, e).Some? then LastOf(statuses, t, e)
                               else if Is(Active(s, sender), t, e) && e !in IdsOf(statuses) then None
                               else Entry(s, t, e)
  {
    AddAllEntry(s, statuses, t, e);
    IdsOfIs(statuses, t, e);
    assert Entry(s', t, e) == Entry(s'.(active := s.active), t, e);
  }

  /** One report leaves none of the sender's engines behind if and only if every engine that is still
      registered and whose ID it reports again is reported for the tenant it is registered under. */
  lemma ReportExactIff(s: State, sender: SenderId, statuses: seq<Status>, s': State)
    requires Next(s, Report(sender, statuses), s')
    ensures var mine := Active(s, sender);
            (forall e :: e in mine && LastOf(statuses, mine[e], e) == None ==> Entry(s', mine[e], e) == None)
            <==> (forall e :: e in mine && Entry(s, mine[e], e).Some? && e in IdsOf(statuses) ==> LastOf(statuses, mine[e], e).Some?)
  {
    var mine := Active(s, sender);
    forall e | e in mine
      ensures (LastOf(statuses, mine[e], e) == None ==> Entry(s', mine[e], e) == None)
              <==> (Entry(s, mine[e], e).Some? && e in IdsOf(statuses) ==> LastOf(statuses, mine[e], e).Some?)
    {
      ReportAt(s, sender, statuses, s', mine[e], e);
    }
  }

  // ---------------------------------------------------------------------------------------------
  // Runs.

  /** Through whom an engine was last registered. */
  function LastSource(steps: seq<Step>, t: Tenant, e: EngineId): Option<Source> {
    if steps == [] then None
    else
      var last, before := steps[|steps| - 1], LastSource(steps[..|steps| - 1], t, e);
      match last
      case LocalStatus(st) => if st.tenant == t && st.id == e then Some(Local) else before
      case LocalDisconnect(_, _) => before
      case Report(sender, statuses) => if LastOf(statuses, t, e).Some? then Some(Remote(sender)) else before
  }

  /** What a sender has active, which is what it last reported, is exactly what is registered through it. */
  ghost predicate Attributed(s: State, steps: seq<Step>) {
    forall sender, t, e :: AttributedAt(s, steps, sender, t, e)
  }

  ghost predicate AttributedAt(s: State, steps: seq<Step>, sender: SenderId, t: Tenant, e: EngineId) {
    Is(Active(s, sender), t, e) <==> Entry(s, t, e).Some? && LastSource(steps, t, e) == Some(Remote(sender))
  }

  /** A report uses an ID for one tenant that the sender registers or has registered for another. */
  predicate Reassigns(s: State, sender: SenderId, statuses: seq<Status>, t: Tenant, e: EngineId) {
    && e in IdsOf(statuses) && IdsOf(statuses)[e] != t
    && (LastOf(statuses, t, e).Some? || Is(Active(s, sender), t, e))
  }

  /** A report uses an engine that is active for another sender. */
  predicate TakesOver(s: State, sender: SenderId, statuses: seq<Status>, other: SenderId, t: Tenant, e: EngineId) {
    other != sender && Is(Active(s, other), t, e) && LastOf(statuses, t, e).Some?
  }

  ghost predicate Conflicts(s: State, step: Step) {
    match step
    case LocalStatus(st) => exists sender :: Is(Active(s, sender), st.tenant, st.id)
    case LocalDisconnect(t, e) => exists sender :: Is(Active(s, sender), t, e)
    case Report(sender, statuses) =>
      || (exists t, e :: Reassigns(s, sender, statuses, t, e))
      || (exists other, t, e :: TakesOver(s, sender, statuses, other, t, e))
  }

  lemma LastSourceSnoc(steps: seq<Step>, step: Step)
    ensures (steps + [step])[..|steps|] == steps
  {
  }

  lemma LocalAttributedIff(s: State, steps: seq<Step>, step: Step, s': State)
    requires Attributed(s, steps) && Next(s, step, s') && !step.Report?
    ensures Attributed(s', steps + [step]) <==> !Conflicts(s, step)
  {
    LastSourceSnoc(steps, step);
    var u, i := if step.LocalStatus? then step.status.tenant else step.tenant, if step.LocalStatus? then step.status.id else step.id;
    forall sender, t, e ensures AttributedAt(s', steps + [step], sender, t, e) <==> !(t == u && e == i && Is(Active(s, sender), t, e)) {
      assert AttributedAt(s, steps, sender, t, e);
      if step.LocalStatus? {
        AddOrUpdateEntry(s, step.status, t, e);
      }
    }
    if Conflicts(s, step) {
      var sender :| Is(Active(s, sender), u, i);
      assert !AttributedAt(s', steps + [step], sender, u, i);
    }
  }

  lemma ReportAttributedAt(s: State, steps: seq<Step>, sender: SenderId, statuses: seq<Status>, s': State,
                           other: SenderId, t: Tenant, e: EngineId)
    requires Attributed(s, steps) && Next(s, Report(sender, statuses), s')
    ensures AttributedAt(s', steps + [Report(sender, statuses)], other, t, e) <==>
              if other == sender then !Reassigns(s, sender, statuses, t, e) else !TakesOver(s, sender, statuses, other, t, e)
  {
    LastSourceSnoc(steps, Report(sender, statuses));
    assert AttributedAt(s, steps, sender, t, e) && AttributedAt(s, steps, other, t, e);
    ReportAt(s, sender, statuses, s', t, e);
    IdsOfIs(statuses, t, e);
  }

  /** A step keeps registered and reported engines equal for all senders if and only if it uses no engine
      that is active for someone else, and no ID for two tenants. */
  lemma AttributedIff(s: State, steps: seq<Step>, step: Step, s': State)
    requires Attributed(s, steps) && Next(s, step, s')
    ensures Attributed(s', steps + [step]) <==> !Conflicts(s, step)
  {
    if step.Report? {
      var sender, statuses := step.sender, step.statuses;
      forall other, t, e
        ensures AttributedAt(s', steps + [step], other, t, e) <==>
                  if other == sender then !Reassigns(s, sender, statuses, t, e) else !TakesOver(s, sender, statuses, other, t, e)
      {
        ReportAttributedAt(s, steps, sender, statuses, s', other, t, e);
      }
      if exists t, e :: Reassigns(s, sender, statuses, t, e) {
        var t, e :| Reassigns(s, sender, statuses, t, e);
        assert !AttributedAt(s', steps + [step], sender, t, e);
      } else if exists other, t, e :: TakesOver(s, sender, statuses, other, t, e) {
        var other, t, e :| TakesOver(s, sender, statuses, other, t, e);
        assert !AttributedAt(s', steps + [step], other, t, e);
      }
    } else {
      LocalAttributedIff(s, steps, step, s');
    }
  }

  /** Along a run, each sender's registered engines are exactly those in its last report, in every state, if
      and only if no step conflicts. */
  lemma {:induction false} RunAttributedIff(states: seq<State>, steps: seq<Step>, n: nat)
    requires Run(states, steps) && n <= |steps|
    ensures (forall k :: 0 <= k <= n ==> Attributed(states[k], steps[..k])) <==> (forall k :: 0 <= k < n ==> !Conflicts(states[k], steps[k]))
  {
    if n > 0 {
      RunAttributedIff(states, steps, n - 1);
      assert Next(states[n - 1], steps[n - 1], states[n]);
      if Attributed(states[n - 1], steps[..n - 1]) {
        AttributedIff(states[n - 1], steps[..n - 1], steps[n - 1], states[n]);
        assert steps[..n - 1] + [steps[n - 1]] == steps[..n];
      }
    }
  }
}
