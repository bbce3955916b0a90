/**
 The processor's calls one by one. A report is many of them, and those of other senders and of local
 engines come in between.
 */
module Calls {
  import opened Common
  import opened Engines
  import opened Registry

  predicate On(call: Call, t: Tenant, e: EngineId) {
    match call
    case Update(st) => st.tenant == t && st.id == e
    case Drop(tenant, id) => tenant == t && id == e
  }

  /** What the last call on an engine leaves of it; None if there is no call on it. */
  function LastCall(calls: seq<Call>, t: Tenant, e: EngineId): Option<Option<Engine>> {
    if calls == [] then None
    else if On(calls[|calls| - 1], t, e) then
      Some(if calls[|calls| - 1].Update? then Some(calls[|calls| - 1].status.engine) else None)
    else LastCall(calls[..|calls| - 1], t, e)
  }

  lemma CallKeepsAgreement(s: State, call: Call)
    requires Agree(s)
    ensures Agree(CallOne(s, call))
  {
    StepKeepsAgreement(s, if call.Update? then LocalStatus(call.status) else LocalDisconnect(call.tenant, call.id), CallOne(s, call));
  }

  /** After any sequence of calls, whoever makes them, so also in the middle of a report: an engine is
      registered as its last call left it, and the router knows exactly the ready ones with exactly their
      ready models. */
  lemma {:induction false} EntryIsLastCall(s: State, calls: seq<Call>, t: Tenant, e: EngineId)
    requires Agree(s)
    ensures var s', last := CallAll(s, calls), LastCall(calls, t, e);
            && Entry(s', t, e) == (if last.Some? then last.value else Entry(s, t, e))
            && Agree(s') && Route(s', t, e) == Routed(Entry(s', t, e))
  {
    if calls != [] {
      var before, call := calls[..|calls| - 1], calls[|calls| - 1];
      EntryIsLastCall(s, before, t, e);
      CallKeepsAgreement(CallAll(s, before), call);
      if call.Update? {
        AddOrUpdateEntry(CallAll(s, before), call.status, t, e);
      }
      assert Route(CallAll(s, calls), t, e) == Routed(Entry(CallAll(s, calls), t, e));
    } else {
      assert Route(s, t, e) == Routed(Entry(s, t, e));
    }
  }

  /** The calls with one of two marks, in their order. */
  function Part(calls: seq<Call>, marks: seq<bool>, mark: bool): seq<Call>
    requires |calls| == |marks|
  {
    if calls == [] then []
    else
      var before := Part(calls[..|calls| - 1], marks[..|marks| - 1], mark);
      if marks[|marks| - 1] == mark then before + [calls[|calls| - 1]] else before
  }

  lemma {:induction false} LastOfPart(calls: seq<Call>, marks: seq<bool>, t: Tenant, e: EngineId)
    requires |calls| == |marks| && forall i :: 0 <= i < |calls| && !marks[i] ==> !On(calls[i], t, e)
    ensures LastCall(calls, t, e) == LastCall(Part(calls, marks, true), t, e)
  {
    if calls != [] {
      var call, before := calls[|calls| - 1], Part(calls[..|calls| - 1], marks[..|marks| - 1], true);
      LastOfPart(calls[..|calls| - 1], marks[..|marks| - 1], t, e);
      assert (before + [call])[..|before|] == before;
    }
  }

  /** However the calls of a report (marked) interleave with those of others: an engine that no other call is
      about ends up as if the report were alone. */
  lemma InterleavedReport(s: State, calls: seq<Call>, marks: seq<bool>, t: Tenant, e: EngineId)
    requires Agree(s) && |calls| == |marks| && forall i :: 0 <= i < |calls| && !marks[i] ==> !On(calls[i], t, e)
    ensures var s', alone := CallAll(s, calls), CallAll(s, Part(calls, marks, true));
            Entry(s', t, e) == Entry(alone, t, e) && Route(s', t, e) == Route(alone, t, e)
  {
    LastOfPart(calls, marks, t, e);
    EntryIsLastCall(s, calls, t, e);
    EntryIsLastCall(s, Part(calls, marks, true), t, e);
  }
}
