/**
 The indexes that must agree: the processor's engine table, the router's tables, and what each remote
 task sender believes it has registered. Engine statuses come from local engine streams and from the
 reports of remote servers (server/internal/taskexchanger).
 */
module Registry {
  import opened Common
  import opened Engines
  import opened Router

  type SenderId = string

  datatype Status = Status(tenant: Tenant, id: EngineId, engine: Engine)

  /** `router` is the plain form of the routing tables: engines to models, by tenant. `active` is each
      sender's map from engine ID to tenant. */
  datatype State = State(
    table: Table, router: Routing, active: ActiveMap)

  const INIT := State(map[], map[], map[])

  function Routes(s: State, t: Tenant): map<EngineId, set<Model>> {
    if t in s.router then s.router[t] else map[]
  }

  type ActiveMap = map<SenderId, map<EngineId, Tenant>>

  type Routing = map<Tenant, map<EngineId, set<Model>>>

  function WithRoutes(r: Routing, t: Tenant, e: EngineId, models: set<Model>): Routing {
    r[t := (if t in r then r[t] else map[])[e := models]]
  }

  function WithoutRoutes(r: Routing, t: Tenant, e: EngineId): Routing {
    if t in r then r[t := r[t] - {e}] else r
  }

  /** The processor takes a status: the engine is registered, and routed to only if it is ready. */
  function AddOrUpdate(s: State, st: Status): State {
    s.(table := Put(s.table, st.tenant, st.id, st.engine),
       router := if st.engine.ready then WithRoutes(s.router, st.tenant, st.id, st.engine.models)
                 else WithoutRoutes(s.router, st.tenant, st.id))
  }

  function WithoutEngine(s: State, t: Tenant, e: EngineId): State {
    if t in s.table then s.(table := Remove(s.table, t, e), router := WithoutRoutes(s.router, t, e)) else s
  }

  function AddAll(s: State, statuses: seq<Status>): State {
    if statuses == [] then s else AddOrUpdate(AddAll(s, statuses[..|statuses| - 1]), statuses[|statuses| - 1])
  }

  function IdsOf(statuses: seq<Status>): map<EngineId, Tenant> {
    if statuses == [] then map[]
    else IdsOf(statuses[..|statuses| - 1])[statuses[|statuses| - 1].id := statuses[|statuses| - 1].tenant]
  }

  function Active(s: State, sender: SenderId): map<EngineId, Tenant> {
    if sender in s.active then s.active[sender] else map[]
  }

  /** What the processor and the router say about one engine of one tenant. */
  function Entry(s: State, t: Tenant, e: EngineId): Option<Engine> {
    if Registered(s.table, t, e) then Some(s.table[t][e]) else None
  }

  function Route(s: State, t: Tenant, e: EngineId): Option<set<Model>> {
    Lookup(Routes(s, t), e)
  }

  predicate Is(gone: map<EngineId, Tenant>, t: Tenant, e: EngineId) {
    e in gone && gone[e] == t
  }

  /** `s'` is `s` without the engines of `gone`, each under the tenant it was registered for. */
  ghost predicate RemovedAll(s: State, gone: map<EngineId, Tenant>, s': State) {
    && s'.active == s.active && s'.table.Keys == s.table.Keys
    && (forall t, e :: Entry(s', t, e) == if Is(gone, t, e) then None else Entry(s, t, e))
    && (forall t, e :: Route(s', t, e) == if Is(gone, t, e) && t in s.table then None else Route(s, t, e))
  }

  lemma RemoveOne(s: State, gone: map<EngineId, Tenant>, s': State, id: EngineId, t: Tenant)
    requires RemovedAll(s, gone, s')
    ensures RemovedAll(s, gone[id := t], WithoutEngine(s', t, id)) || (id in gone && gone[id] != t)
  {
    if id !in gone || gone[id] == t {
      var s2, gone2 := WithoutEngine(s', t, id), gone[id := t];
      forall u, e ensures Entry(s2, u, e) == if Is(gone2, u, e) then None else Entry(s, u, e) {
        assert Entry(s', u, e) == if Is(gone, u, e) then None else Entry(s, u, e);
      }
      forall u, e ensures Route(s2, u, e) == if Is(gone2, u, e) && u in s.table then None else Route(s, u, e) {
        assert Route(s', u, e) == if Is(gone, u, e) && u in s.table then None else Route(s, u, e);
      }
    }
  }

  /** A call of the processor, which is one critical section. */
  datatype Call = Update(status: Status) | Drop(tenant: Tenant, id: EngineId)

  function CallOne(s: State, call: Call): State {
    match call
    case Update(st) => AddOrUpdate(s, st)
    case Drop(t, e) => WithoutEngine(s, t, e)
  }

  function CallAll(s: State, calls: seq<Call>): State {
    if calls == [] then s else CallOne(CallAll(s, calls[..|calls| - 1]), calls[|calls| - 1])
  }

  function Updates(statuses: seq<Status>): seq<Call> {
    if statuses == [] then [] else Updates(statuses[..|statuses| - 1]) + [Update(statuses[|statuses| - 1])]
  }

  lemma CallSnoc(s: State, calls: seq<Call>, call: Call)
    ensures CallAll(s, calls + [call]) == CallOne(CallAll(s, calls), call)
  {
    assert (calls + [call])[..|calls|] == calls;
  }

  lemma {:induction false} AddAllIsCalls(s: State, statuses: seq<Status>)
    ensures CallAll(s, Updates(statuses)) == AddAll(s, statuses)
  {
    if statuses != [] {
      AddAllIsCalls(s, statuses[..|statuses| - 1]);
      CallSnoc(s, Updates(statuses[..|statuses| - 1]), Update(statuses[|statuses| - 1]));
    }
  }

  lemma {:induction false} CallConcat(s: State, a: seq<Call>, b: seq<Call>)
    ensures CallAll(s, a + b) == CallAll(CallAll(s, a), b)
  {
    if b == [] {
      assert a + b == a;
    } else {
      CallConcat(s, a, b[..|b| - 1]);
      assert a + b == (a + b[..|b| - 1]) + [b[|b| - 1]];
      CallSnoc(s, a + b[..|b| - 1], b[|b| - 1]);
    }
  }

  /** Each engine of `gone` is dropped once, in any order. */
  ghost predicate DropsOf(calls: seq<Call>, gone: map<EngineId, Tenant>) {
    && (forall i :: 0 <= i < |calls| ==> calls[i].Drop? && Is(gone, calls[i].tenant, calls[i].id))
    && (forall i, j :: 0 <= i < j < |calls| ==> calls[i] != calls[j])
    && (forall e :: e in gone ==> Drop(gone[e], e) in calls)
  }

  /** The processor's engine table and the router it keeps up to date. */
  class EngineTables {
    var table: Table
    const router: R

    /** The plain form of the routing tables, which are kept inverted. */
    ghost function AllRoutes(): Routing
      reads router, router.mapsByTenantID.Values
    {
      map t | t in router.mapsByTenantID :: router.Plain(t)
    }

    ghost function Now(): State
      reads this, router, router.mapsByTenantID.Values
    {
      State(table, AllRoutes(), map[])
    }

    ghost predicate Valid()
      reads this, router, router.mapsByTenantID.Values
    {
      router.Valid()
    }

    constructor (enableDynamicModelLoading: bool)
      ensures Valid() && Now() == INIT && fresh(router) && fresh(router.mapsByTenantID.Values)
    {
      table := map[];
      router := new R(enableDynamicModelLoading);
    }

    method RouteTo(st: Status)
      requires Valid()
      modifies router, router.mapsByTenantID.Values
      ensures Valid() && fresh(router.mapsByTenantID.Values - old(router.mapsByTenantID.Values))
      ensures AllRoutes() == WithRoutes(old(AllRoutes()), st.tenant, st.id, st.engine.models)
    {
      var modelIDs := ListOf(st.engine.models);
      router.AddOrUpdateEngine(st.id, st.tenant, modelIDs);
    }

    method Unroute(id: EngineId, tenant: Tenant)
      requires Valid()
      modifies router, router.mapsByTenantID.Values
      ensures Valid() && router.mapsByTenantID == old(router.mapsByTenantID)
      ensures AllRoutes() == WithoutRoutes(old(AllRoutes()), tenant, id)
    {
      router.DeleteEngine(id, tenant);
    }

    /** Only ready engines are routed to. */
    method UpdateRouter(st: Status)
      requires Valid()
      modifies router, router.mapsByTenantID.Values
      ensures Valid() && fresh(router.mapsByTenantID.Values - old(router.mapsByTenantID.Values))
      ensures AllRoutes() == AddOrUpdate(old(Now()), st).router
    {
      if st.engine.ready {
        RouteTo(st);
      } else {
        Unroute(st.id, st.tenant);
      }
    }

    method AddOrUpdateEngineStatus(st: Status)
      requires Valid()
      modifies this, router, router.mapsByTenantID.Values
      ensures Valid() && fresh(router.mapsByTenantID.Values - old(router.mapsByTenantID.Values))
      ensures Now() == AddOrUpdate(old(Now()), st)
    {
      UpdateRouter(st);
      if st.tenant !in table {
        table := table[st.tenant := map[]];
      }
      table := table[st.tenant := table[st.tenant][st.id := st.engine]];
      assert table == Put(old(table), st.tenant, st.id, st.engine);
    }

    method RemoveEngine(id: EngineId, tenant: Tenant)
      requires Valid()
      modifies this, router, router.mapsByTenantID.Values
      ensures Valid() && fresh(router.mapsByTenantID.Values - old(router.mapsByTenantID.Values))
      ensures Now() == WithoutEngine(old(Now()), tenant, id)
    {
      if tenant in table {
        Unroute(id, tenant);
        table := table[tenant := table[tenant] - {id}];
      }
    }

    method AddAllStatuses(statuses: seq<Status>) returns (engines: map<EngineId, Tenant>)
      requires Valid()
      modifies this, router, router.mapsByTenantID.Values
      ensures Valid() && fresh(router.mapsByTenantID.Values - old(router.mapsByTenantID.Values))
      ensures Now() == AddAll(old(Now()), statuses) && engines == IdsOf(statuses)
    {
      engines := map[];
      for i := 0 to |statuses|
        invariant Valid() && fresh(router.mapsByTenantID.Values - old(router.mapsByTenantID.Values))
        invariant Now() == AddAll(old(Now()), statuses[..i]) && engines == IdsOf(statuses[..i])
      {
        assert statuses[..i + 1][..i] == statuses[..i];
        AddOrUpdateEngineStatus(statuses[i]);
        engines := engines[statuses[i].id := statuses[i].tenant];
      }
      assert statuses[..|statuses|] == statuses;
    }

    method RemoveAll(gone: map<EngineId, Tenant>) returns (ghost calls: seq<Call>)
      requires Valid()
      modifies this, router, router.mapsByTenantID.Values
      ensures Valid() && fresh(router.mapsByTenantID.Values - old(router.mapsByTenantID.Values))
      ensures RemovedAll(old(Now()), gone, Now())
      ensures DropsOf(calls, gone) && Now() == CallAll(old(Now()), calls)
    {
      var todo := gone.Keys;
      calls := [];
      while todo != {}
        invariant Valid() && fresh(router.mapsByTenantID.Values - old(router.mapsByTenantID.Values))
        invariant todo <= gone.Keys
        invariant Dropped(old(Now()), calls, gone - todo, Now())
      {
        var id :| id in todo;
        DropOne(old(Now()), calls, gone, todo, Now(), id);
        RemoveEngine(id, gone[id]);
        calls := calls + [Drop(gone[id], id)];
        todo := todo - {id};
      }
      assert gone - todo == gone;
    }

    /** The engines that a task can be scheduled on are ready engines of the table, in the same state;
        that the router agrees with the table is what every run keeps. */
    method GetEnginesForModel(modelID: Model, tenantID: Tenant, ignores: set<EngineId>) returns (r: Option<seq<EngineId>>)
      requires Valid() && Agree(Now())
      ensures r.Some? ==> r.value != []
      ensures r.Some? ==> forall e :: e in r.value ==> Registered(table, tenantID, e) && table[tenantID][e].ready
    {
      r := router.GetEnginesForModel(modelID, tenantID, ignores);
      if r.Some? {
        forall e | e in r.value ensures Registered(table, tenantID, e) && table[tenantID][e].ready {
          assert Route(Now(), tenantID, e) == Some(router.Plain(tenantID)[e]);
        }
      }
    }
  }

  ghost predicate Dropped(s: State, calls: seq<Call>, gone: map<EngineId, Tenant>, s': State) {
    RemovedAll(s, gone, s') && DropsOf(calls, gone) && s' == CallAll(s, calls)
  }

  lemma DropOne(s: State, calls: seq<Call>, gone: map<EngineId, Tenant>, todo: set<EngineId>, s': State, id: EngineId)
    requires todo <= gone.Keys && id in todo && Dropped(s, calls, gone - todo, s')
    ensures Dropped(s, calls + [Drop(gone[id], id)], gone - (todo - {id}), WithoutEngine(s', gone[id], id))
  {
    RemoveOne(s, gone - todo, s', id, gone[id]);
    CallSnoc(s, calls, Drop(gone[id], id));
    OneMoreDrop(calls, gone, todo, id);
    assert (gone - todo)[id := gone[id]] == gone - (todo - {id});
  }

  lemma OneMoreDrop(calls: seq<Call>, gone: map<EngineId, Tenant>, todo: set<EngineId>, id: EngineId)
    requires todo <= gone.Keys && id in todo && DropsOf(calls, gone - todo)
    ensures DropsOf(calls + [Drop(gone[id], id)], gone - (todo - {id}))
  {
    var last := Drop(gone[id], id);
    var calls', gone' := calls + [last], gone - (todo - {id});
    forall i | 0 <= i < |calls| ensures Is(gone', calls[i].tenant, calls[i].id) && calls[i] != last {
      assert Is(gone - todo, calls[i].tenant, calls[i].id);
    }
    forall e | e in gone' ensures Drop(gone'[e], e) in calls' {
      if e == id {
        assert calls'[|calls|] == last;
      } else {
        assert e in gone - todo && Drop((gone - todo)[e], e) in calls;
      }
    }
  }

  method ListOf(models: set<Model>) returns (ids: seq<Model>)
    ensures SetOf(ids) == models
  {
    var rest := models;
    ids := [];
    while rest != {}
      invariant rest <= models && SetOf(ids) == models - rest
      decreases rest
    {
      var id :| id in rest;
      SetOfSnoc(ids + [id], |ids|);
      assert (ids + [id])[..|ids|] == ids && (ids + [id])[..|ids| + 1] == ids + [id];
      ids, rest := ids + [id], rest - {id};
    }
  }

  /** The calls of one report: an update for each status, then a drop for each engine that was active and is
      not reported. */
  ghost predicate IsReport(calls: seq<Call>, statuses: seq<Status>, mine: map<EngineId, Tenant>) {
    && |Updates(statuses)| <= |calls| && calls[..|Updates(statuses)|] == Updates(statuses)
    && DropsOf(calls[|Updates(statuses)|..], mine - IdsOf(statuses).Keys)
  }

  /** The remote senders and the engines each has active. */
  class TaskSenders {
    const tables: EngineTables
    var active: ActiveMap

    ghost function Now(): State
      reads this, tables, tables.router, tables.router.mapsByTenantID.Values
    {
      tables.Now().(active := active)
    }

    constructor (tables: EngineTables)
      ensures this.tables == tables && active == map[]
    {
      this.tables, active := tables, map[];
    }

    /** A remote sender reports its engines: register them all, then drop those it had and no longer
        reports. An empty report drops everything. `calls` are the calls of the processor it makes. */
    method AddOrUpdateEngines(sender: SenderId, statuses: seq<Status>) returns (ghost calls: seq<Call>)
      requires tables.Valid()
      modifies this, tables, tables.router, tables.router.mapsByTenantID.Values
      ensures tables.Valid() && fresh(tables.router.mapsByTenantID.Values - old(tables.router.mapsByTenantID.Values))
      ensures Next(old(Now()), Report(sender, statuses), Now())
      ensures IsReport(calls, statuses, Active(old(Now()), sender))
      ensures tables.Now() == CallAll(old(tables.Now()), calls)
    {
      var engines := tables.AddAllStatuses(statuses);
      var mine := if sender in active then active[sender] else map[];
      ghost var added := tables.Now();
      ghost var drops := tables.RemoveAll(mine - engines.Keys);
      active := active[sender := engines];
      calls := Updates(statuses) + drops;
      AddAllIsCalls(old(tables.Now()), statuses);
      CallConcat(old(tables.Now()), Updates(statuses), drops);
      assert calls[|Updates(statuses)|..] == drops && calls[..|Updates(statuses)|] == Updates(statuses);
      ReportIsNext(old(tables.Now()), old(active), sender, statuses, added, tables.Now());
    }
  }

  lemma ReportIsNext(s: State, active: ActiveMap, sender: SenderId, statuses: seq<Status>,
                     added: State, s': State)
    requires added == AddAll(s, statuses)
    requires RemovedAll(added, (if sender in active then active[sender] else map[]) - IdsOf(statuses).Keys, s')
    ensures Next(s.(active := active), Report(sender, statuses), s'.(active := active[sender := IdsOf(statuses)]))
  {
    AddAllIgnoresActive(s, active, statuses);
    var gone := Active(s.(active := active), sender) - IdsOf(statuses).Keys;
    RemovedAllIgnoresActive(added, gone, s', active);
  }

  lemma RemovedAllIgnoresActive(s: State, gone: map<EngineId, Tenant>, s': State, active: ActiveMap)
    requires RemovedAll(s, gone, s')
    ensures RemovedAll(s.(active := active), gone, s'.(active := active))
  {
    var s1, s2 := s.(active := active), s'.(active := active);
    forall t, e ensures Entry(s2, t, e) == if Is(gone, t, e) then None else Entry(s1, t, e) {
      assert Entry(s', t, e) == if Is(gone, t, e) then None else Entry(s, t, e);
    }
    forall t, e ensures Route(s2, t, e) == if Is(gone, t, e) && t in s1.table then None else Route(s1, t, e) {
      assert Route(s', t, e) == if Is(gone, t, e) && t in s.table then None else Route(s, t, e);
    }
  }

  /** What senders have active plays no part in registering engines. */
  lemma {:induction false} AddAllIgnoresActive(s: State, active: ActiveMap, statuses: seq<Status>)
    ensures AddAll(s.(active := active), statuses) == AddAll(s, statuses).(active := active)
  {
    if statuses != [] {
      AddAllIgnoresActive(s, active, statuses[..|statuses| - 1]);
    }
  }

  // ---------------------------------------------------------------------------------------------
  // Runs.

  datatype Step =
    | LocalStatus(status: Status)
    | LocalDisconnect(tenant: Tenant, id: EngineId)
    | Report(sender: SenderId, statuses: seq<Status>)

  ghost predicate Next(s: State, step: Step, s': State) {
    match step
    case LocalStatus(st) => s' == AddOrUpdate(s, st)
    case LocalDisconnect(t, e) => s' == WithoutEngine(s, t, e)
    case Report(sender, statuses) =>
      && s'.active == s.active[sender := IdsOf(statuses)]
      && RemovedAll(AddAll(s, statuses), Active(s, sender) - IdsOf(statuses).Keys, s'.(active := s.active))
  }

  ghost predicate Run(states: seq<State>, steps: seq<Step>) {
    && |states| == |steps| + 1 && states[0] == INIT
    && forall i :: 0 <= i < |steps| ==> Next(states[i], steps[i], states[i + 1])
  }

  /** The router knows exactly the ready engines, with exactly their ready models. */
  ghost predicate Agree(s: State) {
    forall t, e :: Route(s, t, e) == Routed(Entry(s, t, e))
  }

  function Routed(e: Option<Engine>): Option<set<Model>> {
    if e.Some? && e.value.ready then Some(e.value.models) else None
  }

  lemma AddOrUpdateEntry(s: State, st: Status, t: Tenant, e: EngineId)
    ensures var s' := AddOrUpdate(s, st);
            && Entry(s', t, e) == (if t == st.tenant && e == st.id then Some(st.engine) else Entry(s, t, e))
            && Route(s', t, e) == (if t == st.tenant && e == st.id then Routed(Some(st.engine)) else Route(s, t, e))
  {
  }

  /** The last status a report holds for an engine. */
  function LastOf(statuses: seq<Status>, t: Tenant, e: EngineId): Option<Engine> {
    if statuses == [] then None
    else
      var st := statuses[|statuses| - 1];
      if st.tenant == t && st.id == e then Some(st.engine) else LastOf(statuses[..|statuses| - 1], t, e)
  }

  lemma {:induction false} AddAllEntry(s: State, statuses: seq<Status>, t: Tenant, e: EngineId)
    ensures var s', last := AddAll(s, statuses), LastOf(statuses, t, e);
            && s'.active == s.active
            && Entry(s', t, e) == (if last.Some? then last else Entry(s, t, e))
            && Route(s', t, e) == (if last.Some? then Routed(last) else Route(s, t, e))
    decreases |statuses|
  {
    if statuses != [] {
      AddAllEntry(s, statuses[..|statuses| - 1], t, e);
      AddOrUpdateEntry(AddAll(s, statuses[..|statuses| - 1]), statuses[|statuses| - 1], t, e);
    }
  }

  /** Whatever the statuses are and wherever they come from, the router and the table keep agreeing. */
  lemma StepKeepsAgreement(s: State, step: Step, s': State)
    requires Agree(s) && Next(s, step, s')
    ensures Agree(s')
  {
    forall t, e ensures Route(s', t, e) == Routed(Entry(s', t, e)) {
      assert Route(s, t, e) == Routed(Entry(s, t, e));
      if step.LocalStatus? {
        AddOrUpdateEntry(s, step.status, t, e);
      } else if step.Report? {
        AddAllEntry(s, step.statuses, t, e);
        assert Entry(s', t, e) == Entry(s'.(active := s.active), t, e);
        assert Route(s', t, e) == Route(s'.(active := s.active), t, e);
      }
    }
  }

  // ---------------------------------------------------------------------------------------------
  // What senders believe, when every engine ID belongs to one tenant and one source.

  datatype Source = Local | Remote(sender: SenderId)

  datatype Owner = Owner(tenant: Tenant, source: Source)

  type Owners = EngineId -> Owner

  ghost predicate Conforms(owners: Owners, step: Step) {
    && (step.LocalStatus? ==> owners(step.status.id) == Owner(step.status.tenant, Local))
    && (step.LocalDisconnect? ==> owners(step.id) == Owner(step.tenant, Local))
    && (step.Report? ==> AllFrom(owners, step.sender, step.statuses))
  }

  ghost predicate AllFrom(owners: Owners, sender: SenderId, statuses: seq<Status>) {
    forall i :: 0 <= i < |statuses| ==> owners(statuses[i].id) == Owner(statuses[i].tenant, Remote(sender))
  }

  /** Every registered engine is registered under its tenant, and is active for its sender if and only
      if it is remote. */
  ghost predicate Tracked(owners: Owners, s: State) {
    && (forall t, e :: Entry(s, t, e).Some? ==> t == owners(e).tenant)
    && (forall sender, e :: e in Active(s, sender) <==>
          owners(e).source == Remote(sender) && Entry(s, owners(e).tenant, e).Some?)
    && (forall sender, e :: e in Active(s, sender) ==> Active(s, sender)[e] == owners(e).tenant)
  }

  lemma {:induction false} IdsOfReport(owners: Owners, sender: SenderId, statuses: seq<Status>, t: Tenant, e: EngineId)
    requires AllFrom(owners, sender, statuses)
    ensures e in IdsOf(statuses) ==> owners(e) == Owner(IdsOf(statuses)[e], Remote(sender))
    ensures LastOf(statuses, t, e).Some? <==> e in IdsOf(statuses) && t == owners(e).tenant
    decreases |statuses|
  {
    if statuses != [] {
      IdsOfReport(owners, sender, statuses[..|statuses| - 1], t, e);
    }
  }

  /** After a report, the sender's registered engines are exactly those it reported, with their last
      statuses; everyone else's are untouched. */
  lemma ReportIsExact(owners: Owners, s: State, sender: SenderId, statuses: seq<Status>, s': State, t: Tenant, e: EngineId)
    requires Tracked(owners, s) && Conforms(owners, Report(sender, statuses)) && Next(s, Report(sender, statuses), s')
    ensures owners(e).source == Remote(sender) ==> Entry(s', t, e) == LastOf(statuses, t, e)
    ensures owners(e).source != Remote(sender) ==> Entry(s', t, e) == Entry(s, t, e)
  {
    AddAllEntry(s, statuses, t, e);
    IdsOfReport(owners, sender, statuses, t, e);
    assert Entry(s', t, e) == Entry(s'.(active := s.active), t, e);
  }

  lemma StepKeepsTracking(owners: Owners, s: State, step: Step, s': State)
    requires Tracked(owners, s) && Conforms(owners, step) && Next(s, step, s')
    ensures Tracked(owners, s')
  {
    forall t, e ensures Entry(s', t, e).Some? ==> t == owners(e).tenant {
      StepAt(owners, s, step, s', t, e);
    }
    forall sender, e
      ensures e in Active(s', sender) <==> owners(e).source == Remote(sender) && Entry(s', owners(e).tenant, e).Some?
      ensures e in Active(s', sender) ==> Active(s', sender)[e] == owners(e).tenant
    {
      ActiveAt(owners, s, step, s', sender, e);
    }
  }

  lemma ActiveAt(owners: Owners, s: State, step: Step, s': State, sender: SenderId, e: EngineId)
    requires Tracked(owners, s) && Conforms(owners, step) && Next(s, step, s')
    ensures e in Active(s', sender) <==> owners(e).source == Remote(sender) && Entry(s', owners(e).tenant, e).Some?
    ensures e in Active(s', sender) ==> Active(s', sender)[e] == owners(e).tenant
  {
    StepAt(owners, s, step, s', owners(e).tenant, e);
    assert e in Active(s, sender) <==> owners(e).source == Remote(sender) && Entry(s, owners(e).tenant, e).Some?;
    if step.Report? && step.sender == sender {
      IdsOfReport(owners, sender, step.statuses, owners(e).tenant, e);
      assert Active(s', sender) == IdsOf(step.statuses);
    } else {
      assert Active(s', sender) == Active(s, sender);
    }
  }

  lemma StepAt(owners: Owners, s: State, step: Step, s': State, t: Tenant, e: EngineId)
    requires Tracked(owners, s) && Conforms(owners, step) && Next(s, step, s')
    ensures step.LocalStatus? ==>
              Entry(s', t, e) == if t == step.status.tenant && e == step.status.id then Some(step.status.engine) else Entry(s, t, e)
    ensures step.LocalDisconnect? ==> Entry(s', t, e) == if t == step.tenant && e == step.id then None else Entry(s, t, e)
    ensures step.Report? ==>
              Entry(s', t, e) == if owners(e).source == Remote(step.sender) then LastOf(step.statuses, t, e) else Entry(s, t, e)
    ensures step.Report? && LastOf(step.statuses, t, e).Some? ==> t == owners(e).tenant
  {
    if step.LocalStatus? {
      AddOrUpdateEntry(s, step.status, t, e);
    } else if step.Report? {
      ReportIsExact(owners, s, step.sender, step.statuses, s', t, e);
      IdsOfReport(owners, step.sender, step.statuses, t, e);
    }
  }

  /** After any run, the router agrees with the table, so it never names an engine the processor does
      not know; and if every engine ID has one owner, each
      sender's active engines are exactly its registered ones. */
  lemma {:induction false} RunKeepsIndexes(owners: Owners, states: seq<State>, steps: seq<Step>, i: nat)
    requires Run(states, steps) && i < |states|
    ensures Agree(states[i])
    ensures forall t, e :: Route(states[i], t, e).Some? ==> Registered(states[i].table, t, e) && states[i].table[t][e].ready
    ensures (forall j :: 0 <= j < |steps| ==> Conforms(owners, steps[j])) ==> Tracked(owners, states[i])
  {
    if i > 0 {
      RunKeepsIndexes(owners, states, steps, i - 1);
      StepKeepsAgreement(states[i - 1], steps[i - 1], states[i]);
      if forall j :: 0 <= j < |steps| ==> Conforms(owners, steps[j]) {
        StepKeepsTracking(owners, states[i - 1], steps[i - 1], states[i]);
      }
    }
  }

  /** Without single ownership the last part fails: an engine ID that a sender reports for another
      tenant in its next report stays registered for the first one. */
  lemma SharedIdStaysRegistered(sender: SenderId, t: Tenant, u: Tenant, e: EngineId, engine: Engine, s1: State, s2: State)
    requires t != u
    requires Next(INIT, Report(sender, [Status(t, e, engine)]), s1)
    requires Next(s1, Report(sender, [Status(u, e, engine)]), s2)
    ensures Active(s2, sender) == map[e := u] && Entry(s2, t, e) == Some(engine)
  {
    var r1, r2 := [Status(t, e, engine)], [Status(u, e, engine)];
    assert r1[..0] == [] && r2[..0] == [];
    assert IdsOf(r1) == map[e := t] && IdsOf(r2) == map[e := u];
    AddAllEntry(INIT, r1, t, e);
    AddAllEntry(s1, r2, t, e);
    assert LastOf(r1, t, e) == Some(engine);
    assert LastOf(r2, t, e) == None;
    assert Entry(s1, t, e) == Entry(s1.(active := INIT.active), t, e);
    assert Entry(s2, t, e) == Entry(s2.(active := s1.active), t, e);
    assert Active(s1, sender) - IdsOf(r2).Keys == map[];
  }
}
