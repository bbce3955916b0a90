/**
 The routing tables of server/internal/router. A route map keeps models to engines, the inverted form
 of what it stands for: each registered engine and the set of its models.
 */
module Router {
  import opened Common
  import opened Engines

  type Inverted = map<Model, set<EngineId>>

  function ModelsOf(m: Inverted, e: EngineId): set<Model> {
    set model | model in m && e in m[model]
  }

  function SetOf(models: seq<Model>): set<Model> {
    set model | model in models
  }

  lemma SetOfSnoc(models: seq<Model>, i: nat)
    requires i < |models|
    ensures SetOf(models[..i + 1]) == SetOf(models[..i]) + {models[i]}
  {
    assert models[..i + 1] == models[..i] + [models[i]];
  }

  /** Adding an engine to a model's set adds the model to the engine's, and nothing else. */
  lemma WithRoute(m: Inverted, model: Model, id: EngineId)
    ensures var m' := m[model := (if model in m then m[model] else {}) + {id}];
            forall e :: ModelsOf(m', e) == if e == id then ModelsOf(m, e) + {model} else ModelsOf(m, e)
  {
  }

  class RouteMap {
    var m: Inverted
    var engines: set<EngineId>

    ghost predicate Valid()
      reads this
    {
      forall model :: model in m ==> m[model] <= engines
    }

    /** The plain form: engines to models. */
    ghost function Plain(): map<EngineId, set<Model>>
      reads this
    {
      map e | e in engines :: ModelsOf(m, e)
    }

    constructor ()
      ensures Valid() && Plain() == map[]
    {
      m, engines := map[], {};
    }

    method GetRoute(model: Model) returns (ids: seq<EngineId>)
      requires Valid()
      ensures forall e :: e in ids <==> e in Plain() && model in Plain()[e]
      ensures forall i, j :: 0 <= i < j < |ids| ==> ids[i] != ids[j]
    {
      var todo := if model in m then m[model] else {};
      ghost var all := todo;
      ids := [];
      while todo != {}
        invariant todo <= all
        invariant forall e :: e in ids <==> e in all - todo
        invariant forall i, j :: 0 <= i < j < |ids| ==> ids[i] != ids[j]
      {
        var e :| e in todo;
        assert all - (todo - {e}) == (all - todo) + {e};
        todo := todo - {e};
        ids := ids + [e];
      }
    }

    method AddRoute(model: Model, engineID: EngineId)
      requires Valid()
      modifies this
      ensures Valid()
      ensures Plain() == old(Plain())[engineID :=
                (if engineID in old(Plain()) then old(Plain())[engineID] else {}) + {model}]
    {
      if model !in m {
        m := m[model := {}];
      }
      m := m[model := m[model] + {engineID}];
      engines := engines + {engineID};
      assert engineID !in old(engines) ==> ModelsOf(old(m), engineID) == {};
      WithRoute(old(m), model, engineID);
      assert m == old(m)[model := (if model in old(m) then old(m)[model] else {}) + {engineID}];
    }

    method DeleteRoute(model: Model, engineID: EngineId)
      requires Valid()
      modifies this
      ensures Valid()
      ensures Plain() == if engineID in old(Plain())
                         then old(Plain())[engineID := old(Plain())[engineID] - {model}] else old(Plain())
    {
      if model !in m {
        assert ModelsOf(m, engineID) - {model} == ModelsOf(m, engineID);
        return;
      }
      m := m[model := m[model] - {engineID}];
      assert forall e :: e != engineID ==> ModelsOf(m, e) == ModelsOf(old(m), e);
      assert ModelsOf(m, engineID) == ModelsOf(old(m), engineID) - {model};
    }

    /** Takes the engine out of every model's set. */
    method Forget(engineID: EngineId)
      requires Valid()
      modifies this`m
      ensures Valid()
      ensures forall e :: ModelsOf(m, e) == if e == engineID then {} else ModelsOf(old(m), e)
    {
      var todo := m.Keys;
      while todo != {}
        invariant todo <= m.Keys == old(m).Keys
        invariant forall k :: k in m ==> m[k] == if k in todo then old(m)[k] else old(m)[k] - {engineID}
      {
        var k :| k in todo;
        m := m[k := m[k] - {engineID}];
        todo := todo - {k};
      }
    }

    method AddOrUpdateEngine(engineID: EngineId, modelIDs: seq<Model>)
      requires Valid()
      modifies this
      ensures Valid()
      ensures Plain() == old(Plain())[engineID := SetOf(modelIDs)]
    {
      Forget(engineID);
      ghost var before := m;
      engines := engines + {engineID};
      for i := 0 to |modelIDs|
        invariant Valid()
        invariant forall e :: ModelsOf(m, e) == if e == engineID then SetOf(modelIDs[..i]) else ModelsOf(before, e)
        invariant engines == old(engines) + {engineID}
      {
        var id := modelIDs[i];
        ghost var prev := m;
        WithRoute(m, id, engineID);
        if id !in m {
          m := m[id := {}];
        }
        m := m[id := m[id] + {engineID}];
        assert m == prev[id := (if id in prev then prev[id] else {}) + {engineID}];
        assert forall e :: ModelsOf(m, e) == if e == engineID then ModelsOf(prev, e) + {id} else ModelsOf(prev, e);
        SetOfSnoc(modelIDs, i);
      }
      assert modelIDs[..|modelIDs|] == modelIDs;
    }

    method DeleteEngine(engineID: EngineId)
      requires Valid()
      modifies this
      ensures Valid()
      ensures Plain() == old(Plain()) - {engineID}
    {
      Forget(engineID);
      engines := engines - {engineID};
      forall model | model in m ensures m[model] <= engines {
        assert model !in ModelsOf(m, engineID);
      }
    }

    /** Fails exactly when every registered engine is ignored; otherwise returns an engine that is not
        ignored, and one with the fewest models unless an engine has the empty ID. */
    method FindLeastLoadedEngine(ignores: set<EngineId>) returns (r: Option<EngineId>)
      requires Valid()
      ensures r == None <==> Plain().Keys <= ignores
      ensures r.Some? ==> r.value in Plain() && r.value !in ignores
      ensures r.Some? && "" !in engines ==>
        forall e :: e in Plain() && e !in ignores ==> |Plain()[r.value]| <= |Plain()[e]|
    {
      var available := engines - ignores;
      if available == {} {
        return None;
      }
      var min, id := 0, "";
      var todo := available;
      ghost var started := false;
      while todo != {}
        invariant todo <= available
        invariant !started ==> todo == available
        invariant started ==> id in available - todo
        invariant started && "" !in engines ==> min == |ModelsOf(m, id)|
        invariant started && "" !in engines ==> forall e :: e in available - todo ==> min <= |ModelsOf(m, e)|
        invariant !started ==> id == ""
      {
        var k :| k in todo;
        var n := |ModelsOf(m, k)|;
        if n < min || id == "" {
          min, id := n, k;
        }
        todo := todo - {k};
        started := true;
      }
      r := Some(id);
    }
  }

  /** The routing tables of all tenants. */
  class R {
    const enableDynamicModelLoading: bool
    var mapsByTenantID: map<Tenant, RouteMap>

    ghost predicate Valid()
      reads this, mapsByTenantID.Values
    {
      && (forall t :: t in mapsByTenantID ==> mapsByTenantID[t].Valid())
      && (forall t, u :: t in mapsByTenantID && u in mapsByTenantID && t != u ==> mapsByTenantID[t] != mapsByTenantID[u])
    }

    /** The engines of a tenant and their models. */
    ghost function Plain(t: Tenant): map<EngineId, set<Model>>
      reads this, mapsByTenantID.Values
    {
      if t in mapsByTenantID then mapsByTenantID[t].Plain() else map[]
    }

    constructor (enableDynamicModelLoading: bool)
      ensures Valid() && mapsByTenantID == map[]
    {
      this.enableDynamicModelLoading := enableDynamicModelLoading;
      mapsByTenantID := map[];
    }

    method AddOrUpdateEngine(engineID: EngineId, tenantID: Tenant, modelIDs: seq<Model>)
      requires Valid()
      modifies this, mapsByTenantID.Values
      ensures Valid() && fresh(mapsByTenantID.Values - old(mapsByTenantID.Values))
      ensures mapsByTenantID.Keys == old(mapsByTenantID.Keys) + {tenantID}
      ensures forall t :: Plain(t) == if t == tenantID then old(Plain(t))[engineID := SetOf(modelIDs)] else old(Plain(t))
    {
      if tenantID !in mapsByTenantID {
        var rm := new RouteMap();
        mapsByTenantID := mapsByTenantID[tenantID := rm];
      }
      mapsByTenantID[tenantID].AddOrUpdateEngine(engineID, modelIDs);
    }

    method DeleteEngine(engineID: EngineId, tenantID: Tenant)
      requires Valid()
      modifies this, mapsByTenantID.Values
      ensures Valid() && mapsByTenantID == old(mapsByTenantID)
      ensures forall t :: Plain(t) == if t == tenantID then old(Plain(t)) - {engineID} else old(Plain(t))
    {
      if tenantID !in mapsByTenantID {
        return;
      }
      mapsByTenantID[tenantID].DeleteEngine(engineID);
    }

    ghost function Serving(modelID: Model, t: Tenant): set<EngineId>
      reads this, mapsByTenantID.Values
    {
      set e | e in Plain(t) && modelID in Plain(t)[e]
    }

    /** The engines that serve the model; if there are none and models are loaded dynamically, one
        engine of the tenant that is not ignored. */
    method GetEnginesForModel(modelID: Model, tenantID: Tenant, ignores: set<EngineId>) returns (r: Option<seq<EngineId>>)
      requires Valid()
      ensures r.Some? ==> r.value != []
      ensures r.Some? ==> forall e :: e in r.value ==> e in Plain(tenantID)
      ensures Serving(modelID, tenantID) != {} ==>
                r.Some? && forall e :: e in r.value <==> e in Serving(modelID, tenantID)
      ensures Serving(modelID, tenantID) == {} ==>
                && (r.Some? <==> enableDynamicModelLoading && !(Plain(tenantID).Keys <= ignores))
                && (r.Some? ==> |r.value| == 1 && r.value[0] !in ignores)
                && (r.Some? && "" !in Plain(tenantID) ==>
                      forall e :: e in Plain(tenantID) && e !in ignores ==> |Plain(tenantID)[r.value[0]]| <= |Plain(tenantID)[e]|)
    {
      if tenantID !in mapsByTenantID {
        return None;
      }
      var routes := mapsByTenantID[tenantID].GetRoute(modelID);
      assert forall e :: e in routes <==> e in Serving(modelID, tenantID);
      if |routes| != 0 {
        assert routes[0] in routes;
        return Some(routes);
      }
      if !enableDynamicModelLoading {
        return None;
      }
      var engine := mapsByTenantID[tenantID].FindLeastLoadedEngine(ignores);
      if engine.None? {
        return None;
      }
      return Some([engine.value]);
    }
  }
}
