/** The processor's table of connected engines, by tenant and engine ID. */
module Engines {

  type EngineId = string
  type Tenant = string
  type Model = string

  /** What the processor keeps of an engine's last status: `models` are the models it reports ready. */
  datatype Engine = Engine(isLocal: bool, ready: bool, models: set<Model>)

  type Table = map<Tenant, map<EngineId, Engine>>

  predicate Registered(t: Table, tenant: Tenant, id: EngineId) {
    tenant in t && id in t[tenant]
  }

  function Put(t: Table, tenant: Tenant, id: EngineId, e: Engine): Table {
    t[tenant := (if tenant in t then t[tenant] else map[])[id := e]]
  }

  function Remove(t: Table, tenant: Tenant, id: EngineId): Table {
    if tenant in t then t[tenant := t[tenant] - {id}] else t
  }
}
