/**
 The processor object of server/internal/infprocessor. Its methods are the mutex-held sections and
 channel operations of the task protocol; each is proved to take exactly one step of the state
 machine in module Tasks.

 Task objects live in the table `tasks` under their identity, so that a stale copy in the queue and the
 in-progress map can refer to the same object. The engine table and the router are one object, which
 the sections for engines update together.
 */
module Processor {
  import opened Common
  import opened Engines
  import opened Tasks
  import Registry

  /** The number of in-progress tasks, among some IDs, that are assigned to an engine. */
  ghost function LoadOf(tasks: map<Ref, Task>, inProgress: map<TaskId, Ref>, ids: set<TaskId>, e: EngineId): nat {
    |set id | id in ids && AssignedTo(tasks, inProgress, id, e)|
  }

  ghost function Load(tasks: map<Ref, Task>, inProgress: map<TaskId, Ref>, e: EngineId): nat {
    LoadOf(tasks, inProgress, inProgress.Keys, e)
  }

  lemma LoadStep(tasks: map<Ref, Task>, inProgress: map<TaskId, Ref>, done: set<TaskId>, id: TaskId, e: EngineId)
    requires id in inProgress && inProgress[id] in tasks && id !in done
    ensures LoadOf(tasks, inProgress, done + {id}, e)
         == LoadOf(tasks, inProgress, done, e) + (if tasks[inProgress[id]].engine == e then 1 else 0)
  {
    var before := set i | i in done && AssignedTo(tasks, inProgress, i, e);
    var after := set i | i in done + {id} && AssignedTo(tasks, inProgress, i, e);
    assert after == before + (if tasks[inProgress[id]].engine == e then {id} else {});
  }

  predicate AllBelow(refs: set<Ref>, bound: Ref) {
    forall o :: o in refs ==> o < bound
  }

  lemma {:induction false} NewRefExists(refs: set<Ref>)
    ensures exists bound :: AllBelow(refs, bound)
  {
    if refs == {} {
      assert AllBelow(refs, 0);
    } else {
      var o :| o in refs;
      NewRefExists(refs - {o});
      var bound :| AllBelow(refs - {o}, bound);
      var above := if o < bound then bound else o + 1;
      forall p | p in refs ensures p < above {
        assert p == o || p in refs - {o};
      }
      assert AllBelow(refs, above);
    }
  }

  lemma RemovalIs(s: State, tenant: Tenant, e: EngineId, errors: multiset<Post>)
    requires errors == RemovalErrors(s, e)
    ensures Apply(s, Step.RemoveEngine(tenant, e))
         == Some(s.(engines := Remove(s.engines, tenant, e), toLookUp := s.toLookUp + errors))
  {
  }

  class P {
    const engines: Registry.EngineTables
    var tasks: map<Ref, Task>
    var inProgress: map<TaskId, Ref>
    var queue: seq<Ref>
    var timers: multiset<Ref>
    var dequeued: multiset<Ref>
    var sent: multiset<Ref>
    var scheduler: Scheduler
    var toLookUp: multiset<Post>
    var toSend: multiset<Delivery>

    ghost function Now(): State
      reads this, engines
    {
      State(engines.table, tasks, inProgress, queue, timers, dequeued, sent, scheduler, toLookUp, toSend)
    }

    /** Every entry of the in-progress map leads to a task object; `EntryInv` of every run. */
    ghost predicate Entered()
      reads this
    {
      forall id :: id in inProgress ==> inProgress[id] in tasks
    }

    constructor (engines: Registry.EngineTables)
      requires engines.table == map[]
      ensures this.engines == engines && Now() == INIT
    {
      this.engines := engines;
      tasks, inProgress, queue := map[], map[], [];
      timers, dequeued, sent := multiset{}, multiset{}, multiset{};
      scheduler, toLookUp, toSend := Idle, multiset{}, multiset{};
    }

    /** Puts a new task object into the in-progress map, over any that is there under the same ID. */
    method RegisterTask(id: TaskId, tenant: Tenant, target: EngineId, stream: bool) returns (o: Ref)
      modifies this
      ensures Some(Now()) == Apply(old(Now()), Submit(o, id, tenant, target, stream))
    {
      NewRefExists(tasks.Keys);
      ghost var bound :| AllBelow(tasks.Keys, bound);
      assert bound !in tasks;
      o :| o !in tasks;
      tasks := tasks[o := NewTask(id, tenant, target, stream)];
      inProgress := inProgress[id := o];
    }

    /** The second critical section of scheduling: the chosen engine may be gone by now. */
    method AssignTaskToEngine(engineID: EngineId) returns (ok: bool)
      requires scheduler.Holding? && scheduler.task in tasks
      requires tasks[scheduler.task].target == "" || tasks[scheduler.task].target == engineID
      modifies this
      ensures Some(Now()) == Apply(old(Now()), Assign(engineID))
      ensures ok <==> Registered(engines.table, tasks[old(scheduler).task].tenant, engineID)
      ensures ok ==> tasks[old(scheduler).task].engine == engineID
    {
      var o := scheduler.task;
      var t := tasks[o];
      if !(t.tenant in engines.table && engineID in engines.table[t.tenant]) {
        toLookUp := toLookUp + multiset{Post(t.id, Error)};
        scheduler := Idle;
        return false;
      }
      tasks := tasks[o := t.(engine := engineID)];
      scheduler := Sending(o);
      return true;
    }

    /** One turn of a task's receive loop, given how the caller's callback takes the result. */
    method ReceiveResult(o: Ref, verdict: Verdict, inTime: bool)
      requires o in tasks && tasks[o].pc.Receiving? && tasks[o].buffer != []
      modifies this
      ensures Some(Now()) == Apply(old(Now()), Receive(o, verdict, inTime))
    {
      var t := tasks[o];
      var t' := ProcessOne(t.(buffer := t.buffer[1..]), t.buffer[0], verdict, inTime);
      tasks := tasks[o := t'];
    }

    /** The body of the receive loop on the task's own fields. */
    static method ProcessOne(t0: Task, r: ResultOrError, verdict: Verdict, inTime: bool) returns (t: Task)
      ensures t == OnResult(t0, r, verdict, inTime)
    {
      t := t0;
      var failed, retriable := r.Error?, r.Error?;
      if r.Result? {
        var want, got := t.nextResultIndex, r.result.index;
        if got != 0 && want != got {
          return t.(pc := Returned(false));
        }
        if verdict.Blocks? {
          return t.(pc := Stuck);
        }
        failed, retriable := !verdict.Accepted?, verdict.Retriable?;
        if !failed {
          t := t.(nextResultIndex := t.nextResultIndex + 1, delivered := t.delivered + [r.result]);
        }
      }

      if failed {
        if t.nextResultIndex > 0 || !(retriable && t.target == "" && t.retryCount < MAX_RETRY_COUNT && inTime) {
          return t.(pc := Returned(false));
        }
        assert t.ignored + {} == t.ignored;
        t := t.(retryCount := t.retryCount + 1);
        if t.engine != "" {
          t := t.(ignored := t.ignored + {t.engine});
        }
        return t.(pc := Requeuing);
      }

      var completed := IsTaskCompleted(t.stream, r.result.message);
      if completed.None? {
        t := t.(pc := Returned(false));
      } else if completed.value {
        t := t.(pc := Returned(true));
      }
    }

    /** Unassigns a task that is to be retried and arms its retry timer. */
    method UnassignTaskFromEngine(o: Ref)
      requires o in tasks && tasks[o].pc.Requeuing?
      modifies this
      ensures Some(Now()) == Apply(old(Now()), Unassign(o))
    {
      tasks := tasks[o := tasks[o].(engine := "", pc := Receiving)];
      timers := timers + multiset{o};
    }

    /** Takes the ID of a task that is over out of the in-progress map, whatever object is there by now. */
    method DeregisterTask(o: Ref)
      requires o in tasks && tasks[o].pc.Returned?
      modifies this
      ensures Some(Now()) == Apply(old(Now()), Deregister(o))
    {
      inProgress := inProgress - {tasks[o].id};
      tasks := tasks[o := tasks[o].(pc := Draining)];
    }

    /** Updates the engine table and the router. */
    method AddOrUpdateEngineStatus(tenantID: Tenant, engineID: EngineId, status: Engine)
      requires engines.Valid()
      modifies engines, engines.router, engines.router.mapsByTenantID.Values
      ensures engines.Valid()
      ensures Some(Now()) == Apply(old(Now()), EngineStatus(tenantID, engineID, status))
      ensures engines.Now() == Registry.AddOrUpdate(old(engines.Now()), Registry.Status(tenantID, engineID, status))
    {
      engines.AddOrUpdateEngineStatus(Registry.Status(tenantID, engineID, status));
    }

    /** The in-progress tasks of an engine, as the errors to be written to them. */
    method CollectRemovalErrors(engineID: EngineId) returns (posts: set<Post>)
      requires Entered()
      ensures multiset(posts) == RemovalErrors(Now(), engineID)
    {
      posts := {};
      var todo := inProgress.Keys;
      while todo != {}
        invariant todo <= inProgress.Keys
        invariant posts == set id | id in inProgress.Keys - todo && AssignedTo(tasks, inProgress, id, engineID) :: Post(id, Error)
      {
        var id :| id in todo;
        todo := todo - {id};
        if tasks[inProgress[id]].engine == engineID {
          posts := posts + {Post(id, Error)};
        }
      }
      assert posts == set id | id in inProgress && AssignedTo(tasks, inProgress, id, engineID) :: Post(id, Error);
    }

    method DropEngine(engineID: EngineId, tenantID: Tenant)
      requires engines.Valid()
      modifies engines, engines.router, engines.router.mapsByTenantID.Values
      ensures engines.Valid()
      ensures Now() == old(Now()).(engines := Remove(old(engines.table), tenantID, engineID))
      ensures engines.Now() == Registry.WithoutEngine(old(engines.Now()), tenantID, engineID)
    {
      engines.RemoveEngine(engineID, tenantID);
    }

    method PostErrors(posts: set<Post>)
      modifies this`toLookUp
      ensures Now() == old(Now()).(toLookUp := old(toLookUp) + multiset(posts))
    {
      toLookUp := toLookUp + multiset(posts);
    }

    /** Removes an engine from the table and the router, and leaves an error to be written to each task
        assigned to it. */
    method RemoveEngine(engineID: EngineId, tenantID: Tenant)
      requires Entered() && engines.Valid()
      modifies this, engines, engines.router, engines.router.mapsByTenantID.Values
      ensures engines.Valid()
      ensures Some(Now()) == Apply(old(Now()), Step.RemoveEngine(tenantID, engineID))
      ensures engines.Now() == Registry.WithoutEngine(old(engines.Now()), tenantID, engineID)
    {
      ghost var before := Now();
      var posts := CollectRemovalErrors(engineID);
      RemovalIs(before, tenantID, engineID, multiset(posts));
      PostErrors(posts);
      DropEngine(engineID, tenantID);
    }

    /** The first half of writing a result: a task that is no longer in progress gets nothing. */
    method FindTaskForResult(p: Post)
      requires p in toLookUp
      modifies this
      ensures Some(Now()) == Apply(old(Now()), LookUp(p))
    {
      var found := multiset{};
      if p.id in inProgress {
        found := multiset{Delivery(inProgress[p.id], p.r)};
      }
      toLookUp, toSend := toLookUp - multiset{p}, toSend + found;
    }

    /** The second half: the send, which drops the result when the buffer is full. */
    method SendResult(d: Delivery)
      requires d in toSend && d.task in tasks
      modifies this
      ensures Some(Now()) == Apply(old(Now()), Deliver(d))
    {
      var t := WriteToBuffer(tasks[d.task], d.r);
      tasks, toSend := tasks[d.task := t], toSend - multiset{d};
    }

    static method WriteToBuffer(t0: Task, r: ResultOrError) returns (t: Task)
      ensures t == Written(t0, r)
    {
      t := t0;
      if |t.buffer| < TASK_RESULT_BUFFER_SIZE {
        t := t.(buffer := t.buffer + [r]);
      }
    }

    // -------------------------------------------------------------------------------------------
    // Choosing an engine.

    method CountTasks() returns (counts: map<EngineId, nat>)
      requires Entered()
      ensures forall e :: (if e in counts then counts[e] else 0) == Load(tasks, inProgress, e)
    {
      counts := map[];
      var todo := inProgress.Keys;
      while todo != {}
        invariant todo <= inProgress.Keys
        invariant forall e :: (if e in counts then counts[e] else 0) == LoadOf(tasks, inProgress, inProgress.Keys - todo, e)
      {
        var id :| id in todo;
        var e := tasks[inProgress[id]].engine;
        ghost var done := inProgress.Keys - todo;
        forall e' ensures LoadOf(tasks, inProgress, done + {id}, e')
                       == LoadOf(tasks, inProgress, done, e') + (if e == e' then 1 else 0) {
          LoadStep(tasks, inProgress, done, id, e');
        }
        assert inProgress.Keys - (todo - {id}) == done + {id};
        todo := todo - {id};
        counts := counts[e := (if e in counts then counts[e] else 0) + 1];
      }
      assert inProgress.Keys - todo == inProgress.Keys;
    }

    /** `e` is the first of the least loaded engines in the list. */
    ghost predicate LeastLoaded(ids: seq<EngineId>, e: EngineId)
      reads this
    {
      exists k :: 0 <= k < |ids| && ids[k] == e && FirstMinimum(ids, k)
    }

    ghost predicate FirstMinimum(ids: seq<EngineId>, k: nat)
      requires k < |ids|
      reads this
    {
      && (forall j :: 0 <= j < |ids| ==> Load(tasks, inProgress, ids[k]) <= Load(tasks, inProgress, ids[j]))
      && (forall j :: 0 <= j < k ==> Load(tasks, inProgress, ids[k]) < Load(tasks, inProgress, ids[j]))
    }

    lemma MinimumOfOneMore(ids: seq<EngineId>, i: nat, k: nat)
      requires i < |ids| && (i > 0 ==> k < i && FirstMinimum(ids[..i], k))
      ensures i == 0 || Load(tasks, inProgress, ids[i]) < Load(tasks, inProgress, ids[k]) ==> FirstMinimum(ids[..i + 1], i)
      ensures i > 0 && Load(tasks, inProgress, ids[i]) >= Load(tasks, inProgress, ids[k]) ==> FirstMinimum(ids[..i + 1], k)
    {
      assert ids[..i + 1] == ids[..i] + [ids[i]];
    }

    method FindLeastLoadedEngine(ids: seq<EngineId>) returns (r: Option<EngineId>)
      requires Entered()
      ensures r == None <==> ids == []
      ensures r.Some? ==> LeastLoaded(ids, r.value)
    {
      var counts := CountTasks();
      var minTasks := 0;
      r := None;
      ghost var k := 0;
      for i := 0 to |ids|
        invariant r == None <==> i == 0
        invariant r.Some? ==> k < i && ids[k] == r.value && minTasks == Load(tasks, inProgress, r.value)
        invariant r.Some? ==> FirstMinimum(ids[..i], k)
      {
        var n := if ids[i] in counts then counts[ids[i]] else 0;
        assert n == Load(tasks, inProgress, ids[i]);
        MinimumOfOneMore(ids, i, k);
        if r == None || n < minTasks {
          minTasks := n;
          r := Some(ids[i]);
          k := i;
        }
      }
      assert ids[..|ids|] == ids;
    }

    ghost predicate AllRegistered(ids: seq<EngineId>, tenantID: Tenant)
      reads engines
    {
      forall i :: 0 <= i < |ids| ==> Registered(engines.table, tenantID, ids[i])
    }

    /** The engines of a list that are local, or that are remote, in order. */
    ghost function Side(ids: seq<EngineId>, tenantID: Tenant, local: bool): seq<EngineId>
      requires AllRegistered(ids, tenantID)
      reads engines
    {
      if ids == [] then []
      else
        var rest, e := Side(ids[..|ids| - 1], tenantID, local), ids[|ids| - 1];
        if engines.table[tenantID][e].isLocal == local then rest + [e] else rest
    }

    /** Local engines first, then the least loaded one; fails when there is no candidate or one of them
        is not registered. */
    method FindMostPreferredEngine(ids: seq<EngineId>, tenantID: Tenant) returns (r: Option<EngineId>)
      requires Entered()
      ensures r.Some? <==> ids != [] && AllRegistered(ids, tenantID)
      ensures r.Some? ==>
        var local := Side(ids, tenantID, true);
        LeastLoaded(if local != [] then local else Side(ids, tenantID, false), r.value)
    {
      var known: map<EngineId, Engine> := if tenantID in engines.table then engines.table[tenantID] else map[];
      if known == map[] {
        assert ids != [] ==> !Registered(engines.table, tenantID, ids[0]);
        return None;
      }
      var localEngines, remoteEngines := [], [];
      for i := 0 to |ids|
        invariant AllRegistered(ids[..i], tenantID)
        invariant localEngines == Side(ids[..i], tenantID, true)
        invariant remoteEngines == Side(ids[..i], tenantID, false)
        invariant |localEngines| + |remoteEngines| == i
      {
        if ids[i] !in known {
          assert !Registered(engines.table, tenantID, ids[i]);
          return None;
        }
        assert ids[..i + 1][..i] == ids[..i];
        if known[ids[i]].isLocal {
          localEngines := localEngines + [ids[i]];
        } else {
          remoteEngines := remoteEngines + [ids[i]];
        }
      }
      assert ids[..|ids|] == ids;
      if |localEngines| > 0 {
        r := FindLeastLoadedEngine(localEngines);
      } else {
        r := FindLeastLoadedEngine(remoteEngines);
      }
    }
  }
}
