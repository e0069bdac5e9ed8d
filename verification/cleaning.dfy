/** The loop of the server's clean over its pools, server/server.go: each is cleaned, and dropped when empty. */
module Cleaning {
  import opened Types
  import opened Serving
  import opened Connections
  import opened ServerPool

  /** A connection as clean finds it: whose it is, its status and idle time, and whether it is expired. */
  datatype Reader = Reader(id: ClientId, st: Status, dead: bool)

  datatype Writer = Writer(id: ClientId, st: Status, since: int, dead: bool)

  /** The registered pools, what Clean is to do to each of them, and all of their connections. */
  datatype Scope = Scope(pools: map<ClientId, Pool>, plans: map<ClientId, Plan>,
                         rs: map<ReadConnection, Reader>, ws: map<WriteConnection, Writer>) {
    ghost predicate Sized() {
      plans.Keys == pools.Keys && forall id :: id in plans ==> plans[id].Ok()
    }

    ghost predicate Named() {
      forall id :: id in pools ==> pools[id].clientId == id
    }

    ghost predicate Covered()
      requires Sized()
    {
      && (forall r {:trigger CoversReader(r)} :: r in rs ==> CoversReader(r))
      && (forall w {:trigger CoversWriter(w)} :: w in ws ==> CoversWriter(w))
    }

    ghost predicate CoversReader(r: ReadConnection)
      requires r in rs
    {
      rs[r].id in plans && r in plans[rs[r].id].rs
    }

    ghost predicate CoversWriter(w: WriteConnection)
      requires w in ws
    {
      ws[w].id in plans && w in plans[ws[w].id].ws
    }

    ghost predicate AllIndexed()
      requires Sized()
    {
      forall id {:trigger IndexedAt(id)} :: id in plans ==> IndexedAt(id)
    }

    ghost predicate IndexedAt(id: ClientId)
      requires Sized() && id in plans
    {
      Indexed(id, plans[id], plans[id].ReadDead(), plans[id].WriteDead())
    }

    /** Every connection is in the lists of one pool. */
    ghost predicate Ok() {
      Sized() && Named() && Covered() && AllIndexed()
    }

    ghost predicate Indexed(id: ClientId, plan: Plan, rdead: seq<bool>, wdead: seq<bool>)
      requires plan.Ok() && |rdead| == |plan.rs| && |wdead| == |plan.ws|
    {
      && (forall i :: 0 <= i < |plan.rs| ==>
            plan.rs[i] in rs && rs[plan.rs[i]] == Reader(id, plan.rst[i], rdead[i]))
      && (forall i :: 0 <= i < |plan.ws| ==>
            plan.ws[i] in ws && ws[plan.ws[i]] == Writer(id, plan.wst[i], plan.since[i], wdead[i]))
    }
  }

  /** What clean has done to the lists of a pool, which it keeps or not: only expired connections are gone. */
  ghost predicate Reduced(p: Pool, keep: bool, plan: Plan)
    requires plan.Ok()
    reads p
  {
    && p.Valid()
    && p.readConnections == plan.Reads() && p.writeConnections == plan.Writes()
    && p.idle == plan.idle && p.idleSize == plan.idleSize
    && (keep <==> p.readConnections != [] || p.writeConnections != [])
    && (keep <==> !p.done)
  }

  /** A pool that clean has not reached yet. */
  ghost predicate Waiting(p: Pool, plan: Plan)
    reads p
  {
    && p.Valid() && !p.done
    && p.readConnections == plan.rs && p.writeConnections == plan.ws
    && p.idle == plan.idle && p.idleSize == plan.idleSize && p.idleTimeout == plan.timeout
  }

  /** The statuses of the connections of a plan before its Clean. */
  ghost predicate Unsettled(plan: Plan)
    requires plan.Ok()
    reads plan.rs, plan.ws
  {
    ReadStatuses(plan.rs) == plan.rst && Statuses(plan.ws) == plan.wst && Sinces(plan.ws) == plan.since
  }

  /** The statuses of the connections of a plan after its Clean. */
  ghost predicate Settled(plan: Plan, rdead: seq<bool>, wdead: seq<bool>)
    requires plan.Ok() && |rdead| == |plan.rs| && |wdead| == |plan.ws|
    reads plan.rs, plan.ws
  {
    && (forall i :: 0 <= i < |plan.rs| ==> plan.rs[i].status == if rdead[i] then Closed else plan.rst[i])
    && (forall i :: 0 <= i < |plan.ws| ==>
          && plan.ws[i].status == (if wdead[i] then Closed else plan.wst[i])
          && plan.ws[i].idleSince == plan.since[i])
  }

  method Empty(pool: Pool, clock: Clock, ghost plan: Plan) returns (empty: bool)
    requires plan.Ok() && Waiting(pool, plan) && clock == plan.clock && Unsettled(plan)
    modifies pool`readConnections, pool`writeConnections, pool.readConnections, pool.writeConnections
    ensures pool.Valid() && Settled(plan, plan.ReadDead(), plan.WriteDead())
    ensures pool.readConnections == plan.Reads() && pool.writeConnections == plan.Writes()
    ensures empty <==> pool.readConnections == [] && pool.writeConnections == []
  {
    assert pool.PlanOf(clock) == plan;
    empty := pool.IsEmpty(clock);
    assert Pruned(plan, pool.readConnections, ReadStatuses(plan.rs), pool.writeConnections, Statuses(plan.ws));
    assert Sinces(plan.ws) == plan.since;
  }

  /** One pool of clean: emptied of expired connections, and shut down when nothing is left. */
  method CleanPool(pool: Pool, clock: Clock, ghost plan: Plan) returns (empty: bool)
    requires plan.Ok() && Waiting(pool, plan) && clock == plan.clock && Unsettled(plan)
    modifies pool`done, pool`readConnections, pool`writeConnections, pool.readConnections, pool.writeConnections
    ensures Reduced(pool, !empty, plan) && Settled(plan, plan.ReadDead(), plan.WriteDead())
  {
    empty := Empty(pool, clock, plan);
    if empty {
      pool.Shutdown();
    }
  }

  /** The connections after clean has been through all pools but `rest`: the expired ones are CLOSED. */
  ghost predicate ReadersAre(was: Scope, rest: set<ClientId>)
    reads was.rs.Keys
  {
    forall r :: r in was.rs ==>
      r.status == if was.rs[r].dead && was.rs[r].id !in rest then Closed else was.rs[r].st
  }

  ghost predicate WritersAre(was: Scope, rest: set<ClientId>)
    reads was.ws.Keys
  {
    forall w :: w in was.ws ==>
      && w.status == (if was.ws[w].dead && was.ws[w].id !in rest then Closed else was.ws[w].st)
      && w.idleSince == was.ws[w].since
  }

  ghost predicate StatusesAre(was: Scope, rest: set<ClientId>)
    reads was.rs.Keys, was.ws.Keys
  {
    ReadersAre(was, rest) && WritersAre(was, rest)
  }

  lemma StillUnsettled(was: Scope, id: ClientId, rest: set<ClientId>)
    requires was.Ok() && id in was.plans && id in rest && StatusesAre(was, rest)
    ensures Unsettled(was.plans[id])
  {
    assert was.IndexedAt(id);
  }

  /** The own connections of pool id, as the two maps tell them. */
  ghost predicate Owns(was: Scope, id: ClientId, plan: Plan) {
    && (forall r :: r in was.rs ==> (r in plan.rs <==> was.rs[r].id == id))
    && (forall w :: w in was.ws ==> (w in plan.ws <==> was.ws[w].id == id))
  }

  lemma OwnSettled(was: Scope, id: ClientId, plan: Plan, rdead: seq<bool>, wdead: seq<bool>)
    requires plan.Ok() && |rdead| == |plan.rs| && |wdead| == |plan.ws|
    requires was.Indexed(id, plan, rdead, wdead) && Settled(plan, rdead, wdead) && Owns(was, id, plan)
    ensures OwnAre(was, id)
  {
  }

  ghost predicate OwnAre(was: Scope, id: ClientId)
    reads was.rs.Keys, was.ws.Keys
  {
    && (forall r :: r in was.rs && was.rs[r].id == id ==>
          r.status == if was.rs[r].dead then Closed else was.rs[r].st)
    && (forall w :: w in was.ws && was.ws[w].id == id ==>
          w.status == (if was.ws[w].dead then Closed else was.ws[w].st) && w.idleSince == was.ws[w].since)
  }

  /** The lists of a pool are the connections that are its own. */
  lemma Own(was: Scope, id: ClientId)
    requires was.Ok() && id in was.plans
    ensures was.Indexed(id, was.plans[id], was.plans[id].ReadDead(), was.plans[id].WriteDead())
    ensures Owns(was, id, was.plans[id])
  {
    assert was.IndexedAt(id);
    assert forall r :: r in was.rs ==> was.CoversReader(r);
    assert forall w :: w in was.ws ==> was.CoversWriter(w);
  }

  /** The connections of other pools are as they were. */
  twostate predicate OthersKeep(was: Scope, id: ClientId)
    reads was.rs.Keys, was.ws.Keys
  {
    && (forall r :: r in was.rs && was.rs[r].id != id ==> r.status == old(r.status))
    && (forall w :: w in was.ws && was.ws[w].id != id ==>
          w.status == old(w.status) && w.idleSince == old(w.idleSince))
  }

  method CleanApart(id: ClientId, pool: Pool, clock: Clock, ghost was: Scope, ghost plan: Plan) returns (empty: bool)
    requires plan.Ok() && Waiting(pool, plan) && clock == plan.clock && Unsettled(plan) && Owns(was, id, plan)
    modifies pool`done, pool`readConnections, pool`writeConnections, pool.readConnections, pool.writeConnections
    ensures Reduced(pool, !empty, plan) && Settled(plan, plan.ReadDead(), plan.WriteDead()) && OthersKeep(was, id)
  {
    empty := CleanPool(pool, clock, plan);
  }

  /** CleanPool within the scope: its own connections are settled, those of other pools as they were. */
  method CleanOwn(id: ClientId, pool: Pool, clock: Clock, ghost was: Scope, ghost plan: Plan,
                  ghost rest: set<ClientId>) returns (empty: bool)
    requires plan.Ok() && Waiting(pool, plan) && clock == plan.clock && Unsettled(plan)
    requires was.Indexed(id, plan, plan.ReadDead(), plan.WriteDead()) && Owns(was, id, plan)
    requires ReadersAre(was, rest) && id in rest
    modifies pool`done, pool`readConnections, pool`writeConnections, pool.readConnections, pool.writeConnections
    ensures Reduced(pool, !empty, plan) && ReadersAre(was, rest - {id})
    ensures OwnAre(was, id) && OthersKeep(was, id)
  {
    assert old(ReadersAre(was, rest));
    empty := CleanApart(id, pool, clock, was, plan);
    assert OwnAre(was, id) by {
      OwnSettled(was, id, plan, plan.ReadDead(), plan.WriteDead());
    }
    forall r | r in was.rs
      ensures r.status == if was.rs[r].dead && was.rs[r].id !in rest - {id} then Closed else was.rs[r].st
    {
      assert was.rs[r].id != id ==> r.status == old(r.status);
    }
  }

  method CleanOne(id: ClientId, pool: Pool, clock: Clock, ghost was: Scope, ghost plan: Plan,
                  ghost rest: set<ClientId>) returns (empty: bool)
    requires plan.Ok() && Waiting(pool, plan) && clock == plan.clock && Unsettled(plan)
    requires was.Indexed(id, plan, plan.ReadDead(), plan.WriteDead()) && Owns(was, id, plan)
    requires StatusesAre(was, rest) && id in rest
    modifies pool`done, pool`readConnections, pool`writeConnections, pool.readConnections, pool.writeConnections
    ensures Reduced(pool, !empty, plan) && StatusesAre(was, rest - {id})
  {
    assert old(WritersAre(was, rest));
    empty := CleanOwn(id, pool, clock, was, plan, rest);
    forall w | w in was.ws
      ensures w.status == if was.ws[w].dead && was.ws[w].id !in rest - {id} then Closed else was.ws[w].st
      ensures w.idleSince == was.ws[w].since
    {
      assert was.ws[w].id != id ==> w.status == old(w.status) && w.idleSince == old(w.idleSince);
    }
  }

  function ClockOf(clocks: map<ClientId, Clock>, id: ClientId): (c: Clock)
    ensures id in clocks ==> c == clocks[id]
  {
    if id in clocks then clocks[id] else Clock([], [])
  }

  /** The pools when clean has been through all but `rest` and keeps `kept`. */
  ghost predicate PoolsAre(was: Scope, rest: set<ClientId>, kept: set<ClientId>)
    requires was.Sized()
    reads was.pools.Values
  {
    && (forall id {:trigger WaitingAt(was, id)} :: id in was.pools && id in rest ==> WaitingAt(was, id))
    && (forall id {:trigger ReducedAt(was, kept, id)} :: id in was.pools && id !in rest ==> ReducedAt(was, kept, id))
  }

  ghost predicate WaitingAt(was: Scope, id: ClientId)
    requires was.Sized() && id in was.pools
    reads was.pools[id]
  {
    Waiting(was.pools[id], was.plans[id])
  }

  ghost predicate ReducedAt(was: Scope, kept: set<ClientId>, id: ClientId)
    requires was.Sized() && id in was.pools
    reads was.pools[id]
  {
    Reduced(was.pools[id], id in kept, was.plans[id])
  }

  /** A pool is cleaned with its plan, which still describes it. */
  method CleanPlanned(id: ClientId, pool: Pool, clock: Clock, ghost was: Scope, ghost rest: set<ClientId>)
      returns (empty: bool)
    requires was.Ok() && id in rest && id in was.pools && pool == was.pools[id] && clock == was.plans[id].clock
    requires Waiting(pool, was.plans[id]) && StatusesAre(was, rest)
    modifies pool`done, pool`readConnections, pool`writeConnections, pool.readConnections, pool.writeConnections
    ensures Reduced(pool, !empty, was.plans[id]) && StatusesAre(was, rest - {id})
  {
    ghost var plan := was.plans[id];
    assert Unsettled(plan) by {
      StillUnsettled(was, id, rest);
    }
    assert was.Indexed(id, plan, plan.ReadDead(), plan.WriteDead()) && Owns(was, id, plan) by {
      Own(was, id);
    }
    empty := CleanOne(id, pool, clock, was, plan, rest);
  }

  method CleanNext(id: ClientId, pool: Pool, clock: Clock, ghost was: Scope, ghost rest: set<ClientId>,
                   kept: map<ClientId, Pool>) returns (next: map<ClientId, Pool>)
    requires was.Ok() && PoolsAre(was, rest, kept.Keys) && StatusesAre(was, rest)
    requires id in rest && id in was.pools && id !in kept && pool == was.pools[id] && clock == was.plans[id].clock
    modifies pool`done, pool`readConnections, pool`writeConnections, pool.readConnections, pool.writeConnections
    ensures next == kept || next == kept[id := pool]
    ensures PoolsAre(was, rest - {id}, next.Keys) && StatusesAre(was, rest - {id})
  {
    assert WaitingAt(was, id);
    var empty := CleanPlanned(id, pool, clock, was, rest);
    next := if empty then kept else kept[id := pool];
    forall k | k in was.pools && k in rest - {id} ensures WaitingAt(was, k) {
      assert was.pools[k] != pool && old(WaitingAt(was, k));
    }
    forall k | k in was.pools && k !in rest - {id} ensures ReducedAt(was, next.Keys, k) {
      assert k != id ==> was.pools[k] != pool && old(ReducedAt(was, kept.Keys, k));
    }
  }

  lemma InScope(was: Scope, id: ClientId)
    requires was.Ok() && id in was.plans
    ensures forall r :: r in was.plans[id].rs ==> r in was.rs
    ensures forall w :: w in was.plans[id].ws ==> w in was.ws
  {
    assert was.IndexedAt(id);
  }

  /** CleanNext, by what it may change at most. */
  method CleanWithin(id: ClientId, pool: Pool, clock: Clock, ghost was: Scope, ghost rest: set<ClientId>,
                     kept: map<ClientId, Pool>) returns (next: map<ClientId, Pool>)
    requires was.Ok() && PoolsAre(was, rest, kept.Keys) && StatusesAre(was, rest)
    requires id in rest && id in was.pools && id !in kept && pool == was.pools[id] && clock == was.plans[id].clock
    modifies was.pools.Values`done, was.pools.Values`readConnections, was.pools.Values`writeConnections
    modifies was.rs.Keys, was.ws.Keys
    ensures next == kept || next == kept[id := pool]
    ensures PoolsAre(was, rest - {id}, next.Keys) && StatusesAre(was, rest - {id})
  {
    ghost var plan := was.plans[id];
    assert (forall r :: r in plan.rs ==> r in was.rs.Keys) && forall w :: w in plan.ws ==> w in was.ws.Keys by {
      InScope(was, id);
    }
    assert WaitingAt(was, id);
    next := CleanNext(id, pool, clock, was, rest, kept);
  }

  /** The loop of clean: it keeps the pools in which something is left. */
  method CleanAll(pools: map<ClientId, Pool>, clocks: map<ClientId, Clock>, ghost was: Scope)
      returns (kept: map<ClientId, Pool>)
    requires was.Ok() && pools == was.pools && PoolsAre(was, pools.Keys, {}) && StatusesAre(was, pools.Keys)
    requires forall id :: id in pools ==> was.plans[id].clock == ClockOf(clocks, id)
    modifies pools.Values`done, pools.Values`readConnections, pools.Values`writeConnections, was.rs.Keys, was.ws.Keys
    ensures forall id :: id in kept ==> id in pools && kept[id] == pools[id]
    ensures PoolsAre(was, {}, kept.Keys) && StatusesAre(was, {})
  {
    kept := map[];
    var rest := pools.Keys;
    while rest != {}
      invariant rest <= pools.Keys
      invariant forall id :: id in kept ==> id in pools && id !in rest && kept[id] == pools[id]
      invariant PoolsAre(was, rest, kept.Keys) && StatusesAre(was, rest)
      decreases rest
    {
      var id :| id in rest;
      kept := CleanWithin(id, pools[id], ClockOf(clocks, id), was, rest, kept);
      rest := rest - {id};
    }
  }
}
