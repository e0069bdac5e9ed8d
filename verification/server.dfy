/** The server's registry of pools, server/server.go. */
module Registry {
  import opened Types
  import opened Serving
  import opened Connections
  import opened ServerPool
  import opened History
  import opened Cleaning
  import Greeting

  /** How a registration ends; in all but the last two the registry is left alone. */
  datatype Registration = Rejected | BadGreeting | Panicked | Ignored | Added

  function Verdict(parsed: Greeting.Parsed): Registration {
    match parsed
    case Malformed => BadGreeting
    case Panics => Panicked
    case Parsed(_, t) => if 0 <= t <= 1 then Added else Ignored
  }

  class Server {
    const idleTimeout: int
    const poolMaxSize: nat
    var pools: map<ClientId, Pool>

    constructor (idleTimeout: int, poolMaxSize: nat)
      ensures this.idleTimeout == idleTimeout && this.poolMaxSize == poolMaxSize
      ensures Valid() && pools == map[]
    {
      this.idleTimeout := idleTimeout;
      this.poolMaxSize := poolMaxSize;
      pools := map[];
    }

    /** The key is the client id of the pool, which is not done and has the configured timeout and capacity. */
    ghost predicate ValidAt(id: ClientId)
      requires id in pools
      reads this, pools.Values
    {
      && pools[id].clientId == id && !pools[id].done && pools[id].Valid()
      && pools[id].idleTimeout == idleTimeout && pools[id].capacity == poolMaxSize
    }

    ghost predicate Valid()
      reads this, pools.Values
    {
      forall id :: id in pools ==> ValidAt(id)
    }

    /** The scan of Register over the pools, in whatever order the map is ranged over. */
    method FindPool(clientId: ClientId) returns (pool: Option<Pool>)
      requires Valid()
      ensures pool == if clientId in pools then Some(pools[clientId]) else None
    {
      var rest := pools.Keys;
      while rest != {}
        invariant rest <= pools.Keys
        invariant forall id :: id in pools && id !in rest ==> id != clientId
        decreases rest
      {
        var id :| id in rest;
        if pools[id].clientId == clientId {
          return Some(pools[id]);
        }
        rest := rest - {id};
      }
      return None;
    }

    /** The lists of the registered pools. */
    ghost function Now(): (v: View)
      reads this, pools.Values
      ensures v.Keys == pools.Keys
      ensures forall id :: id in v ==> v[id] == Members(pools[id].readConnections, pools[id].writeConnections)
    {
      map id | id in pools :: Members(pools[id].readConnections, pools[id].writeConnections)
    }

    lemma OnlyPoolChanged(before: View, id: ClientId)
      requires id in pools && pools.Keys == before.Keys + {id}
      requires forall k :: k in pools && k != id ==>
                 before[k] == Members(pools[k].readConnections, pools[k].writeConnections)
      ensures Now() == before[id := Members(pools[id].readConnections, pools[id].writeConnections)]
    {
    }

    /** The registered pool of a client, if there is one. */
    ghost function PoolOf(id: ClientId): set<Pool>
      reads this
    {
      if id in pools then {pools[id]} else {}
    }

    /** The registered pool of a client, or a new empty one. */
    method EnsurePool(id: ClientId) returns (pool: Pool)
      requires Valid()
      modifies this`pools
      ensures Valid()
      ensures pools == old(pools)[id := pool] && pool.clientId == id
      ensures if id in old(pools) then pool == old(pools)[id]
              else fresh(pool) && pool.readConnections == [] && pool.writeConnections == [] && pool.idle == []
    {
      var found := FindPool(id);
      if found.Some? {
        assert old(pools)[id := found.value] == old(pools);
        return found.value;
      }
      pool := new Pool(id, idleTimeout, poolMaxSize);
      pools := pools[id := pool];
    }

    method AddTo(pool: Pool, idleSize: int, connectionType: int)
        returns (ghost rs: seq<ReadConnection>, ghost ws: seq<WriteConnection>)
      requires Valid() && pool.clientId in pools && pools[pool.clientId] == pool
      modifies pool`idleSize, pool`readConnections, pool`writeConnections
      ensures Valid() && pool.idleSize == idleSize
      ensures pool.readConnections == old(pool.readConnections) + rs
      ensures pool.writeConnections == old(pool.writeConnections) + ws
      ensures AreNew(rs, ws, connectionType)
    {
      pool.idleSize := idleSize;
      pool.AddConnection(connectionType);
      rs := pool.readConnections[|old(pool.readConnections)|..];
      ws := pool.writeConnections[|old(pool.writeConnections)|..];
    }

    /** The connections that join are new ones: one of the type announced, or none if that is unknown. */
    twostate predicate AreNew(new rs: seq<ReadConnection>, new ws: seq<WriteConnection>, connectionType: int)
      reads rs, ws
    {
      && |rs| == (if connectionType == 0 then 1 else 0)
      && |ws| == (if connectionType == 1 then 1 else 0)
      && (forall r :: r in rs ==> fresh(r) && r.status == Idle)
      && (forall w :: w in ws ==> fresh(w) && w.status == Idle)
    }

    /** The client has the pool it had, or else a new one whose queue is empty; no other pool comes or goes. */
    twostate predicate HasPool(id: ClientId)
      reads this, pools.Values
    {
      && id in pools && pools == old(pools)[id := pools[id]]
      && if id in old(pools) then pools[id] == old(pools[id]) else fresh(pools[id]) && pools[id].idle == []
    }

    /**
     * The pool of a client, made if need be, gets the announced idle size and the new connection. The queue of
     * a pool that was there, and the pools of other clients, are out of its reach.
     */
    method Enroll(id: ClientId, idleSize: int, connectionType: int) returns (ghost op: Op)
      requires Valid()
      modifies this`pools, PoolOf(id)`idleSize, PoolOf(id)`readConnections, PoolOf(id)`writeConnections
      ensures Valid() && Effect(old(Now()), op, Now())
      ensures op.Joined? && op.id == id && AreNew(op.rs, op.ws, connectionType)
      ensures HasPool(id) && pools[id].idleSize == idleSize
    {
      ghost var was := Now();
      var pool := EnsurePool(id);
      ghost var rs, ws := AddTo(pool, idleSize, connectionType);
      op := Joined(id, rs, ws);
      assert Now() == was[id := Members(pool.readConnections, pool.writeConnections)] by {
        OnlyPoolChanged(was, id);
      }
    }

    ghost function Known(id: Option<ClientId>): set<Pool>
      reads this
    {
      if id.Some? then PoolOf(id.value) else {}
    }

    /**
     * Register. `clientId` is None when the key is invalid or the websocket could not be set up; a greeting
     * that does not parse changes nothing. Otherwise the connection joins the pool that `Request` looks up,
     * unless its announced type is neither read nor write.
     */
    method Register(clientId: Option<ClientId>, greeting: string) returns (r: Registration, ghost op: Op)
      requires Valid()
      modifies this`pools, Known(clientId)`idleSize, Known(clientId)`readConnections, Known(clientId)`writeConnections
      ensures Valid() && Effect(old(Now()), op, Now())
      ensures r == Rejected <==> clientId == None
      ensures r != Rejected ==>
                && var parsed := Greeting.Parse(greeting);
                && (r == BadGreeting <==> parsed == Greeting.Malformed)
                && (r == Panicked <==> parsed == Greeting.Panics)
                && (r == Added <==> parsed.Parsed? && (parsed.connectionType == 0 || parsed.connectionType == 1))
      ensures if r == Added || r == Ignored then
                && var parsed := Greeting.Parse(greeting);
                && op.Joined? && op.id == clientId.value && AreNew(op.rs, op.ws, parsed.connectionType)
                && HasPool(op.id) && pools[op.id].idleSize == parsed.idleSize
              else op == Nothing && pools == old(pools) && forall k :: k in pools ==> unchanged(pools[k])
    {
      op := Nothing;
      if clientId == None {
        return Rejected, op;
      }
      var parsed := Greeting.Parse(greeting);
      r := Verdict(parsed);
      if parsed.Parsed? {
        op := Enroll(clientId.value, parsed.idleSize, parsed.connectionType);
      }
    }

    /** A greeting of the client itself puts a connection of the opposite role into the client's pool. */
    method RegisterClient(id: ClientId, idleSize: int, k: Kind) returns (r: Registration, ghost op: Op)
      requires Valid() && IsInt64(idleSize)
      modifies this`pools, PoolOf(id)`idleSize, PoolOf(id)`readConnections, PoolOf(id)`writeConnections
      ensures Valid() && r == Added && HasPool(id) && pools[id].idleSize == idleSize
      ensures Effect(old(Now()), op, Now()) && op.Joined? && op.id == id
      ensures |op.rs| == (if Greeting.Peer(k) == Read then 1 else 0)
      ensures |op.ws| == (if Greeting.Peer(k) == Write then 1 else 0)
    {
      Greeting.GreetingRoundTrip(idleSize, k);
      r, op := Register(Some(id), Greeting.Greet(idleSize, k));
    }

    /** A request on the pool of a registered client; the lists of the other pools stay. */
    method ProxyOn(id: ClientId, p: Pool, timeout: int, waits: seq<Wait>, ok: bool, now: int) returns (r: Proxied)
      requires Valid() && id in pools && p == pools[id] && WaitsFor(timeout, waits, |p.idle|)
      modifies p`idle, p`readConnections, p`writeConnections, p.idle
      ensures Used(old(p.idle), old(Statuses(p.idle)), waits, p.idle, r, ok, now)
      ensures r != NoConnection <==> Gets(old(Statuses(p.idle)), waits)
      ensures Valid() && p.readConnections == old(p.readConnections)
      ensures p.writeConnections == ListAfter(old(p.writeConnections), old(p.idle), r)
      ensures Now() == old(Now())[id := Members(p.readConnections, p.writeConnections)]
    {
      ghost var before := Now();
      r := p.Proxy(timeout, waits, ok, now);
      forall k | k in pools ensures ValidAt(k) {
        assert k != id ==> pools[k] != p;
      }
      assert Now() == before[id := Members(p.readConnections, p.writeConnections)] by {
        OnlyPoolChanged(before, id);
      }
    }

    /** A request for a registered client. */
    method Serve(id: ClientId, p: Pool, timeout: int, waits: seq<Wait>, ok: bool, now: int)
        returns (r: Proxied, ghost op: Op)
      requires Valid() && id in pools && p == pools[id] && WaitsFor(timeout, waits, |p.idle|)
      modifies p`idle, p`readConnections, p`writeConnections, p.idle
      ensures Valid() && Effect(old(Now()), op, Now())
      ensures Used(old(p.idle), old(Statuses(p.idle)), waits, p.idle, r, ok, now)
      ensures r != NoConnection <==> Gets(old(Statuses(p.idle)), waits)
      ensures r.Failed? ==> r.entry < |old(p.idle)|
      ensures op == Served(id, if r.Failed? then Some(old(p.idle)[r.entry]) else None)
    {
      ghost var was, st := p.idle, Statuses(p.idle);
      r := ProxyOn(id, p, timeout, waits, ok, now);
      assert r.Failed? ==> r.entry < |was| by {
        UsedMembers(was, st, waits, p.idle, r, ok, now);
      }
      op := Served(id, if r.Failed? then Some(was[r.entry]) else None);
    }

    /**
     * Request, None when the destination or the client id is missing. It uses a connection of the pool that
     * Register filled for the client, as Proxy says; the only thing that changes in the registry is that a
     * connection whose exchange failed is gone.
     */
    method Request(id: Option<ClientId>, timeout: int, waits: seq<Wait>, ok: bool, now: int)
        returns (r: Option<Proxied>, ghost op: Op)
      requires Valid()
      requires id.Some? && id.value in pools ==> WaitsFor(timeout, waits, |pools[id.value].idle|)
      modifies Known(id)`idle, Known(id)`readConnections, Known(id)`writeConnections,
               if id.Some? && id.value in pools then pools[id.value].idle else []
      ensures Valid() && (r == None <==> id == None || id.value !in pools)
      ensures Effect(old(Now()), op, Now())
      ensures r == None ==> op == Nothing
      ensures r.Some? ==>
                && var p := pools[id.value];
                && Used(old(p.idle), old(Statuses(p.idle)), waits, p.idle, r.value, ok, now)
                && (r.value != NoConnection <==> Gets(old(Statuses(p.idle)), waits))
                && (r.value.Failed? ==> r.value.entry < |old(p.idle)|)
                && op == Served(id.value, if r.value.Failed? then Some(old(p.idle)[r.value.entry]) else None)
    {
      if id == None || id.value !in pools {
        return None, Nothing;
      }
      var proxied;
      proxied, op := Serve(id.value, pools[id.value], timeout, waits, ok, now);
      return Some(proxied), op;
    }

    /** The end of a connection's own threads: pool.Remove, for a pool that may be registered no more. */
    method Leave(id: ClientId, conn: Connection) returns (ghost op: Op)
      requires Valid()
      modifies PoolOf(id)`readConnections, PoolOf(id)`writeConnections
      ensures Valid() && op == Left(id, conn) && Effect(old(Now()), op, Now())
    {
      op := Left(id, conn);
      if id in pools {
        pools[id].RemoveWithoutLock(conn);
      }
    }

    /** getConnectionStatus: a client without a pool is not connected. */
    method ConnectionStatus(id: ClientId, timeout: int, waits: seq<Wait>, pong: bool, now: int)
        returns (connected: bool)
      requires Valid() && (id in pools ==> WaitsFor(timeout, waits, |pools[id].idle|))
      modifies PoolOf(id)`idle, if id in pools then pools[id].idle else []
      ensures Valid() && Now() == old(Now())
      ensures id !in pools ==> !connected
      ensures id in pools ==>
                && var p := pools[id];
                && Asked(old(p.idle), old(Statuses(p.idle)), waits, p.idle)
                && (connected <==> if Gets(old(Statuses(p.idle)), waits) then pong
                                   else exists w :: w in p.writeConnections && old(w.status) == Busy)
    {
      if id !in pools {
        return false;
      }
      connected := pools[id].Reachable(timeout, waits, pong, now);
      forall k | k in pools ensures ValidAt(k) {
        assert k != id ==> pools[k] != pools[id];
      }
    }

    ghost function Readers(): (all: set<ReadConnection>)
      reads this, pools.Values
      ensures forall id, r :: id in pools && r in pools[id].readConnections ==> r in all
    {
      set id, r | id in pools && r in pools[id].readConnections :: r
    }

    ghost function Writers(): (all: set<WriteConnection>)
      reads this, pools.Values
      ensures forall id, w :: id in pools && w in pools[id].writeConnections ==> w in all
    {
      set id, w | id in pools && w in pools[id].writeConnections :: w
    }

    ghost function ReaderOf(r: ReadConnection): (id: ClientId)
      requires r in Readers()
      reads this, pools.Values
      ensures id in pools && r in pools[id].readConnections
    {
      var id :| id in pools && r in pools[id].readConnections;
      id
    }

    ghost function WriterOf(w: WriteConnection): (id: ClientId)
      requires w in Writers()
      reads this, pools.Values
      ensures id in pools && w in pools[id].writeConnections
    {
      var id :| id in pools && w in pools[id].writeConnections;
      id
    }

    /** What Clean is to do to each pool. */
    ghost function Plans(clocks: map<ClientId, Clock>): (plans: map<ClientId, Plan>)
      reads this, pools.Values, Readers(), Writers()
      ensures plans.Keys == pools.Keys
      ensures forall id :: id in pools ==> plans[id] == pools[id].PlanOf(ClockOf(clocks, id))
      ensures forall id :: id in pools ==>
                && plans[id].Ok()
                && plans[id].rs == pools[id].readConnections && plans[id].ws == pools[id].writeConnections
    {
      map id | id in pools :: pools[id].PlanOf(ClockOf(clocks, id))
    }

    ghost function ReaderInfos(clocks: map<ClientId, Clock>): (rs: map<ReadConnection, Reader>)
      reads this, pools.Values, Readers(), Writers()
      ensures rs.Keys == Readers() && forall r :: r in rs ==> rs[r] == ReaderInfo(clocks, r)
    {
      map r | r in Readers() :: ReaderInfo(clocks, r)
    }

    ghost function WriterInfos(clocks: map<ClientId, Clock>): (ws: map<WriteConnection, Writer>)
      reads this, pools.Values, Readers(), Writers()
      ensures ws.Keys == Writers() && forall w :: w in ws ==> ws[w] == WriterInfo(clocks, w)
    {
      map w | w in Writers() :: WriterInfo(clocks, w)
    }

    /** The registry as clean finds it. */
    ghost function Snapshot(clocks: map<ClientId, Clock>): (was: Scope)
      reads this, pools.Values, Readers(), Writers()
    {
      Scope(pools, Plans(clocks), ReaderInfos(clocks), WriterInfos(clocks))
    }

    /** A connection is in one list, once. */
    lemma ReaderInfoIs(clocks: map<ClientId, Clock>, id: ClientId, plan: Plan, i: nat)
      requires Valid() && id in pools && plan == Plans(clocks)[id] && i < |plan.rs|
      ensures plan.rs[i] in Readers()
      ensures ReaderInfo(clocks, plan.rs[i]) == Reader(id, plan.rst[i], plan.ReadDead()[i])
    {
      assert plan.rs[i] in pools[id].readConnections && NoDup(plan.rs);
      OneReader(plan.rs[i], id);
      assert forall j :: 0 <= j < |plan.rs| && plan.rs[j] == plan.rs[i] ==> j == i;
    }

    lemma WriterInfoIs(clocks: map<ClientId, Clock>, id: ClientId, plan: Plan, i: nat)
      requires Valid() && id in pools && plan == Plans(clocks)[id] && i < |plan.ws|
      ensures plan.ws[i] in Writers()
      ensures WriterInfo(clocks, plan.ws[i]) == Writer(id, plan.wst[i], plan.since[i], plan.WriteDead()[i])
    {
      assert plan.ws[i] in pools[id].writeConnections && NoDup(plan.ws);
      OneWriter(plan.ws[i], id);
      assert forall j :: 0 <= j < |plan.ws| && plan.ws[j] == plan.ws[i] ==> j == i;
    }

    lemma SnapshotIndexed(clocks: map<ClientId, Clock>, id: ClientId)
      requires Valid() && id in pools
      ensures var plan := Plans(clocks)[id];
              Snapshot(clocks).Indexed(id, plan, plan.ReadDead(), plan.WriteDead())
    {
      var was, plan := Snapshot(clocks), Plans(clocks)[id];
      forall i | 0 <= i < |plan.rs|
        ensures plan.rs[i] in was.rs && was.rs[plan.rs[i]] == Reader(id, plan.rst[i], plan.ReadDead()[i])
      {
        ReaderInfoIs(clocks, id, plan, i);
      }
      forall i | 0 <= i < |plan.ws|
        ensures plan.ws[i] in was.ws
        ensures was.ws[plan.ws[i]] == Writer(id, plan.wst[i], plan.since[i], plan.WriteDead()[i])
      {
        WriterInfoIs(clocks, id, plan, i);
      }
    }

    lemma SnapshotCovered(clocks: map<ClientId, Clock>)
      ensures Snapshot(clocks).Sized() && Snapshot(clocks).Covered()
    {
    }

    lemma SnapshotAllIndexed(clocks: map<ClientId, Clock>)
      requires Valid()
      ensures Snapshot(clocks).Sized() && Snapshot(clocks).AllIndexed()
    {
      var was := Snapshot(clocks);
      forall id | id in was.plans ensures was.IndexedAt(id) {
        SnapshotIndexed(clocks, id);
      }
    }

    lemma SnapshotOk(clocks: map<ClientId, Clock>)
      requires Valid()
      ensures Snapshot(clocks).Ok()
    {
      SnapshotCovered(clocks);
      SnapshotAllIndexed(clocks);
    }

    lemma SnapshotBegins(clocks: map<ClientId, Clock>)
      requires Valid()
      ensures var was := Snapshot(clocks);
              PoolsAre(was, pools.Keys, {}) && StatusesAre(was, pools.Keys)
              && forall id :: id in pools ==> was.plans[id].clock == ClockOf(clocks, id)
    {
    }

    lemma OneReader(r: ReadConnection, id: ClientId)
      requires Valid() && id in pools && r in pools[id].readConnections
      ensures r in Readers() && ReaderOf(r) == id
    {
      assert pools[id].Owns() && pools[ReaderOf(r)].Owns();
    }

    lemma OneWriter(w: WriteConnection, id: ClientId)
      requires Valid() && id in pools && w in pools[id].writeConnections
      ensures w in Writers() && WriterOf(w) == id
    {
      assert pools[id].Owns() && pools[WriterOf(w)].Owns();
    }

    ghost function ReaderInfo(clocks: map<ClientId, Clock>, r: ReadConnection): (info: Reader)
      requires r in Readers()
      reads this, pools.Values, Readers(), Writers()
      ensures info.id in pools && r in pools[info.id].readConnections
    {
      var plan := Plans(clocks)[ReaderOf(r)];
      var i :| 0 <= i < |plan.rs| && plan.rs[i] == r;
      Reader(ReaderOf(r), r.status, plan.ReadDead()[i])
    }

    ghost function WriterInfo(clocks: map<ClientId, Clock>, w: WriteConnection): (info: Writer)
      requires w in Writers()
      reads this, pools.Values, Readers(), Writers()
      ensures info.id in pools && w in pools[info.id].writeConnections
    {
      var plan := Plans(clocks)[WriterOf(w)];
      var i :| 0 <= i < |plan.ws| && plan.ws[i] == w;
      Writer(WriterOf(w), w.status, w.idleSince, plan.WriteDead()[i])
    }

    /** The loop, and the replacement of the map by what is kept of it. */
    method Replace(clocks: map<ClientId, Clock>, ghost was: Scope)
      requires was.Ok() && pools == was.pools && PoolsAre(was, pools.Keys, {}) && StatusesAre(was, pools.Keys)
      requires forall id :: id in pools ==> was.plans[id].clock == ClockOf(clocks, id)
      modifies this`pools, pools.Values`done, pools.Values`readConnections, pools.Values`writeConnections
      modifies was.rs.Keys, was.ws.Keys
      ensures forall id :: id in pools ==> id in was.pools && pools[id] == was.pools[id]
      ensures PoolsAre(was, {}, pools.Keys) && StatusesAre(was, {})
    {
      var kept := CleanAll(pools, clocks, was);
      pools := kept;
    }

    /**
     * Server.clean. It does to each pool what Clean does, and drops, shut down, exactly the pools in which
     * nothing is left; so the only connections that are gone, and the only ones it closes, are the expired
     * ones.
     */
    method Clean(clocks: map<ClientId, Clock>) returns (ghost op: Op)
      requires Valid()
      modifies this`pools, pools.Values`done, pools.Values`readConnections, pools.Values`writeConnections
      modifies Readers(), Writers()
      ensures Valid() && Effect(old(Now()), op, Now()) && op == SweptBy(old(Plans(clocks)))
      ensures forall id :: id in pools ==> id in old(pools) && pools[id] == old(pools)[id]
      ensures forall id :: id in old(pools) ==> Reduced(old(pools)[id], id in pools, old(Plans(clocks))[id])
      ensures forall id :: id in old(pools) ==>
                var plan := old(Plans(clocks))[id]; Settled(plan, plan.ReadDead(), plan.WriteDead())
    {
      ghost var was, before := Snapshot(clocks), Now();
      assert was.Ok() by {
        SnapshotOk(clocks);
      }
      assert PoolsAre(was, pools.Keys, {}) && StatusesAre(was, pools.Keys)
             && forall id :: id in pools ==> was.plans[id].clock == ClockOf(clocks, id) by {
        SnapshotBegins(clocks);
      }
      Replace(clocks, was);
      forall id | id in was.pools ensures Reduced(was.pools[id], id in pools, was.plans[id]) {
        assert ReducedAt(was, pools.Keys, id);
      }
      op := SweptBy(was.plans);
      assert Effect(before, op, Now()) by {
        SweptHasEffect(was, before, Now());
      }
      forall id | id in was.plans ensures Settled(was.plans[id], was.plans[id].ReadDead(), was.plans[id].WriteDead()) {
        AllSettled(was, id);
      }
    }
  }

  ghost function SweptBy(plans: map<ClientId, Plan>): Op
    requires forall id :: id in plans ==> plans[id].Ok()
  {
    Swept(map id | id in plans :: DeadOf(plans[id]))
  }

  ghost function DeadOf(plan: Plan): Dead
    requires plan.Ok()
  {
    Dead(plan.ReadDead(), plan.WriteDead())
  }

  lemma AllSettled(was: Scope, id: ClientId)
    requires was.Ok() && StatusesAre(was, {}) && id in was.plans
    ensures Settled(was.plans[id], was.plans[id].ReadDead(), was.plans[id].WriteDead())
  {
    assert was.IndexedAt(id);
  }

  lemma SweptHasEffect(was: Scope, v: View, v': View)
    requires was.Sized() && v.Keys == was.pools.Keys && v'.Keys <= v.Keys && PoolsAre(was, {}, v'.Keys)
    requires forall id :: id in v ==> v[id] == Members(was.plans[id].rs, was.plans[id].ws)
    requires forall id :: id in v' ==>
               v'[id] == Members(was.pools[id].readConnections, was.pools[id].writeConnections)
    ensures Effect(v, SweptBy(was.plans), v')
  {
    var dead := SweptBy(was.plans).dead;
    forall id | id in v
      ensures id in v' <==> Spared(v[id], dead[id]) != NOBODY
      ensures id in v' ==> v'[id] == Spared(v[id], dead[id])
    {
      assert ReducedAt(was, v'.Keys, id);
    }
  }
}
