/**
 * Which mutexes the routines of server and client acquire, in which order, and why no set of threads
 * can wait for each other: every routine takes the server lock before a pool lock before a connection lock.
 */
module LockOrder {
  import opened Types

  type Tid = nat

  datatype Side = AtServer | AtClient

  /** A pool; capacity is that of its idle channel. */
  datatype Pid = Pid(side: Side, n: nat, capacity: nat)

  datatype Conn = Conn(pool: Pid, n: nat)

  datatype Lock = ServerLock | PoolLock(p: Pid) | ConnLock(c: Conn) | TokenMutex

  /**
   * Offer is the send on the idle channel; Pop is GetValueWithTimeout, which takes any number of entries off
   * it; Act is anything that touches neither a mutex nor an idle channel.
   */
  datatype Op = Acquire(l: Lock) | Release(l: Lock) | Offer(p: Pid) | Pop(p: Pid) | Act

  function Rank(l: Lock): nat {
    match l
    case ServerLock => 0
    case PoolLock(_) => 1
    case ConnLock(_) => 2
    case TokenMutex => 3
  }

  // ---- The routines ----

  function Locked(l: Lock, body: seq<Op>): seq<Op> { [Acquire(l)] + body + [Release(l)] }

  function TakeOps(c: Conn): seq<Op> { Locked(ConnLock(c), [Act]) }

  function CloseOps(c: Conn): seq<Op> { Locked(ConnLock(c), [Act]) }

  /** WriteConnection.Release: a closed connection is not offered. */
  function ReleaseOps(c: Conn, closed: bool): seq<Op> {
    Locked(ConnLock(c), if closed then [Act] else [Act, Offer(c.pool)])
  }

  function RemoveOps(p: Pid): seq<Op> { Locked(PoolLock(p), [Act]) }

  /** A loop over connections of a pool that locks each of them: Clean and the loops of Shutdown. */
  function EachConn(p: Pid, cs: seq<nat>): seq<Op> {
    if cs == [] then [] else CloseOps(Conn(p, cs[0])) + EachConn(p, cs[1..])
  }

  function PoolShutdownOps(p: Pid, cs: seq<nat>): seq<Op> { Locked(PoolLock(p), EachConn(p, cs) + [Act]) }

  function IsEmptyOps(p: Pid, cs: seq<nat>): seq<Op> { Locked(PoolLock(p), EachConn(p, cs) + [Act]) }

  /** A pool, its connections, and whether Server.clean finds it empty. */
  datatype Visit = Visit(p: Pid, cs: seq<nat>, empty: bool)

  function CleanOps(vs: seq<Visit>): seq<Op> {
    if vs == [] then []
    else IsEmptyOps(vs[0].p, vs[0].cs) + (if vs[0].empty then PoolShutdownOps(vs[0].p, []) else []) + CleanOps(vs[1..])
  }

  function ShutdownOps(vs: seq<Visit>): seq<Op> {
    if vs == [] then [] else PoolShutdownOps(vs[0].p, vs[0].cs) + ShutdownOps(vs[1..])
  }

  /** After a successful Take: the Release of a success or a ping, or Close and Remove. */
  function UseOps(c: Conn, ok: bool, closed: bool): seq<Op> {
    [Act] + if ok then ReleaseOps(c, closed) else CloseOps(c) + RemoveOps(c.pool)
  }

  /** Take, outside the pool lock, and what follows. */
  function TakeAndUse(p: Pid, got: Option<nat>, taken: bool, ok: bool, closed: bool): seq<Op> {
    if got == None then []
    else TakeOps(Conn(p, got.value)) + if taken then UseOps(Conn(p, got.value), ok, closed) else []
  }

  /** One constructor per routine that touches a mutex; the arguments are the outcomes it depends on. */
  datatype Routine =
    | ServerClean(vs: seq<Visit>)
    | ServerShutdown(vs: seq<Visit>)
    | Register(p: Pid)
    | ServerRequest(p: Pid, got: Option<nat>, taken: bool, ok: bool, closed: bool)
    | ConnectionStatus(p: Pid, got: Option<nat>, taken: bool, closed: bool)
    | ClientRequest(p: Pid, got: Option<nat>, taken: bool, ok: bool, closed: bool)
    | Connector(p: Pid, failed: Option<nat>)
    | ClientShutdown(p: Pid, cs: seq<nat>)
    | WriteLoop(c: Conn, closed: bool)
    | ReadLoop(c: Conn)
    | ReadPinger(c: Conn)
    | RefreshToken(entered: bool, killed: bool)

  /** The routines of the server run on its pools, those of the client on its own. */
  ghost predicate Proper(r: Routine) {
    match r
    case ServerClean(vs) => forall v :: v in vs ==> v.p.side == AtServer
    case ServerShutdown(vs) => forall v :: v in vs ==> v.p.side == AtServer
    case Register(p) => p.side == AtServer
    case ServerRequest(p, _, _, _, _) => p.side == AtServer
    case ConnectionStatus(p, _, _, _) => p.side == AtServer
    case ClientRequest(p, _, _, _, _) => p.side == AtClient
    case Connector(p, _) => p.side == AtClient
    case ClientShutdown(p, _) => p.side == AtClient
    case _ => true
  }

  function Script(r: Routine): seq<Op> {
    match r
    case ServerClean(vs) => Locked(ServerLock, CleanOps(vs) + [Act])
    case ServerShutdown(vs) => ShutdownOps(vs)
    case Register(p) => [Act] + Locked(ServerLock, [Act] + Locked(PoolLock(p), [Act]))
    case ServerRequest(p, got, taken, ok, closed) => [Pop(p)] + TakeAndUse(p, got, taken, ok, closed)
    case ConnectionStatus(p, got, taken, closed) =>
      Locked(PoolLock(p), [Act]) + [Pop(p)] + TakeAndUse(p, got, taken, true, closed)
    case ClientRequest(p, got, taken, ok, closed) =>
      // The client waits for an entry, and takes it, with the pool locked.
      Locked(PoolLock(p), [Pop(p)] + if got == None then [] else TakeOps(Conn(p, got.value)))
      + if got != None && taken then UseOps(Conn(p, got.value), ok, closed) else []
    case Connector(p, failed) =>
      Locked(PoolLock(p), [Act] + if failed == None then [] else CloseOps(Conn(p, failed.value)) + [Act])
    case ClientShutdown(p, cs) => PoolShutdownOps(p, cs)
    case WriteLoop(c, closed) => ReleaseOps(c, closed) + [Act] + RemoveOps(c.pool) + CloseOps(c)
    case ReadLoop(c) => [Act] + RemoveOps(c.pool) + CloseOps(c)
    case ReadPinger(c) => [Act] + CloseOps(c) + RemoveOps(c.pool)
    case RefreshToken(entered, killed) =>
      Locked(TokenMutex, [Act]) + if entered && !killed then [Act] + Locked(TokenMutex, [Act]) else []
  }

  // ---- Ordered scripts ----

  /** Nothing is acquired above the token mutex or a connection lock, and only its own connections above a pool. */
  predicate MayTake(held: seq<Lock>, l: Lock) {
    held == []
    || var top := held[|held| - 1];
       Rank(top) < Rank(l) <= 2 && (top.PoolLock? && l.ConnLock? ==> l.c.pool == top.p)
  }

  predicate MayRelease(held: seq<Lock>, l: Lock) { held != [] && held[|held| - 1] == l }

  /** A connection is offered to its own pool, with its own lock held and no other. */
  predicate MayOffer(held: seq<Lock>, p: Pid) { |held| == 1 && held[0].ConnLock? && held[0].c.pool == p }

  /** The server takes entries off the channel with nothing locked, the client with the pool locked. */
  predicate MayPop(held: seq<Lock>, p: Pid) {
    held == match p.side case AtServer => [] case AtClient => [PoolLock(p)]
  }

  predicate May(held: seq<Lock>, op: Op) {
    match op
    case Acquire(l) => MayTake(held, l)
    case Release(l) => MayRelease(held, l)
    case Offer(p) => MayOffer(held, p)
    case Pop(p) => MayPop(held, p)
    case Act => true
  }

  function HeldAfter(held: seq<Lock>, op: Op): seq<Lock>
    requires May(held, op)
  {
    match op
    case Acquire(l) => held + [l]
    case Release(_) => held[..|held| - 1]
    case _ => held
  }

  /** The locks held after the operations, or None if one of them is out of order. */
  function After(held: seq<Lock>, ops: seq<Op>): Option<seq<Lock>>
    decreases |ops|
  {
    if ops == [] then Some(held)
    else if May(held, ops[0]) then After(HeldAfter(held, ops[0]), ops[1..])
    else None
  }

  ghost predicate Ordered(ops: seq<Op>) { After([], ops) == Some([]) }

  lemma {:induction false} AfterConcat(held: seq<Lock>, a: seq<Op>, b: seq<Op>)
    ensures After(held, a).Some? ==> After(held, a + b) == After(After(held, a).value, b)
    decreases |a|
  {
    if a == [] {
      assert a + b == b;
    } else {
      assert (a + b)[0] == a[0] && (a + b)[1..] == a[1..] + b;
      if May(held, a[0]) {
        AfterConcat(HeldAfter(held, a[0]), a[1..], b);
      }
    }
  }

  /** A piece of script that is in order from `held` and ends with the same locks held. */
  ghost predicate Neutral(held: seq<Lock>, ops: seq<Op>) { After(held, ops) == Some(held) }

  lemma NeutralConcat(held: seq<Lock>, a: seq<Op>, b: seq<Op>)
    requires Neutral(held, a) && Neutral(held, b)
    ensures Neutral(held, a + b)
  {
    AfterConcat(held, a, b);
  }

  lemma NeutralLocked(held: seq<Lock>, l: Lock, body: seq<Op>)
    requires MayTake(held, l) && Neutral(held + [l], body)
    ensures Neutral(held, Locked(l, body))
  {
    var ops := Locked(l, body);
    assert ops[0] == Acquire(l) && ops[1..] == body + [Release(l)];
    assert After(held, ops) == After(held + [l], body + [Release(l)]);
    AfterConcat(held + [l], body, [Release(l)]);
    ReleaseTop(held, l);
  }

  lemma ReleaseTop(held: seq<Lock>, l: Lock)
    ensures After(held + [l], [Release(l)]) == Some(held)
  {
    assert (held + [l])[..|held|] == held && [Release(l)][1..] == [];
  }

  lemma NeutralPlain(held: seq<Lock>, op: Op)
    requires May(held, op) && (op.Offer? || op.Pop? || op.Act?)
    ensures Neutral(held, []) && Neutral(held, [op])
  {
    assert [op][1..] == [];
    assert After(held, [op]) == After(held, []);
  }

  lemma CloseNeutral(held: seq<Lock>, c: Conn)
    requires MayTake(held, ConnLock(c))
    ensures Neutral(held, CloseOps(c)) && Neutral(held, TakeOps(c))
  {
    NeutralPlain(held + [ConnLock(c)], Act);
    NeutralLocked(held, ConnLock(c), [Act]);
  }

  lemma ReleaseNeutral(c: Conn, closed: bool)
    ensures Neutral([], ReleaseOps(c, closed))
  {
    var inner := [] + [ConnLock(c)];
    NeutralPlain(inner, Act);
    NeutralPlain(inner, Offer(c.pool));
    NeutralConcat(inner, [Act], [Offer(c.pool)]);
    assert [Act] + [Offer(c.pool)] == [Act, Offer(c.pool)];
    NeutralLocked([], ConnLock(c), if closed then [Act] else [Act, Offer(c.pool)]);
  }

  lemma {:induction false} EachConnNeutral(held: seq<Lock>, p: Pid, cs: seq<nat>)
    requires held != [] && held[|held| - 1] == PoolLock(p)
    ensures Neutral(held, EachConn(p, cs))
    decreases |cs|
  {
    if cs != [] {
      CloseNeutral(held, Conn(p, cs[0]));
      EachConnNeutral(held, p, cs[1..]);
      NeutralConcat(held, CloseOps(Conn(p, cs[0])), EachConn(p, cs[1..]));
    }
  }

  lemma PoolOpsNeutral(held: seq<Lock>, p: Pid, cs: seq<nat>)
    requires MayTake(held, PoolLock(p))
    ensures Neutral(held, PoolShutdownOps(p, cs)) && Neutral(held, IsEmptyOps(p, cs)) && Neutral(held, RemoveOps(p))
  {
    var inner := held + [PoolLock(p)];
    NeutralPlain(inner, Act);
    EachConnNeutral(inner, p, cs);
    NeutralConcat(inner, EachConn(p, cs), [Act]);
    NeutralLocked(held, PoolLock(p), EachConn(p, cs) + [Act]);
    NeutralLocked(held, PoolLock(p), [Act]);
  }

  lemma {:induction false} CleanNeutral(vs: seq<Visit>)
    ensures Neutral([ServerLock], CleanOps(vs))
    decreases |vs|
  {
    var held := [ServerLock];
    if vs != [] {
      PoolOpsNeutral(held, vs[0].p, vs[0].cs);
      PoolOpsNeutral(held, vs[0].p, []);
      NeutralPlain(held, Act);
      CleanNeutral(vs[1..]);
      var a := IsEmptyOps(vs[0].p, vs[0].cs);
      var b := if vs[0].empty then PoolShutdownOps(vs[0].p, []) else [];
      NeutralConcat(held, a, b);
      NeutralConcat(held, a + b, CleanOps(vs[1..]));
    }
  }

  lemma {:induction false} ShutdownNeutral(vs: seq<Visit>)
    ensures Neutral([], ShutdownOps(vs))
    decreases |vs|
  {
    if vs != [] {
      PoolOpsNeutral([], vs[0].p, vs[0].cs);
      ShutdownNeutral(vs[1..]);
      NeutralConcat([], PoolShutdownOps(vs[0].p, vs[0].cs), ShutdownOps(vs[1..]));
    }
  }

  lemma UseNeutral(c: Conn, ok: bool, closed: bool)
    ensures Neutral([], UseOps(c, ok, closed))
  {
    NeutralPlain([], Act);
    CloseNeutral([], c);
    ReleaseNeutral(c, closed);
    PoolOpsNeutral([], c.pool, []);
    NeutralConcat([], CloseOps(c), RemoveOps(c.pool));
    NeutralConcat([], [Act], if ok then ReleaseOps(c, closed) else CloseOps(c) + RemoveOps(c.pool));
  }

  lemma TakeAndUseNeutral(p: Pid, got: Option<nat>, taken: bool, ok: bool, closed: bool)
    ensures Neutral([], TakeAndUse(p, got, taken, ok, closed))
  {
    NeutralPlain([], Act);
    if got != None {
      var c := Conn(p, got.value);
      CloseNeutral([], c);
      UseNeutral(c, ok, closed);
      NeutralConcat([], TakeOps(c), if taken then UseOps(c, ok, closed) else []);
    }
  }

  /**
   * Every routine acquires its mutexes in the order server, pool, connection, and releases them all. It offers
   * with nothing but the connection locked, and the client's takes entries with nothing but the pool locked.
   */
  lemma EveryRoutineIsOrdered(r: Routine)
    requires Proper(r)
    ensures Ordered(Script(r))
  {
    NeutralPlain([], Act);
    match r
    case ServerClean(vs) =>
      var inner := [] + [ServerLock];
      assert inner == [ServerLock];
      CleanNeutral(vs);
      NeutralPlain(inner, Act);
      NeutralConcat(inner, CleanOps(vs), [Act]);
      NeutralLocked([], ServerLock, CleanOps(vs) + [Act]);
    case ServerShutdown(vs) => ShutdownNeutral(vs);
    case Register(p) =>
      var inner := [] + [ServerLock];
      NeutralPlain(inner, Act);
      PoolOpsNeutral(inner, p, []);
      NeutralConcat(inner, [Act], RemoveOps(p));
      NeutralLocked([], ServerLock, [Act] + RemoveOps(p));
      NeutralConcat([], [Act], Locked(ServerLock, [Act] + RemoveOps(p)));
    case ServerRequest(p, got, taken, ok, closed) =>
      NeutralPlain([], Pop(p));
      TakeAndUseNeutral(p, got, taken, ok, closed);
      NeutralConcat([], [Pop(p)], TakeAndUse(p, got, taken, ok, closed));
    case ConnectionStatus(p, got, taken, closed) =>
      NeutralPlain([], Pop(p));
      PoolOpsNeutral([], p, []);
      NeutralConcat([], RemoveOps(p), [Pop(p)]);
      TakeAndUseNeutral(p, got, taken, true, closed);
      NeutralConcat([], RemoveOps(p) + [Pop(p)], TakeAndUse(p, got, taken, true, closed));
    case ClientRequest(p, got, taken, ok, closed) => ClientRequestOrdered(p, got, taken, ok, closed);
    case Connector(p, failed) => ConnectorOrdered(p, failed);
    case ClientShutdown(p, cs) => PoolOpsNeutral([], p, cs);
    case RefreshToken(entered, killed) =>
      NeutralPlain([] + [TokenMutex], Act);
      NeutralLocked([], TokenMutex, [Act]);
      NeutralConcat([], [Act], Locked(TokenMutex, [Act]));
      NeutralConcat([], Locked(TokenMutex, [Act]),
        if entered && !killed then [Act] + Locked(TokenMutex, [Act]) else []);
    case _ => LoopsOrdered(r.c, if r.WriteLoop? then r.closed else true);
  }

  lemma ClientRequestOrdered(p: Pid, got: Option<nat>, taken: bool, ok: bool, closed: bool)
    requires p.side == AtClient
    ensures Ordered(Script(ClientRequest(p, got, taken, ok, closed)))
  {
    var inner := [] + [PoolLock(p)];
    NeutralPlain(inner, Pop(p));
    NeutralPlain([], Act);
    var take := if got == None then [] else TakeOps(Conn(p, got.value));
    if got != None {
      CloseNeutral(inner, Conn(p, got.value));
      UseNeutral(Conn(p, got.value), ok, closed);
    }
    NeutralConcat(inner, [Pop(p)], take);
    NeutralLocked([], PoolLock(p), [Pop(p)] + take);
    NeutralConcat([], Locked(PoolLock(p), [Pop(p)] + take),
      if got != None && taken then UseOps(Conn(p, got.value), ok, closed) else []);
  }

  lemma ConnectorOrdered(p: Pid, failed: Option<nat>)
    ensures Ordered(Script(Connector(p, failed)))
  {
    var inner := [] + [PoolLock(p)];
    NeutralPlain(inner, Act);
    var tail := if failed == None then [] else CloseOps(Conn(p, failed.value)) + [Act];
    if failed != None {
      CloseNeutral(inner, Conn(p, failed.value));
      NeutralConcat(inner, CloseOps(Conn(p, failed.value)), [Act]);
    }
    NeutralConcat(inner, [Act], tail);
    NeutralLocked([], PoolLock(p), [Act] + tail);
  }

  lemma LoopsOrdered(c: Conn, closed: bool)
    ensures Ordered(Script(WriteLoop(c, closed))) && Ordered(Script(ReadLoop(c))) && Ordered(Script(ReadPinger(c)))
  {
    var remove, close := RemoveOps(c.pool), CloseOps(c);
    NeutralPlain([], Act);
    CloseNeutral([], c);
    ReleaseNeutral(c, closed);
    PoolOpsNeutral([], c.pool, []);
    NeutralConcat([], [Act], remove);
    NeutralConcat([], [Act] + remove, close);
    NeutralConcat([], [Act], close);
    NeutralConcat([], [Act] + close, remove);
    NeutralConcat([], ReleaseOps(c, closed), [Act]);
    NeutralConcat([], ReleaseOps(c, closed) + [Act], remove);
    NeutralConcat([], ReleaseOps(c, closed) + [Act] + remove, close);
  }

  // ---- What the scripts lock, offer and take ----

  /** The mutexes of a pool and of so many of its connections. */
  ghost predicate OfPool(p: Pid, cs: seq<nat>, l: Lock) {
    l == PoolLock(p) || exists i :: 0 <= i < |cs| && l == ConnLock(Conn(p, cs[i]))
  }

  /** Of some of the pools visited. */
  ghost predicate OfPools(vs: seq<Visit>, l: Lock) {
    exists i :: 0 <= i < |vs| && OfPool(vs[i].p, vs[i].cs, l)
  }

  /** The mutexes that a routine locks. */
  ghost predicate Locks(r: Routine, l: Lock) {
    match r
    case ServerClean(vs) => l == ServerLock || OfPools(vs, l)
    case ServerShutdown(vs) => OfPools(vs, l)
    case Register(p) => l == ServerLock || l == PoolLock(p)
    case ServerRequest(p, got, taken, ok, _) =>
      got.Some? && (l == ConnLock(Conn(p, got.value)) || (taken && !ok && l == PoolLock(p)))
    case ConnectionStatus(p, got, _, _) => l == PoolLock(p) || (got.Some? && l == ConnLock(Conn(p, got.value)))
    case ClientRequest(p, got, _, _, _) => l == PoolLock(p) || (got.Some? && l == ConnLock(Conn(p, got.value)))
    case Connector(p, failed) => l == PoolLock(p) || (failed.Some? && l == ConnLock(Conn(p, failed.value)))
    case ClientShutdown(p, cs) => OfPool(p, cs, l)
    case RefreshToken(_, _) => l == TokenMutex
    case _ => l == ConnLock(r.c) || l == PoolLock(r.c.pool)
  }

  /**
   * The pools that a routine offers connections to: those of the first Release of a connection, and of that of a
   * successful request or of a ping, unless the connection is closed.
   */
  ghost predicate Offers(r: Routine, p: Pid) {
    match r
    case ServerRequest(q, got, taken, ok, closed) => q == p && got.Some? && taken && ok && !closed
    case ConnectionStatus(q, got, taken, closed) => q == p && got.Some? && taken && !closed
    case ClientRequest(q, got, taken, ok, closed) => q == p && got.Some? && taken && ok && !closed
    case WriteLoop(c, closed) => c.pool == p && !closed
    case _ => false
  }

  /** What a routine does, apart from unlocking and from what needs no mutex and no channel. */
  ghost predicate Does(r: Routine, op: Op) {
    match op
    case Acquire(l) => Locks(r, l)
    case Offer(p) => Offers(r, p)
    case Pop(p) => (r.ServerRequest? || r.ConnectionStatus? || r.ClientRequest?) && r.p == p
    case _ => false
  }

  ghost predicate Counts(op: Op) { op.Acquire? || op.Offer? || op.Pop? }

  lemma InLocked(l: Lock, body: seq<Op>, op: Op)
    requires Counts(op)
    ensures op in Locked(l, body) <==> op == Acquire(l) || op in body
  {
  }

  lemma InConnOps(c: Conn, closed: bool, op: Op)
    requires Counts(op)
    ensures op in CloseOps(c) <==> op == Acquire(ConnLock(c))
    ensures op in TakeOps(c) <==> op == Acquire(ConnLock(c))
    ensures op in ReleaseOps(c, closed) <==> op == Acquire(ConnLock(c)) || (!closed && op == Offer(c.pool))
  {
    InLocked(ConnLock(c), [Act], op);
    InLocked(ConnLock(c), if closed then [Act] else [Act, Offer(c.pool)], op);
  }

  lemma InRemove(p: Pid, op: Op)
    requires Counts(op)
    ensures op in RemoveOps(p) <==> op == Acquire(PoolLock(p))
  {
    InLocked(PoolLock(p), [Act], op);
  }

  lemma InUse(c: Conn, ok: bool, closed: bool, op: Op)
    requires Counts(op)
    ensures op in UseOps(c, ok, closed) <==>
            || op == Acquire(ConnLock(c))
            || (if ok then !closed && op == Offer(c.pool) else op == Acquire(PoolLock(c.pool)))
  {
    InConnOps(c, closed, op);
    InRemove(c.pool, op);
  }

  lemma InTakeAndUse(p: Pid, got: Option<nat>, taken: bool, ok: bool, closed: bool, op: Op)
    requires Counts(op)
    ensures op in TakeAndUse(p, got, taken, ok, closed) <==>
            && got.Some?
            && (op == Acquire(ConnLock(Conn(p, got.value))) || (taken && op in UseOps(Conn(p, got.value), ok, closed)))
  {
    if got.Some? {
      InConnOps(Conn(p, got.value), closed, op);
    }
  }

  lemma {:induction false} InEachConn(p: Pid, cs: seq<nat>, op: Op)
    requires Counts(op)
    ensures op in EachConn(p, cs) <==> exists i :: 0 <= i < |cs| && op == Acquire(ConnLock(Conn(p, cs[i])))
    decreases |cs|
  {
    if cs != [] {
      InConnOps(Conn(p, cs[0]), true, op);
      InEachConn(p, cs[1..], op);
      assert forall i :: 0 < i < |cs| ==> cs[i] == cs[1..][i - 1];
    }
  }

  lemma InVisit(p: Pid, cs: seq<nat>, op: Op)
    requires Counts(op)
    ensures op in PoolShutdownOps(p, cs) <==> op.Acquire? && OfPool(p, cs, op.l)
    ensures op in IsEmptyOps(p, cs) <==> op.Acquire? && OfPool(p, cs, op.l)
  {
    InEachConn(p, cs, op);
    InLocked(PoolLock(p), EachConn(p, cs) + [Act], op);
  }

  lemma {:induction false} InClean(vs: seq<Visit>, op: Op)
    requires Counts(op)
    ensures op in CleanOps(vs) <==> op.Acquire? && OfPools(vs, op.l)
    decreases |vs|
  {
    if vs != [] {
      InClean(vs[1..], op);
      InVisit(vs[0].p, vs[0].cs, op);
      InVisit(vs[0].p, [], op);
      assert forall i :: 0 < i < |vs| ==> vs[i] == vs[1..][i - 1];
    }
  }

  lemma {:induction false} InShutdown(vs: seq<Visit>, op: Op)
    requires Counts(op)
    ensures op in ShutdownOps(vs) <==> op.Acquire? && OfPools(vs, op.l)
    decreases |vs|
  {
    if vs != [] {
      InShutdown(vs[1..], op);
      InVisit(vs[0].p, vs[0].cs, op);
      assert forall i :: 0 < i < |vs| ==> vs[i] == vs[1..][i - 1];
    }
  }

  /** The scripts lock, offer and take exactly what `Does` says. */
  lemma ScriptDoes(r: Routine, op: Op)
    requires Counts(op)
    ensures op in Script(r) <==> Does(r, op)
  {
    match r
    case ServerClean(vs) =>
      InClean(vs, op);
      InLocked(ServerLock, CleanOps(vs) + [Act], op);
    case ServerShutdown(vs) => InShutdown(vs, op);
    case Register(p) =>
      InRemove(p, op);
      InLocked(ServerLock, [Act] + RemoveOps(p), op);
    case ClientShutdown(p, cs) => InVisit(p, cs, op);
    case RefreshToken(_, _) => InLocked(TokenMutex, [Act], op);
    case Connector(p, failed) => ConnectorDoes(p, failed, op);
    case WriteLoop(c, closed) => WriteLoopDoes(c, closed, op);
    case ReadLoop(c) => ReadLoopDoes(c, op);
    case ReadPinger(c) => ReadPingerDoes(c, op);
    case _ => RequestsDo(r, op);
  }

  lemma ConnectorDoes(p: Pid, failed: Option<nat>, op: Op)
    requires Counts(op)
    ensures op in Script(Connector(p, failed)) <==> Does(Connector(p, failed), op)
  {
    if failed.Some? {
      InConnOps(Conn(p, failed.value), true, op);
    }
    InLocked(PoolLock(p), [Act] + if failed == None then [] else CloseOps(Conn(p, failed.value)) + [Act], op);
  }

  lemma WriteLoopDoes(c: Conn, closed: bool, op: Op)
    requires Counts(op)
    ensures op in Script(WriteLoop(c, closed)) <==> Does(WriteLoop(c, closed), op)
  {
    InConnOps(c, closed, op);
    InRemove(c.pool, op);
  }

  lemma ReadLoopDoes(c: Conn, op: Op)
    requires Counts(op)
    ensures op in Script(ReadLoop(c)) <==> Does(ReadLoop(c), op)
  {
    InConnOps(c, true, op);
    InRemove(c.pool, op);
  }

  lemma ReadPingerDoes(c: Conn, op: Op)
    requires Counts(op)
    ensures op in Script(ReadPinger(c)) <==> Does(ReadPinger(c), op)
  {
    InConnOps(c, true, op);
    InRemove(c.pool, op);
  }

  lemma RequestsDo(r: Routine, op: Op)
    requires Counts(op) && (r.ServerRequest? || r.ConnectionStatus? || r.ClientRequest?)
    ensures op in Script(r) <==> Does(r, op)
  {
    if r.got.Some? {
      InUse(Conn(r.p, r.got.value), if r.ConnectionStatus? then true else r.ok, r.closed, op);
      InConnOps(Conn(r.p, r.got.value), r.closed, op);
    }
    InTakeAndUse(r.p, r.got, r.taken, if r.ConnectionStatus? then true else r.ok, r.closed, op);
    InRemove(r.p, op);
    InLocked(PoolLock(r.p), [Pop(r.p)] + if r.got == None then [] else TakeOps(Conn(r.p, r.got.value)), op);
  }

  // ---- Any number of threads running them ----

  datatype Thread = Thread(held: seq<Lock>, todo: seq<Op>)

  /** queued counts the entries of the idle channels; a pool that is not there has none. */
  datatype System = System(threads: map<Tid, Thread>, queued: map<Pid, nat>)

  /** popped: how many entries the operation takes off the idle channel, if it is a Pop. */
  datatype Step = Spawn(t: Tid, r: Routine) | Run(t: Tid, popped: nat)

  function Queued(s: System, p: Pid): nat { if p in s.queued then s.queued[p] else 0 }

  predicate HasRoom(s: System, p: Pid) { Queued(s, p) < p.capacity }

  ghost predicate HeldByAny(s: System, l: Lock) {
    exists t :: t in s.threads && l in s.threads[t].held
  }

  /** Thread t has something to do and nothing keeps it from doing it. */
  ghost predicate CanStep(s: System, t: Tid) {
    && t in s.threads && s.threads[t].todo != []
    && match s.threads[t].todo[0]
       case Acquire(l) => !HeldByAny(s, l)
       case Release(l) => MayRelease(s.threads[t].held, l)
       case Offer(p) => HasRoom(s, p)
       case Pop(_) => true
       case Act => true
  }

  ghost predicate Enabled(s: System, step: Step) {
    match step
    case Spawn(t, r) => t !in s.threads && Proper(r)
    case Run(t, popped) =>
      && CanStep(s, t)
      && (s.threads[t].todo[0].Pop? ==> popped <= Queued(s, s.threads[t].todo[0].p))
  }

  function Perform(th: Thread): Thread
    requires th.todo != []
    requires th.todo[0].Release? ==> th.held != []
  {
    match th.todo[0]
    case Acquire(l) => Thread(th.held + [l], th.todo[1..])
    case Release(_) => Thread(th.held[..|th.held| - 1], th.todo[1..])
    case _ => Thread(th.held, th.todo[1..])
  }

  function QueuedAfter(s: System, op: Op, popped: nat): map<Pid, nat>
    requires op.Pop? ==> popped <= Queued(s, op.p)
  {
    match op
    case Offer(p) => s.queued[p := Queued(s, p) + 1]
    case Pop(p) => s.queued[p := Queued(s, p) - popped]
    case _ => s.queued
  }

  ghost function Apply(s: System, step: Step): System
    requires Enabled(s, step)
  {
    match step
    case Spawn(t, r) => s.(threads := s.threads[t := Thread([], Script(r))])
    case Run(t, popped) =>
      System(s.threads[t := Perform(s.threads[t])], QueuedAfter(s, s.threads[t].todo[0], popped))
  }

  ghost predicate Moves(s: System, s': System) {
    exists step :: Enabled(s, step) && s' == Apply(s, step)
  }

  ghost predicate MovesAt(run: seq<System>, i: int)
    requires 0 <= i < |run| - 1
  {
    Moves(run[i], run[i + 1])
  }

  ghost predicate IsRun(run: seq<System>) {
    && |run| > 0 && run[0] == System(map[], map[])
    && forall i :: 0 <= i < |run| - 1 ==> MovesAt(run, i)
  }

  ghost predicate Below(held: seq<Lock>, i: int, j: int)
    requires 0 <= i < j < |held|
  {
    Rank(held[i]) < Rank(held[j]) <= 2
  }

  ghost predicate Ascending(held: seq<Lock>) {
    forall i, j :: 0 <= i < j < |held| ==> Below(held, i, j)
  }

  /** The lock taken last ranks highest. */
  lemma Topmost(held: seq<Lock>, l: Lock)
    requires Ascending(held) && l in held
    ensures var top := held[|held| - 1]; l == top || Rank(l) < Rank(top) <= 2
    ensures held[|held| - 1] !in held[..|held| - 1]
  {
    var n := |held|;
    var k :| 0 <= k < n && held[k] == l;
    if k < n - 1 {
      assert Below(held, k, n - 1);
    }
    forall i | 0 <= i < n - 1 ensures held[i] != held[n - 1] {
      assert Below(held, i, n - 1);
    }
  }

  ghost predicate ThreadOk(th: Thread) {
    Ascending(th.held) && After(th.held, th.todo) == Some([])
  }

  ghost predicate Inv(s: System) {
    && (forall t :: t in s.threads ==> ThreadOk(s.threads[t]))
    && (forall t, u, l ::
          t in s.threads && u in s.threads && l in s.threads[t].held && l in s.threads[u].held ==> t == u)
  }

  lemma AscendingAfter(held: seq<Lock>, l: Lock)
    requires Ascending(held)
    ensures MayTake(held, l) ==> Ascending(held + [l])
    ensures held != [] ==> Ascending(held[..|held| - 1])
  {
    if MayTake(held, l) {
      forall i, j | 0 <= i < j < |held + [l]| ensures Below(held + [l], i, j) {
        assert j < |held| ==> Below(held, i, j);
        if i < |held| {
          Topmost(held, held[i]);
        }
      }
    }
    if held != [] {
      var rest := held[..|held| - 1];
      forall i, j | 0 <= i < j < |rest| ensures Below(rest, i, j) {
        assert Below(held, i, j);
      }
    }
  }

  lemma PerformOk(th: Thread)
    requires ThreadOk(th) && th.todo != []
    requires th.todo[0].Release? ==> th.held != []
    ensures ThreadOk(Perform(th))
  {
    AscendingAfter(th.held, if th.todo[0].Acquire? then th.todo[0].l else ServerLock);
  }

  lemma StepInv(s: System, step: Step)
    requires Inv(s) && Enabled(s, step)
    ensures Inv(Apply(s, step))
  {
    match step
    case Spawn(t, r) => EveryRoutineIsOrdered(r);
    case Run(t, _) =>
      PerformOk(s.threads[t]);
      var th := Perform(s.threads[t]);
      forall l | l in th.held ensures l in s.threads[t].held || !HeldByAny(s, l) {
      }
  }

  lemma {:induction false} RunInv(run: seq<System>, i: nat)
    requires IsRun(run) && i < |run|
    ensures Inv(run[i])
  {
    if i > 0 {
      RunInv(run, i - 1);
      assert MovesAt(run, i - 1);
      var step :| Enabled(run[i - 1], step) && run[i] == Apply(run[i - 1], step);
      StepInv(run[i - 1], step);
    }
  }

  /** No idle channel holds more than its capacity. */
  lemma {:induction false} RunFits(run: seq<System>, i: nat, p: Pid)
    requires IsRun(run) && i < |run|
    ensures Queued(run[i], p) <= p.capacity
  {
    if i > 0 {
      RunFits(run, i - 1, p);
      assert MovesAt(run, i - 1);
    }
  }

  /** Thread t waits for a mutex that thread u holds. */
  ghost predicate WaitsFor(s: System, t: Tid, u: Tid) {
    && t in s.threads && u in s.threads
    && s.threads[t].todo != [] && s.threads[t].todo[0].Acquire?
    && s.threads[t].todo[0].l in s.threads[u].held
  }

  ghost predicate WaitsNext(s: System, path: seq<Tid>, j: int)
    requires 0 <= j < |path| - 1
  {
    WaitsFor(s, path[j], path[j + 1])
  }

  /** The rank of the lock that thread t is about to acquire. */
  ghost function Wanted(s: System, t: Tid): int {
    if t in s.threads && s.threads[t].todo != [] && s.threads[t].todo[0].Acquire? then Rank(s.threads[t].todo[0].l)
    else -1
  }

  /** What a thread waits for ranks above everything it holds. */
  lemma WantedAbove(s: System, t: Tid, l: Lock)
    requires Inv(s) && t in s.threads && l in s.threads[t].held
    ensures Wanted(s, t) >= 0 ==> Rank(l) < Wanted(s, t)
  {
    assert ThreadOk(s.threads[t]);
    Topmost(s.threads[t].held, l);
  }

  lemma WantedNext(s: System, t: Tid, u: Tid, v: Tid)
    requires Inv(s) && WaitsFor(s, t, u) && WaitsFor(s, u, v)
    ensures 0 <= Wanted(s, t) < Wanted(s, u)
  {
    WantedAbove(s, u, s.threads[t].todo[0].l);
  }

  lemma {:induction false} WantedGrows(s: System, path: seq<Tid>, j: nat)
    requires Inv(s) && j < |path| - 1
    requires forall i :: 0 <= i < |path| - 1 ==> WaitsNext(s, path, i)
    ensures 0 <= Wanted(s, path[0]) && Wanted(s, path[0]) + j <= Wanted(s, path[j])
  {
    assert WaitsNext(s, path, j);
    if j > 0 {
      WantedGrows(s, path, j - 1);
      assert WaitsNext(s, path, j - 1);
      WantedNext(s, path[j - 1], path[j], path[j + 1]);
    }
  }

  /** In every reachable state the wait-for relation between threads is acyclic, and its chains are short. */
  lemma NoWaitCycle(run: seq<System>, i: nat, path: seq<Tid>)
    requires IsRun(run) && i < |run| && |path| >= 2
    requires forall j :: 0 <= j < |path| - 1 ==> WaitsNext(run[i], path, j)
    ensures path[0] != path[|path| - 1]
    ensures |path| <= 5
  {
    RunInv(run, i);
    NoCycle(run[i], path);
  }

  lemma NoCycle(s: System, path: seq<Tid>)
    requires Inv(s) && |path| >= 2
    requires forall j :: 0 <= j < |path| - 1 ==> WaitsNext(s, path, j)
    ensures path[0] != path[|path| - 1]
    ensures |path| <= 5
  {
    var n := |path|;
    WantedGrows(s, path, n - 2);
    assert WaitsNext(s, path, n - 2);
    WantedAbove(s, path[n - 1], s.threads[path[n - 2]].todo[0].l);
  }

  /** Thread t stands before an idle channel without room. */
  ghost predicate BeforeFull(s: System, t: Tid) {
    t in s.threads && s.threads[t].todo != [] && s.threads[t].todo[0].Offer? && !HasRoom(s, s.threads[t].todo[0].p)
  }

  /** From a lock holder, follow the waiting to a holder that waits for no mutex. */
  lemma {:induction false} FollowWaiting(s: System, t: Tid) returns (u: Tid)
    requires Inv(s) && t in s.threads && s.threads[t].held != []
    ensures u in s.threads && s.threads[u].held != []
    ensures CanStep(s, u) || BeforeFull(s, u)
    decreases 4 - Rank(s.threads[t].held[|s.threads[t].held| - 1])
  {
    u := t;
    var th := s.threads[t];
    assert ThreadOk(th);
    if th.todo[0].Acquire? && HeldByAny(s, th.todo[0].l) {
      var l := th.todo[0].l;
      var v :| v in s.threads && l in s.threads[v].held;
      WantedAbove(s, t, th.held[|th.held| - 1]);
      assert ThreadOk(s.threads[v]);
      Topmost(s.threads[v].held, l);
      u := FollowWaiting(s, v);
    }
  }

  /**
   * No deadlock on mutexes: whenever a lock is held, some holder can step, or a holder stands before an
   * idle channel without room. When every thread that offers has room, some holder can step.
   */
  lemma SomeHolderCanStep(run: seq<System>, i: nat, l: Lock) returns (u: Tid)
    requires IsRun(run) && i < |run| && HeldByAny(run[i], l)
    ensures u in run[i].threads && run[i].threads[u].held != []
    ensures CanStep(run[i], u) || BeforeFull(run[i], u)
    ensures (forall t :: !BeforeFull(run[i], t)) ==> CanStep(run[i], u)
  {
    RunInv(run, i);
    var t :| t in run[i].threads && l in run[i].threads[t].held;
    u := FollowWaiting(run[i], t);
  }

  // ---- When a full idle channel can get room again ----

  /** The connection is offered before its lock is released. */
  predicate OfferAhead(ops: seq<Op>, c: Conn) {
    ops != [] && ops[0] != Release(ConnLock(c)) && (ops[0] == Offer(c.pool) || OfferAhead(ops[1..], c))
  }

  /** The connection is locked before an entry is taken off the channel and before the pool is unlocked. */
  predicate Needs(ops: seq<Op>, c: Conn) {
    && ops != [] && ops[0] != Release(PoolLock(c.pool)) && ops[0] != Pop(c.pool)
    && (ops[0] == Acquire(ConnLock(c)) || Needs(ops[1..], c))
  }

  /** v has the pool of c locked and needs c, whose lock t will not release before it has offered c. */
  ghost predicate Crossed(s: System, v: Tid, t: Tid, c: Conn) {
    && v in s.threads && t in s.threads && v != t
    && PoolLock(c.pool) in s.threads[v].held && Needs(s.threads[v].todo, c)
    && ConnLock(c) in s.threads[t].held && OfferAhead(s.threads[t].todo, c)
  }

  ghost predicate Doomed(s: System, p: Pid) {
    exists v, t, c :: Crossed(s, v, t, c) && c.pool == p
  }

  /** A thread that can go on only when pool p gets unlocked or its channel gets room. */
  predicate WaitsAt(th: Thread, p: Pid) {
    th.todo != [] && (th.todo[0] == Offer(p) || th.todo[0] == Acquire(PoolLock(p)))
  }

  /** A connection lock is the last one a thread takes. */
  lemma ConnLockOnTop(th: Thread, c: Conn)
    requires ThreadOk(th) && ConnLock(c) in th.held
    ensures th.held[|th.held| - 1] == ConnLock(c) && th.todo != []
    ensures th.todo[0] in {Release(ConnLock(c)), Offer(c.pool), Act}
    ensures th.todo[0] == Offer(c.pool) ==> th.held == [ConnLock(c)]
  {
    Topmost(th.held, ConnLock(c));
  }

  /** With a pool locked a thread takes its connections, or releases, or takes entries off the channel. */
  lemma WithPoolLocked(th: Thread, p: Pid)
    requires ThreadOk(th) && PoolLock(p) in th.held
    ensures th.todo != [] && !th.todo[0].Offer?
    ensures th.todo[0].Acquire? ==> th.todo[0].l.ConnLock? && th.todo[0].l.c.pool == p
    ensures th.todo[0].Pop? ==> th.todo[0].p == p
  {
    Topmost(th.held, PoolLock(p));
  }

  lemma OffererStays(th: Thread, c: Conn)
    requires ThreadOk(th) && ConnLock(c) in th.held && OfferAhead(th.todo, c)
    ensures th.todo[0] == Act || th.todo[0] == Offer(c.pool)
    ensures th.todo[0] == Act ==> ConnLock(c) in Perform(th).held && OfferAhead(Perform(th).todo, c)
  {
    ConnLockOnTop(th, c);
  }

  lemma NeederStays(th: Thread, c: Conn)
    requires ThreadOk(th) && PoolLock(c.pool) in th.held && Needs(th.todo, c)
    ensures th.todo[0] != Pop(c.pool) && !WaitsAt(th, c.pool)
    ensures th.todo[0] != Acquire(ConnLock(c)) ==> PoolLock(c.pool) in Perform(th).held && Needs(Perform(th).todo, c)
  {
    WithPoolLocked(th, c.pool);
    var k :| 0 <= k < |th.held| && th.held[k] == PoolLock(c.pool);
    if th.todo[0] != Acquire(ConnLock(c)) && k < |Perform(th).held| {
      assert Perform(th).held[k] == PoolLock(c.pool);
    }
  }

  lemma CrossedStep(s: System, step: Step, v: Tid, t: Tid, c: Conn)
    requires Inv(s) && Enabled(s, step)
    requires Crossed(s, v, t, c) && c.pool.side == AtClient && !HasRoom(s, c.pool)
    ensures Crossed(Apply(s, step), v, t, c) && !HasRoom(Apply(s, step), c.pool)
    ensures step.Run? ==> !WaitsAt(s.threads[step.t], c.pool)
  {
    OffererStays(s.threads[t], c);
    NeederStays(s.threads[v], c);
    assert HeldByAny(s, ConnLock(c)) && HeldByAny(s, PoolLock(c.pool));
    if step.Run? {
      PopsWithPoolLocked(s, step.t, c.pool);
    }
  }

  lemma PopsWithPoolLocked(s: System, t: Tid, p: Pid)
    requires Inv(s) && CanStep(s, t) && p.side == AtClient
    ensures s.threads[t].todo[0] == Pop(p) ==> PoolLock(p) in s.threads[t].held
  {
    assert ThreadOk(s.threads[t]);
  }

  ghost predicate StillWaiting(s: System, s': System, p: Pid) {
    forall w :: w in s.threads && WaitsAt(s.threads[w], p) ==> w in s'.threads && s'.threads[w] == s.threads[w]
  }

  lemma DoomedStep(s: System, step: Step, p: Pid)
    requires Inv(s) && Enabled(s, step) && p.side == AtClient && !HasRoom(s, p) && Doomed(s, p)
    ensures !HasRoom(Apply(s, step), p) && Doomed(Apply(s, step), p) && StillWaiting(s, Apply(s, step), p)
  {
    var v, t, c :| Crossed(s, v, t, c) && c.pool == p;
    CrossedStep(s, step, v, t, c);
    assert Crossed(Apply(s, step), v, t, c);
    OnlyOneMoves(s, step, p);
  }

  lemma OnlyOneMoves(s: System, step: Step, p: Pid)
    requires Enabled(s, step) && (step.Run? ==> !WaitsAt(s.threads[step.t], p))
    ensures StillWaiting(s, Apply(s, step), p)
  {
  }

  lemma DoomedIsLocked(s: System, p: Pid)
    requires Doomed(s, p)
    ensures HeldByAny(s, PoolLock(p))
  {
    var v, t, c :| Crossed(s, v, t, c) && c.pool == p;
  }

  ghost function Last(run: seq<System>): System
    requires |run| > 0
  {
    run[|run| - 1]
  }

  /**
   * From a doomed state with a full channel, in the client: the channel stays full, the pool stays locked, and
   * no thread that offers a connection to the pool or wants its lock ever goes on.
   */
  lemma {:induction false} DoomedForever(run: seq<System>, i: nat, j: nat, p: Pid)
    requires IsRun(run) && i <= j < |run|
    requires p.side == AtClient && !HasRoom(run[i], p) && Doomed(run[i], p)
    ensures !HasRoom(run[j], p) && Doomed(run[j], p) && HeldByAny(run[j], PoolLock(p))
    ensures StillWaiting(run[i], run[j], p)
    decreases j
  {
    if i < j {
      DoomedForever(run, i, j - 1, p);
      var step := LastStep(run, j);
      DoomedStep(run[j - 1], step, p);
    }
    DoomedIsLocked(run[j], p);
  }

  lemma LastStep(run: seq<System>, j: nat) returns (step: Step)
    requires IsRun(run) && 0 < j < |run|
    ensures Inv(run[j - 1]) && Enabled(run[j - 1], step) && run[j] == Apply(run[j - 1], step)
  {
    RunInv(run, j - 1);
    assert MovesAt(run, j - 1);
    step :| Enabled(run[j - 1], step) && run[j] == Apply(run[j - 1], step);
  }

  lemma Extend(run: seq<System>, step: Step) returns (longer: seq<System>)
    requires IsRun(run) && Enabled(Last(run), step)
    ensures IsRun(longer) && run <= longer && |longer| == |run| + 1
    ensures Last(longer) == Apply(Last(run), step)
  {
    var next := Apply(Last(run), step);
    assert Moves(Last(run), next);
    longer := run + [next];
    forall i | 0 <= i < |longer| - 1 ensures MovesAt(longer, i) {
      assert i < |run| - 1 ==> MovesAt(run, i);
    }
  }

  /** The next operation of a thread that has a connection locked and will not offer it. */
  lemma NextBeforeUnlock(th: Thread, c: Conn)
    requires ThreadOk(th) && ConnLock(c) in th.held && !OfferAhead(th.todo, c)
    ensures th.todo != [] && (th.todo[0] == Release(ConnLock(c)) || th.todo[0] == Act)
    ensures th.held == th.held[..|th.held| - 1] + [ConnLock(c)]
    ensures th.todo[0] == Act ==> !OfferAhead(th.todo[1..], c)
  {
    ConnLockOnTop(th, c);
  }

  lemma StepBeforeUnlock(run: seq<System>, t: Tid, c: Conn) returns (longer: seq<System>)
    requires IsRun(run) && t in Last(run).threads && ConnLock(c) in Last(run).threads[t].held
    requires !OfferAhead(Last(run).threads[t].todo, c)
    ensures IsRun(longer) && run <= longer && Last(run).threads[t].todo != []
    ensures var th := Perform(Last(run).threads[t]); Last(longer) == Last(run).(threads := Last(run).threads[t := th])
  {
    RunInv(run, |run| - 1);
    NextBeforeUnlock(Last(run).threads[t], c);
    longer := Extend(run, Run(t, 0));
  }

  /** Nothing keeps the holder of a connection lock from releasing it, unless it has yet to offer. */
  lemma {:induction false} Unlock(run: seq<System>, t: Tid, c: Conn) returns (longer: seq<System>, th: Thread)
    requires IsRun(run) && t in Last(run).threads && ConnLock(c) in Last(run).threads[t].held
    requires !OfferAhead(Last(run).threads[t].todo, c)
    ensures IsRun(longer) && run <= longer
    ensures Last(longer) == Last(run).(threads := Last(run).threads[t := th])
    ensures Last(run).threads[t].held == th.held + [ConnLock(c)]
    decreases |Last(run).threads[t].todo|
  {
    var s := Last(run);
    RunInv(run, |run| - 1);
    NextBeforeUnlock(s.threads[t], c);
    longer := StepBeforeUnlock(run, t, c);
    th := Perform(s.threads[t]);
    if s.threads[t].todo[0] == Act {
      var once := longer;
      longer, th := Unlock(once, t, c);
      assert Last(longer).threads == s.threads[t := th];
    }
  }

  /** A step of the thread that has the pool locked does not cross it with another. */
  lemma StaysClear(s: System, v: Tid, popped: nat, p: Pid)
    requires Inv(s) && Enabled(s, Run(v, popped)) && !Doomed(s, p) && PoolLock(p) in s.threads[v].held
    requires s.threads[v].todo[0] != Pop(p) && s.threads[v].todo[0] != Release(PoolLock(p))
    ensures PoolLock(p) in Apply(s, Run(v, popped)).threads[v].held
    ensures !HasRoom(s, p) && !s.threads[v].todo[0].Pop? ==> !HasRoom(Apply(s, Run(v, popped)), p)
    ensures !Doomed(Apply(s, Run(v, popped)), p)
  {
    var s' := Apply(s, Run(v, popped));
    assert ThreadOk(s.threads[v]);
    WithPoolLocked(s.threads[v], p);
    var k :| 0 <= k < |s.threads[v].held| && s.threads[v].held[k] == PoolLock(p);
    assert k < |s'.threads[v].held| && s'.threads[v].held[k] == PoolLock(p);
    if Doomed(s', p) {
      var u, t, c :| Crossed(s', u, t, c) && c.pool == p;
      StepInv(s, Run(v, popped));
      assert u == v;
      assert Crossed(s, v, t, c);
    }
  }

  /** Nor does the release of a connection lock. */
  lemma StaysClearOf(s: System, t: Tid, th: Thread, c: Conn, p: Pid)
    requires !Doomed(s, p) && t in s.threads && ThreadOk(s.threads[t])
    requires s.threads[t].held == th.held + [ConnLock(c)] && PoolLock(p) !in th.held
    ensures !Doomed(s.(threads := s.threads[t := th]), p)
  {
    var s' := s.(threads := s.threads[t := th]);
    BelowConnLock(s.threads[t], th, c);
    if Doomed(s', p) {
      var u, w, d :| Crossed(s', u, w, d) && d.pool == p;
      assert Crossed(s, u, w, d);
    }
  }

  lemma BelowConnLock(before: Thread, after: Thread, c: Conn)
    requires ThreadOk(before) && before.held == after.held + [ConnLock(c)]
    ensures forall l :: l in after.held ==> Rank(l) < 2
  {
    forall l | l in after.held ensures Rank(l) < 2 {
      Topmost(before.held, l);
      assert before.held[..|after.held|] == after.held;
    }
  }

  lemma LockIsFree(s: System, t: Tid, th: Thread, c: Conn)
    requires Inv(s) && t in s.threads && s.threads[t].held == th.held + [ConnLock(c)]
    ensures !HeldByAny(s.(threads := s.threads[t := th]), ConnLock(c))
  {
    assert ThreadOk(s.threads[t]) && ConnLock(c) in s.threads[t].held;
    BelowConnLock(s.threads[t], th, c);
  }

  /** The thread that has the pool locked waits for nobody, or for one that can be made to release its lock. */
  lemma MakeWay(run: seq<System>, v: Tid, p: Pid) returns (longer: seq<System>)
    requires IsRun(run) && !HasRoom(Last(run), p) && !Doomed(Last(run), p)
    requires v in Last(run).threads && PoolLock(p) in Last(run).threads[v].held
    ensures IsRun(longer) && run <= longer
    ensures CanStep(Last(longer), v) && Last(longer).threads[v] == Last(run).threads[v]
    ensures !HasRoom(Last(longer), p) && !Doomed(Last(longer), p)
  {
    var s := Last(run);
    RunInv(run, |run| - 1);
    WithPoolLocked(s.threads[v], p);
    longer := run;
    var op := s.threads[v].todo[0];
    if op.Acquire? && HeldByAny(s, op.l) {
      var t :| t in s.threads && op.l in s.threads[t].held;
      WantedAbove(s, v, PoolLock(p));
      WantedAbove(s, t, op.l);
      assert !OfferAhead(s.threads[t].todo, op.l.c) by {
        assert OfferAhead(s.threads[t].todo, op.l.c) ==> Crossed(s, v, t, op.l.c);
      }
      var th;
      longer, th := Unlock(run, t, op.l.c);
      LockIsFree(s, t, th, op.l.c);
      StaysClearOf(s, t, th, op.l.c, p);
    }
  }

  /** The next operation of the thread that has the pool locked. */
  lemma AdvanceOnce(run: seq<System>, v: Tid, p: Pid) returns (longer: seq<System>)
    requires IsRun(run) && p.capacity > 0 && !HasRoom(Last(run), p) && !Doomed(Last(run), p)
    requires v in Last(run).threads && PoolLock(p) in Last(run).threads[v].held
    ensures IsRun(longer) && run <= longer
    ensures HasRoom(Last(longer), p) || !HeldByAny(Last(longer), PoolLock(p)) || PoolLockedBy(Last(longer), v, p)
    ensures v in Last(longer).threads && |Last(longer).threads[v].todo| < |Last(run).threads[v].todo|
  {
    var way := MakeWay(run, v, p);
    var s := Last(way);
    RunInv(way, |way| - 1);
    RunFits(way, |way| - 1, p);
    WithPoolLocked(s.threads[v], p);
    longer := Extend(way, Run(v, 1));
    if s.threads[v].todo[0] in {Pop(p), Release(PoolLock(p))} {
      Unlocked(s, v, p);
    } else {
      StaysClear(s, v, 1, p);
    }
  }

  ghost predicate PoolLockedBy(s: System, v: Tid, p: Pid) {
    v in s.threads && PoolLock(p) in s.threads[v].held && !HasRoom(s, p) && !Doomed(s, p)
  }

  /** Whoever has a pool locked takes an entry off its full channel or unlocks it, unless the state is doomed. */
  lemma {:induction false} Advance(run: seq<System>, v: Tid, p: Pid) returns (longer: seq<System>)
    requires IsRun(run) && p.capacity > 0 && PoolLockedBy(Last(run), v, p)
    ensures IsRun(longer) && run <= longer
    ensures HasRoom(Last(longer), p) || !HeldByAny(Last(longer), PoolLock(p))
    decreases |Last(run).threads[v].todo|
  {
    longer := AdvanceOnce(run, v, p);
    if PoolLockedBy(Last(longer), v, p) {
      longer := Advance(longer, v, p);
    }
  }

  lemma Unlocked(s: System, v: Tid, p: Pid)
    requires Inv(s) && Enabled(s, Run(v, 1)) && PoolLock(p) in s.threads[v].held
    requires s.threads[v].todo[0] == Pop(p) || s.threads[v].todo[0] == Release(PoolLock(p))
    requires Queued(s, p) <= p.capacity
    ensures HasRoom(Apply(s, Run(v, 1)), p) || !HeldByAny(Apply(s, Run(v, 1)), PoolLock(p))
  {
    assert ThreadOk(s.threads[v]);
    Topmost(s.threads[v].held, PoolLock(p));
  }

  lemma Fresh(m: map<Tid, Thread>) returns (t: Tid)
    ensures t !in m
  {
    t := Above(m.Keys);
  }

  /** A thread that asks the client for a connection, when the pool is unlocked, takes an entry off its channel. */
  lemma ClientPops(run: seq<System>, p: Pid) returns (longer: seq<System>)
    requires IsRun(run) && p.side == AtClient && p.capacity > 0
    requires !HasRoom(Last(run), p) && !HeldByAny(Last(run), PoolLock(p))
    ensures IsRun(longer) && run <= longer && HasRoom(Last(longer), p)
  {
    var t := Fresh(Last(run).threads);
    RunFits(run, |run| - 1, p);
    longer := Extend(run, Spawn(t, ClientRequest(p, None, false, false, false)));
    longer := Extend(longer, Run(t, 0));
    longer := Extend(longer, Run(t, 1));
  }

  /** In the server a request takes entries whatever is locked. */
  lemma ServerPops(run: seq<System>, p: Pid) returns (longer: seq<System>)
    requires IsRun(run) && p.side == AtServer && p.capacity > 0 && !HasRoom(Last(run), p)
    ensures IsRun(longer) && run <= longer && HasRoom(Last(longer), p)
  {
    var t := Fresh(Last(run).threads);
    RunFits(run, |run| - 1, p);
    longer := Extend(run, Spawn(t, ServerRequest(p, None, false, false, false)));
    longer := Extend(longer, Run(t, 1));
  }

  /** Some continuation of the run gives the idle channel of p room. */
  ghost predicate CanGetRoom(run: seq<System>, p: Pid) {
    exists longer :: IsRun(longer) && run <= longer && HasRoom(Last(longer), p)
  }

  lemma MakeRoom(run: seq<System>, p: Pid)
    requires IsRun(run) && p.capacity > 0 && !HasRoom(Last(run), p)
    requires p.side == AtServer || !Doomed(Last(run), p)
    ensures CanGetRoom(run, p)
  {
    var longer := run;
    if p.side == AtServer {
      longer := ServerPops(run, p);
    } else {
      if v :| v in Last(run).threads && PoolLock(p) in Last(run).threads[v].held {
        longer := Advance(run, v, p);
      }
      if !HasRoom(Last(longer), p) {
        longer := ClientPops(longer, p);
      }
    }
    assert IsRun(longer) && run <= longer && HasRoom(Last(longer), p);
  }

  /**
   * Exactly when a full idle channel can get room again: in the server always, in the client unless a thread
   * that has the pool locked needs a connection whose lock is released only after it has been offered.
   */
  lemma RoomIffNotDoomed(run: seq<System>, p: Pid)
    requires IsRun(run) && !HasRoom(Last(run), p)
    ensures CanGetRoom(run, p) <==> p.capacity > 0 && (p.side == AtServer || !Doomed(Last(run), p))
  {
    if p.capacity > 0 && (p.side == AtServer || !Doomed(Last(run), p)) {
      MakeRoom(run, p);
    } else if CanGetRoom(run, p) {
      var longer :| IsRun(longer) && run <= longer && HasRoom(Last(longer), p);
      DoomedForever(longer, |run| - 1, |longer| - 1, p);
    }
  }

  // ---- A doomed state is reachable ----

  lemma LoopBegins(c: Conn)
    ensures var ops := Script(WriteLoop(c, false));
            |ops| > 4 && ops[..4] == [Acquire(ConnLock(c)), Act, Offer(c.pool), Release(ConnLock(c))]
  {
  }

  lemma DownBegins(p: Pid, n: nat)
    ensures var ops := Script(ClientShutdown(p, [n]));
            |ops| > 2 && ops[..2] == [Acquire(PoolLock(p)), Acquire(ConnLock(Conn(p, n)))]
  {
    assert EachConn(p, [n]) == CloseOps(Conn(p, n)) + EachConn(p, []);
  }

  /** A thread is started and takes its first lock. */
  lemma Begin(run: seq<System>, t: Tid, r: Routine, l: Lock) returns (longer: seq<System>)
    requires IsRun(run) && t !in Last(run).threads && Proper(r) && !HeldByAny(Last(run), l)
    requires Script(r) != [] && Script(r)[0] == Acquire(l)
    ensures IsRun(longer) && run <= longer
    ensures Last(longer) == Last(run).(threads := Last(run).threads[t := Thread([l], Script(r)[1..])])
  {
    longer := Extend(run, Spawn(t, r));
    assert Last(longer).threads[t] == Thread([], Script(r));
    assert !HeldByAny(Last(longer), l);
    longer := Extend(longer, Run(t, 0));
    assert [] + [l] == [l];
    assert Last(longer).threads == Last(run).threads[t := Thread([l], Script(r)[1..])];
  }

  /** The thread has locked connection c and is about to offer it. */
  lemma Offering(run: seq<System>, k: Tid, r: Routine, c: Conn) returns (longer: seq<System>)
    requires IsRun(run) && k !in Last(run).threads && Proper(r) && !HeldByAny(Last(run), ConnLock(c))
    requires |Script(r)| > 4
    requires Script(r)[..4] == [Acquire(ConnLock(c)), Act, Offer(c.pool), Release(ConnLock(c))]
    ensures IsRun(longer) && run <= longer
    ensures Last(longer) == Last(run).(threads := Last(run).threads[k := Thread([ConnLock(c)], Script(r)[2..])])
  {
    var ops := Script(r);
    assert ops[0] == ops[..4][0] && ops[1] == ops[..4][1];
    longer := Begin(run, k, r, ConnLock(c));
    longer := Extend(longer, Run(k, 0));
    assert ops[1..][1..] == ops[2..];
    assert Last(longer).threads == Last(run).threads[k := Thread([ConnLock(c)], ops[2..])];
  }

  /** The first Releases of k connections put k entries into the channel. */
  lemma {:induction false} Filled(p: Pid, k: nat) returns (run: seq<System>)
    requires k <= p.capacity
    ensures IsRun(run) && Queued(Last(run), p) == k
    ensures forall t :: t in Last(run).threads ==> t < k && Last(run).threads[t].held == []
  {
    if k == 0 {
      run := [System(map[], map[])];
    } else {
      var before := Filled(p, k - 1);
      var c := Conn(p, k - 1);
      var r := WriteLoop(c, false);
      LoopBegins(c);
      run := Offering(before, k - 1, r, c);
      run := OfferAndUnlock(run, k - 1, c);
    }
  }

  lemma OfferAndUnlock(run: seq<System>, t: Tid, c: Conn) returns (longer: seq<System>)
    requires IsRun(run) && t in Last(run).threads && HasRoom(Last(run), c.pool)
    requires Last(run).threads[t].held == [ConnLock(c)] && |Last(run).threads[t].todo| > 2
    requires Last(run).threads[t].todo[0] == Offer(c.pool) && Last(run).threads[t].todo[1] == Release(ConnLock(c))
    ensures IsRun(longer) && run <= longer && Queued(Last(longer), c.pool) == Queued(Last(run), c.pool) + 1
    ensures Last(longer).threads == Last(run).threads[t := Thread([], Last(run).threads[t].todo[2..])]
  {
    longer := Extend(run, Run(t, 0));
    longer := Extend(longer, Run(t, 0));
  }

  /** Shutdown has the pool locked and comes to the connection. */
  lemma GoingDown(run: seq<System>, t: Tid, r: Routine, c: Conn) returns (longer: seq<System>)
    requires IsRun(run) && t !in Last(run).threads && Proper(r) && !HeldByAny(Last(run), PoolLock(c.pool))
    requires |Script(r)| > 2 && Script(r)[..2] == [Acquire(PoolLock(c.pool)), Acquire(ConnLock(c))]
    ensures IsRun(longer) && run <= longer
    ensures Last(longer) == Last(run).(threads := Last(run).threads[t := Thread([PoolLock(c.pool)], Script(r)[1..])])
  {
    assert Script(r)[0] == Script(r)[..2][0];
    longer := Begin(run, t, r, PoolLock(c.pool));
  }

  /**
   * It happens in every client pool: as many connections as the channel has room for have been offered, one
   * more is about to be, and a Shutdown gets the pool lock first.
   */
  lemma DoomedIsReachable(p: Pid) returns (run: seq<System>)
    requires p.side == AtClient
    ensures IsRun(run) && !HasRoom(Last(run), p) && Doomed(Last(run), p)
  {
    var k := p.capacity;
    var c := Conn(p, k);
    var loop, down := WriteLoop(c, false), ClientShutdown(p, [k]);
    run := Filled(p, k);
    LoopBegins(c);
    run := Offering(run, k, loop, c);
    DownBegins(p, k);
    run := GoingDown(run, k + 1, down, c);
    NowCrossed(Last(run), k + 1, Script(down), k, Script(loop), c);
  }

  lemma NowCrossed(s: System, v: Tid, down: seq<Op>, t: Tid, loop: seq<Op>, c: Conn)
    requires v != t && v in s.threads && t in s.threads
    requires |loop| > 4 && loop[..4] == [Acquire(ConnLock(c)), Act, Offer(c.pool), Release(ConnLock(c))]
    requires |down| > 2 && down[..2] == [Acquire(PoolLock(c.pool)), Acquire(ConnLock(c))]
    requires s.threads[v] == Thread([PoolLock(c.pool)], down[1..])
    requires s.threads[t] == Thread([ConnLock(c)], loop[2..])
    ensures Crossed(s, v, t, c)
  {
    assert loop[2..][0] == loop[..4][2] && down[1..][0] == down[..2][1];
  }
}
