/**
 * The connections of one pool together: the exchange protocol of each of them, the idle queue they share
 * and the list of write connections, server/pool.go and client/pool.go.
 */
module PoolSystem {
  import opened Types
  import opened Exchange
  import opened ExchangeInvariant
  import opened ExchangeTheorems
  import opened PoolSizes

  type Cid = nat

  /**
   * Who has the pool locked for more than one step: the connector with so many connections left to create, or
   * Shutdown with the connections it has not closed yet. Every other use of the lock is a single step.
   */
  datatype Hold = Free | Filling(left: nat) | Shutting(todo: seq<Cid>)

  /** conns remembers every write connection ever created. */
  datatype Pool = Pool(conns: map<Cid, State>, idle: seq<Cid>, list: seq<Cid>, hold: Hold)

  /** The sizes a client is configured with. */
  datatype Sizes = Sizes(idleSize: int, maxSize: nat)

  /** Capacity of the idle channel, and the sizes if this is a client's pool. */
  datatype Limits = Limits(capacity: nat, client: Option<Sizes>)

  /**
   * The client takes entries off the idle channel with the pool locked, the server does not. Removals may come
   * at any time here, also while the pool is locked for another step.
   */
  datatype PoolStep =
    | Register(c: Cid)               // AddConnection of the server
    | BeginFill(spare: nat)          // connector of the client, which counts so many spare connections
    | Create(c: Cid)
    | EndFill                        // all are created, or one failed
    | On(c: Cid, step: Step)
    | BeginShutdown
    | ClosedNext(t: Tid)             // conn.Close() has returned, in the part of Shutdown played by thread t
    | EndShutdown                    // RemoveAllConnections

  ghost predicate PoolEnabled(p: Pool, lim: Limits, s: PoolStep) {
    match s
    case Register(c) => lim.client == None && p.hold == Free && c !in p.conns
    case BeginFill(spare) => lim.client.Some? && p.hold == Free && spare <= |p.list|
    case Create(c) => p.hold.Filling? && p.hold.left > 0 && c !in p.conns
    case EndFill => p.hold.Filling?
    case On(c, step) =>
      && c in p.conns && Enabled(p.conns[c], step)
      && (IsOffer(step) ==> |p.idle| < lim.capacity)
      && (IsPop(step) ==> p.idle != [] && p.idle[0] == c && (lim.client.Some? ==> p.hold == Free))
    case BeginShutdown => p.hold == Free
    case ClosedNext(t) =>
      p.hold.Shutting? && p.hold.todo != [] && p.hold.todo[0] in p.conns
      && PcOf(p.conns[p.hold.todo[0]], t) == Removing
    case EndShutdown => p.hold == Shutting([])
  }

  ghost function PoolApply(p: Pool, lim: Limits, s: PoolStep): Pool
    requires PoolEnabled(p, lim, s)
  {
    match s
    case Register(c) => p.(conns := p.conns[c := Init(Idle)], list := p.list + [c])
    case BeginFill(spare) =>
      var sizes := lim.client.value;
      p.(hold := Filling(NonNegative(ToCreate(sizes.idleSize, sizes.maxSize, spare, |p.list|))))
    case Create(c) =>
      p.(conns := p.conns[c := Init(Connecting)], list := p.list + [c], hold := Filling(p.hold.left - 1))
    case EndFill => p.(hold := Free)
    case On(c, step) =>
      p.(conns := p.conns[c := Apply(p.conns[c], step)],
         idle := if IsOffer(step) then p.idle + [c] else if IsPop(step) then p.idle[1..] else p.idle,
         list := if IsRemove(step) then Without(p.list, c) else p.list)
    case BeginShutdown => p.(hold := Shutting(p.list))
    case ClosedNext(_) => p.(hold := Shutting(p.hold.todo[1..]))
    case EndShutdown => p.(list := [], hold := Free)
  }

  ghost predicate PoolMoves(p: Pool, lim: Limits, p': Pool) {
    exists s :: PoolEnabled(p, lim, s) && p' == PoolApply(p, lim, s)
  }

  ghost predicate PoolMovesAt(run: seq<Pool>, lim: Limits, i: int)
    requires 0 <= i < |run| - 1
  {
    PoolMoves(run[i], lim, run[i + 1])
  }

  ghost predicate IsPoolRun(run: seq<Pool>, lim: Limits) {
    && |run| > 0
    && run[0] == Pool(map[], [], [], Free)
    && forall i :: 0 <= i < |run| - 1 ==> PoolMovesAt(run, lim, i)
  }

  lemma Extend(r: seq<State>, next: State) returns (longer: seq<State>)
    requires IsRun(r) && Moves(r[|r| - 1], next)
    ensures longer == r + [next] && IsRun(longer)
  {
    longer := r + [next];
    forall i | 0 <= i < |longer| - 1 ensures MovesAt(longer, i) {
      assert i < |r| - 1 ==> MovesAt(r, i);
    }
  }

  /** The step that led to run[i]. */
  lemma LastStep(run: seq<Pool>, lim: Limits, i: nat) returns (s: PoolStep)
    requires IsPoolRun(run, lim) && 0 < i < |run|
    ensures PoolEnabled(run[i - 1], lim, s) && run[i] == PoolApply(run[i - 1], lim, s)
  {
    assert PoolMovesAt(run, lim, i - 1);
    s :| PoolEnabled(run[i - 1], lim, s) && run[i] == PoolApply(run[i - 1], lim, s);
  }

  /** What one connection goes through in a pool is a run of the exchange protocol. */
  lemma {:induction false} Projection(run: seq<Pool>, lim: Limits, i: nat, c: Cid) returns (r: seq<State>)
    requires IsPoolRun(run, lim) && i < |run| && c in run[i].conns
    ensures IsRun(r) && r[|r| - 1] == run[i].conns[c]
    decreases i
  {
    assert i > 0;
    var p := run[i - 1];
    var s := LastStep(run, lim, i);
    if c in p.conns {
      r := Projection(run, lim, i - 1, c);
      if s.On? && s.c == c {
        var next := Apply(p.conns[c], s.step);
        r := Extend(r, next);
      }
    } else {
      r := [Init(if s.Register? then Idle else Connecting)];
    }
  }

  lemma ConnInv(run: seq<Pool>, lim: Limits, i: nat, c: Cid)
    requires IsPoolRun(run, lim) && i < |run| && c in run[i].conns
    ensures Inv(run[i].conns[c])
  {
    var r := Projection(run, lim, i, c);
    RunInv(r, |r| - 1);
  }

  /** The reader thread of the connection is past its Remove and not yet through its Close. */
  ghost predicate Leaving(s: State) {
    PcOf(s, READER).Closing? && PcOf(s, READER).cls != ClsOut
  }

  /** The tokens of a connection are its entries in the queue. */
  ghost predicate QueueInv(p: Pool) {
    && (forall c :: c in p.conns ==> p.conns[c].c.tokens == Count(p.idle, c))
    && (forall c :: c in p.idle ==> c in p.conns)
  }

  ghost predicate ListInv(p: Pool) {
    && NoDup(p.list)
    && (forall c :: c in p.list ==> c in p.conns)
    && (forall c :: c in p.conns ==> c in p.list || p.conns[c].c.status == Closed || Leaving(p.conns[c]))
  }

  ghost predicate PoolInv(p: Pool, lim: Limits) {
    QueueInv(p) && ListInv(p) && Within(p, lim) && Closing(p)
  }

  /** The list of a client's pool, with what the connector is about to add, is within PoolMaxSize. */
  ghost predicate Within(p: Pool, lim: Limits) {
    && (p.hold.Filling? ==> lim.client.Some?)
    && (lim.client.Some? && SizesFit(lim.client.value.idleSize, lim.client.value.maxSize) ==>
          |p.list| + (if p.hold.Filling? then p.hold.left else 0) <= lim.client.value.maxSize)
  }

  /** During a Shutdown every member of the list is CLOSED or still to be closed. */
  ghost predicate Closing(p: Pool) {
    p.hold.Shutting? ==> forall c :: c in p.list && c in p.conns ==> c in p.hold.todo || p.conns[c].c.status == Closed
  }

  lemma LeavingStep(s: State, step: Step)
    requires Inv(s) && Enabled(s, step)
    ensures Leaving(s) ==> Leaving(Apply(s, step)) || Apply(s, step).c.status == Closed
    ensures IsRemove(step) ==> Leaving(Apply(s, step)) || Apply(s, step).c.status == Closed
    ensures Apply(s, step).c.tokens == s.c.tokens + (if IsOffer(step) then 1 else 0) - (if IsPop(step) then 1 else 0)
    ensures s.c.status == Closed ==> Apply(s, step).c.status == Closed
  {
    TokenFlow(s, step, READER);
    ClosedStep(s, step);
    assert LockAt(s, READER);
    if step.Locked? {
      assert StatusAt(s, step.t);
      LeavingLocked(s, step.t, step.l);
    } else if step.Caller? {
      assert StatusAt(s, step.t);
      LeavingCaller(s, step.t, step.c);
    }
  }

  lemma LeavingLocked(s: State, t: Tid, l: LockOp)
    requires LockedEnabled(s, t, l) && StatusAt(s, t) && LockAt(s, READER)
    ensures var s' := LockedApply(s, t, l);
            && (Leaving(s) ==> Leaving(s') || s'.c.status == Closed)
            && (l == RemoveLocked ==> s'.c.status == Closed)
  {
  }

  lemma LeavingCaller(s: State, t: Tid, c: CallerOp)
    requires CallerEnabled(s, t, c) && StatusAt(s, t) && LockAt(s, READER)
    ensures var s' := CallerApply(s, t, c);
            && (Leaving(s) ==> Leaving(s'))
            && (c == RemoveDone ==> s'.c.status == Closed)
  {
  }

  /** The connection that a step is about. */
  ghost predicate Concerns(p: Pool, s: PoolStep, c: Cid) {
    match s
    case On(a, _) => c == a
    case ClosedNext(_) => p.hold.Shutting? && p.hold.todo != [] && c == p.hold.todo[0]
    case _ => false
  }

  lemma QueueStep(p: Pool, lim: Limits, s: PoolStep)
    requires QueueInv(p) && PoolEnabled(p, lim, s) && (s.On? ==> Inv(p.conns[s.c]))
    ensures QueueInv(PoolApply(p, lim, s))
  {
    match s
    case Register(a) => CountPositive(p.idle, a);
    case Create(a) => CountPositive(p.idle, a);
    case On(a, step) => QueueOn(p, lim, a, step);
    case _ =>
  }

  lemma QueueOn(p: Pool, lim: Limits, a: Cid, step: Step)
    requires QueueInv(p) && PoolEnabled(p, lim, On(a, step)) && Inv(p.conns[a])
    ensures QueueInv(PoolApply(p, lim, On(a, step)))
  {
    var p' := PoolApply(p, lim, On(a, step));
    assert p'.conns[a].c.tokens ==
           p.conns[a].c.tokens + (if IsOffer(step) then 1 else 0) - (if IsPop(step) then 1 else 0) by {
      LeavingStep(p.conns[a], step);
    }
    forall c | c in p'.conns ensures p'.conns[c].c.tokens == Count(p'.idle, c) {
      if IsOffer(step) {
        CountAppend(p.idle, a, c);
      }
    }
  }

  lemma ListStep(p: Pool, lim: Limits, s: PoolStep)
    requires ListInv(p) && Closing(p) && PoolEnabled(p, lim, s) && (s.On? ==> Inv(p.conns[s.c]))
    ensures ListInv(PoolApply(p, lim, s))
  {
    match s
    case On(a, step) => ListOn(p, lim, a, step);
    case _ =>
  }

  lemma ListOn(p: Pool, lim: Limits, a: Cid, step: Step)
    requires ListInv(p) && PoolEnabled(p, lim, On(a, step)) && Inv(p.conns[a])
    ensures ListInv(PoolApply(p, lim, On(a, step)))
  {
    LeavingStep(p.conns[a], step);
    WithoutKeeps(p.list, a);
    WithoutMembers(p.list, a);
  }

  lemma WithinStep(p: Pool, lim: Limits, s: PoolStep)
    requires Within(p, lim) && PoolEnabled(p, lim, s)
    ensures Within(PoolApply(p, lim, s), lim)
  {
    match s
    case BeginFill(spare) =>
      var sizes := lim.client.value;
      if SizesFit(sizes.idleSize, sizes.maxSize) {
        CreatesMissing(sizes.idleSize, sizes.maxSize, spare, |p.list|);
      }
    case On(a, _) => WithoutKeeps(p.list, a);
    case _ =>
  }

  /** Shutdown goes on only when the connection is CLOSED, whoever closed it. */
  lemma ClosingStep(p: Pool, lim: Limits, s: PoolStep)
    requires Closing(p) && PoolEnabled(p, lim, s)
    requires forall c :: c in p.conns && Concerns(p, s, c) ==> Inv(p.conns[c])
    ensures Closing(PoolApply(p, lim, s))
  {
    match s
    case On(a, step) =>
      WithoutKeeps(p.list, a);
      LeavingStep(p.conns[a], step);
    case ClosedNext(t) =>
      var c := p.hold.todo[0];
      assert Concerns(p, s, c) && StatusAt(p.conns[c], t);
    case _ =>
  }

  lemma {:induction false} PoolRunInv(run: seq<Pool>, lim: Limits, i: nat)
    requires IsPoolRun(run, lim) && i < |run|
    ensures PoolInv(run[i], lim)
    decreases i
  {
    if i > 0 {
      PoolRunInv(run, lim, i - 1);
      var p := run[i - 1];
      var s := LastStep(run, lim, i);
      forall c | c in p.conns && Concerns(p, s, c) ensures Inv(p.conns[c]) {
        ConnInv(run, lim, i - 1, c);
      }
      QueueStep(p, lim, s);
      ListStep(p, lim, s);
      WithinStep(p, lim, s);
      ClosingStep(p, lim, s);
    }
  }

  /**
   * No orphans: every write connection ever added is in the list, or CLOSED, or its own reader thread is
   * between Remove and Close. The list never contains a connection twice.
   */
  lemma NoOrphans(run: seq<Pool>, lim: Limits, i: nat, c: Cid)
    requires IsPoolRun(run, lim) && i < |run| && c in run[i].conns
    ensures c in run[i].list || run[i].conns[c].c.status == Closed || Leaving(run[i].conns[c])
    ensures NoDup(run[i].list)
  {
    PoolRunInv(run, lim, i);
  }

  /** A thread that has closed the connection, or found it closed, and is about to remove it. */
  ghost predicate Remover(s: State, t: Tid) {
    t != READER && (PcOf(s, t) == Removing || (PcOf(s, t).Closing? && PcOf(s, t).cls == ClsOut))
  }

  /** A member of the list: its reader has not removed it, and if it is CLOSED another thread is about to. */
  ghost predicate MemberOk(s: State) {
    && !PcOf(s, READER).Closing? && PcOf(s, READER) != Done
    && (s.c.status == Closed ==> exists t: Tid :: Remover(s, t))
  }

  lemma MemberStep(s: State, step: Step)
    requires MemberOk(s) && Inv(s) && Enabled(s, step) && !IsRemove(step)
    ensures MemberOk(Apply(s, step))
  {
    var s' := Apply(s, step);
    assert LockAt(s, READER);
    MemberReader(s, step);
    if s'.c.status == Closed {
      if t: Tid :| Remover(s, t) {
        RemoverStep(s, step, t);
      } else {
        ClosedByMark(s, step);
      }
    }
  }

  /** Only the removal itself takes a reader to its Close. */
  lemma MemberReader(s: State, step: Step)
    requires Enabled(s, step) && !IsRemove(step) && LockAt(s, READER)
    requires !PcOf(s, READER).Closing? && PcOf(s, READER) != Done
    ensures !PcOf(Apply(s, step), READER).Closing? && PcOf(Apply(s, step), READER) != Done
  {
    if step.Locked? {
      MemberReaderLocked(s, step.t, step.l);
    } else if step.Caller? {
      MemberReaderCaller(s, step.t, step.c);
    }
  }

  lemma MemberReaderLocked(s: State, t: Tid, l: LockOp)
    requires LockedEnabled(s, t, l) && !PcOf(s, READER).Closing? && PcOf(s, READER) != Done
    ensures var r := PcOf(LockedApply(s, t, l), READER); !r.Closing? && r != Done
  {
  }

  lemma MemberReaderCaller(s: State, t: Tid, c: CallerOp)
    requires CallerEnabled(s, t, c) && LockAt(s, READER) && !PcOf(s, READER).Closing? && PcOf(s, READER) != Done
    ensures var r := PcOf(CallerApply(s, t, c), READER); !r.Closing? && r != Done
  {
  }

  lemma RemoverStep(s: State, step: Step, t: Tid)
    requires Enabled(s, step) && !IsRemove(step) && Remover(s, t)
    ensures Remover(Apply(s, step), t)
  {
    if (step.Locked? || step.Caller? || step.Meet? || step.Hand?) && step.t == t {
    } else {
      OthersStay(s, step, t);
    }
  }

  /** The only step to CLOSED, and where it leaves its thread. */
  lemma ClosedByMark(s: State, step: Step)
    requires Enabled(s, step) && s.c.status != Closed && Apply(s, step).c.status == Closed
    requires !PcOf(s, READER).Closing?
    ensures step.Locked? && Remover(Apply(s, step), step.t)
  {
    if step.Locked? {
      ClosedByLocked(s, step.t, step.l);
    } else if step.Caller? {
      ClosedCaller(s, step.t, step.c);
    }
  }

  lemma ClosedByLocked(s: State, t: Tid, l: LockOp)
    requires LockedEnabled(s, t, l) && s.c.status != Closed && LockedApply(s, t, l).c.status == Closed
    requires !PcOf(s, READER).Closing?
    ensures Remover(LockedApply(s, t, l), t)
  {
  }

  ghost predicate MembersOk(p: Pool) {
    forall c :: c in p.list ==> c in p.conns && MemberOk(p.conns[c])
  }

  lemma {:induction false} RunMembers(run: seq<Pool>, lim: Limits, i: nat)
    requires IsPoolRun(run, lim) && i < |run|
    ensures MembersOk(run[i])
    decreases i
  {
    if i > 0 {
      RunMembers(run, lim, i - 1);
      var s := LastStep(run, lim, i);
      if s.On? {
        ConnInv(run, lim, i - 1, s.c);
        MembersOn(run[i - 1], lim, s.c, s.step);
      }
    }
  }

  lemma MembersOn(p: Pool, lim: Limits, a: Cid, step: Step)
    requires MembersOk(p) && PoolEnabled(p, lim, On(a, step)) && Inv(p.conns[a])
    ensures MembersOk(PoolApply(p, lim, On(a, step)))
  {
    WithoutMembers(p.list, a);
    if a in p.list && !IsRemove(step) {
      MemberStep(p.conns[a], step);
    }
  }

  /**
   * No CLOSED connection stays in the list for want of a thread that removes it: one other than its reader has
   * the removal still ahead, and nothing keeps it from going on.
   */
  lemma ClosedMembersLeave(run: seq<Pool>, lim: Limits, i: nat, c: Cid) returns (t: Tid)
    requires IsPoolRun(run, lim) && i < |run| && c in run[i].list
    requires c in run[i].conns && run[i].conns[c].c.status == Closed
    ensures t != READER
    ensures (PcOf(run[i].conns[c], t).Closing? && PoolEnabled(run[i], lim, On(c, Locked(t, ClsUnlock))))
            || PoolEnabled(run[i], lim, On(c, Caller(t, RemoveDone)))
  {
    RunMembers(run, lim, i);
    t :| Remover(run[i].conns[c], t);
  }

  /** Token conservation over the shared queue: its entries for c and the holders of c are one in all while c lives. */
  lemma QueueConservation(run: seq<Pool>, lim: Limits, i: nat, c: Cid)
    requires IsPoolRun(run, lim) && i < |run| && c in run[i].conns
    ensures Count(run[i].idle, c) + |Holders(run[i].conns[c])| <= 1
    ensures !run[i].conns[c].c.nrClosed ==> Count(run[i].idle, c) + |Holders(run[i].conns[c])| == 1
    ensures Count(run[i].idle, c) == 1 ==> run[i].conns[c].c.status in {Idle, Closed}
  {
    PoolRunInv(run, lim, i);
    var r := Projection(run, lim, i, c);
    TokenConservation(r, |r| - 1);
    RunInv(r, |r| - 1);
  }

  /** No connection is queued twice, closed or not. */
  lemma QueueHasNoDuplicates(run: seq<Pool>, lim: Limits, i: nat)
    requires IsPoolRun(run, lim) && i < |run|
    ensures NoDup(run[i].idle)
  {
    PoolRunInv(run, lim, i);
    forall c | c in run[i].idle ensures Count(run[i].idle, c) <= 1 {
      QueueConservation(run, lim, i, c);
    }
    CountAtMostOneIsNoDup(run[i].idle);
  }

  /** In every reachable state the list of a client's pool has at most PoolMaxSize members. */
  lemma ListWithinLimit(run: seq<Pool>, lim: Limits, i: nat)
    requires IsPoolRun(run, lim) && i < |run|
    requires lim.client.Some? && SizesFit(lim.client.value.idleSize, lim.client.value.maxSize)
    ensures |run[i].list| <= lim.client.value.maxSize
  {
    PoolRunInv(run, lim, i);
  }

  /** When Shutdown has gone through the list, every member is CLOSED. */
  lemma ShutdownClosesAll(run: seq<Pool>, lim: Limits, i: nat, c: Cid)
    requires IsPoolRun(run, lim) && i < |run| && PoolEnabled(run[i], lim, EndShutdown) && c in run[i].list
    ensures c in run[i].conns && run[i].conns[c].c.status == Closed
  {
    PoolRunInv(run, lim, i);
  }

  /**
   * Offer has room. In a client pool, whose idle channel has capacity PoolMaxSize: when every queued entry
   * belongs to a member of the list and the offerer is a member too, the channel is not full.
   */
  lemma OfferHasRoom(run: seq<Pool>, lim: Limits, i: nat, c: Cid, t: Tid)
    requires IsPoolRun(run, lim) && i < |run| && c in run[i].conns
    requires lim.client.Some? && lim.client.value.maxSize == lim.capacity
    requires SizesFit(lim.client.value.idleSize, lim.capacity)
    requires Enabled(run[i].conns[c], Locked(t, RelSend))
    requires c in run[i].list && forall x :: x in run[i].idle ==> x in run[i].list
    ensures |run[i].idle| < lim.capacity
    ensures PoolEnabled(run[i], lim, On(c, Locked(t, RelSend)))
  {
    var p := run[i];
    ListWithinLimit(run, lim, i);
    PoolRunInv(run, lim, i);
    ConnInv(run, lim, i, c);
    assert TokenAt(p.conns[c], t, t);
    CountPositive(p.idle, c);
    QueueHasNoDuplicates(run, lim, i);
    var q := p.idle + [c];
    assert NoDup(q);
    Pigeonhole(q, p.list);
  }

  /** In a pool too, what a successful ProxyRequest delivered is the response to its own request. */
  lemma PoolCorrelation(run: seq<Pool>, lim: Limits, i: nat, c: Cid, d: Delivery)
    requires IsPoolRun(run, lim) && i < |run| && c in run[i].conns && d in run[i].conns[c].log
    ensures var w := run[i].conns[c].w;
            && 2 * d.slot + 1 < |w.replies|
            && d.head == w.replies[2 * d.slot] && d.body == w.replies[2 * d.slot + 1]
            && d.head.req == d.req && d.head.part == Head && d.head.whole
            && d.body.req == d.req && d.body.part == Body && d.body.whole
  {
    var r := Projection(run, lim, i, c);
    ResponseCorrelation(r, |r| - 1, d);
  }
}
