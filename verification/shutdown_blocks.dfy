/**
 * The client's Shutdown against Release, client/pool.go and common/writeConnection.go: Release offers the
 * connection with its lock held, and Shutdown waits for that lock with the pool locked, while the entries of
 * the idle channel are taken off only with the pool locked. When the channel is full, nobody goes on.
 */
module ShutdownBlocks {
  import opened Types
  import opened Exchange
  import opened ExchangeInvariant
  import opened PoolSystem
  import opened PoolCompletes
  import Completes = ExchangeCompletes

  ghost predicate Offers(s: State, t: Tid) {
    PcOf(s, t).Releasing? && PcOf(s, t).rel == RelOffer
  }

  /** Shutdown has the pool locked and comes to connection c, which thread t offers to the full idle channel. */
  ghost predicate Blocked(p: Pool, lim: Limits, c: Cid, t: Tid) {
    && lim.client.Some? && |p.idle| >= lim.capacity
    && p.hold.Shutting? && p.hold.todo != [] && p.hold.todo[0] == c
    && c in p.conns && Offers(p.conns[c], t)
  }

  /** The pool is locked by the same Shutdown, the queue is the same, and whoever offered a connection still does. */
  ghost predicate StandsStill(p: Pool, p': Pool) {
    && p'.hold == p.hold && p'.idle == p.idle
    && forall x, t :: x in p.conns && Offers(p.conns[x], t) ==>
                        x in p'.conns && PcOf(p'.conns[x], t) == PcOf(p.conns[x], t)
  }

  lemma OffererStays(s: State, step: Step, t: Tid)
    requires Enabled(s, step) && Offers(s, t) && !IsOffer(step)
    ensures PcOf(Apply(s, step), t) == PcOf(s, t)
  {
    if (step.Locked? || step.Caller? || step.Meet? || step.Hand?) && step.t == t {
    } else {
      OthersStay(s, step, t);
    }
  }

  lemma BlockedStep(p: Pool, lim: Limits, s: PoolStep, c: Cid, t: Tid)
    requires Blocked(p, lim, c, t) && PoolEnabled(p, lim, s) && Inv(p.conns[c])
    ensures Blocked(PoolApply(p, lim, s), lim, c, t) && StandsStill(p, PoolApply(p, lim, s))
  {
    match s
    case On(a, step) =>
      forall x, u | x in p.conns && Offers(p.conns[x], u)
        ensures PcOf(PoolApply(p, lim, s).conns[x], u) == PcOf(p.conns[x], u)
      {
        if x == a {
          OffererStays(p.conns[a], step, u);
        }
      }
    case ClosedNext(u) => NotClosed(p.conns[c], t, u);
    case _ =>
  }

  /** Nobody is through with closing a connection that is being offered. */
  lemma NotClosed(s: State, t: Tid, u: Tid)
    requires Inv(s) && Offers(s, t)
    ensures PcOf(s, u) != Removing
  {
    assert StatusAt(s, t) && StatusAt(s, u);
  }

  /**
   * From then on Shutdown never goes on and the pool stays locked; the queue gains and loses nothing, so no
   * request gets a connection; and no thread that offers a connection to the pool ever gets past it.
   */
  lemma {:induction false} BlockedForever(run: seq<Pool>, lim: Limits, i: nat, j: nat, c: Cid, t: Tid)
    requires IsPoolRun(run, lim) && i <= j < |run| && Blocked(run[i], lim, c, t)
    ensures Blocked(run[j], lim, c, t) && StandsStill(run[i], run[j])
    decreases j
  {
    if i < j {
      BlockedForever(run, lim, i, j - 1, c, t);
      var s := LastStep(run, lim, j);
      ConnInv(run, lim, j - 1, c);
      BlockedStep(run[j - 1], lim, s, c, t);
    }
  }

  // ---- It happens ----

  /** PoolIdleSize and PoolMaxSize 1. */
  const ONE := Limits(1, Some(Sizes(1, 1)))

  /** The connector fills an empty list with one connection, whose reader comes to its first offer. */
  lemma Opened(run: seq<Pool>, c: Cid) returns (longer: seq<Pool>)
    requires IsPoolRun(run, ONE) && Last(run).hold == Free && Last(run).list == [] && c !in Last(run).conns
    ensures IsPoolRun(longer, ONE)
    ensures Last(longer) == Last(run).(conns := Last(run).conns[c := Completes.OFFERING], list := [c])
  {
    longer := Continue(run, ONE, BeginFill(0));
    longer := Continue(longer, ONE, Create(c));
    longer := Continue(longer, ONE, EndFill);
    assert Last(longer) == Last(run).(conns := Last(run).conns[c := Init(Connecting)], list := [c]);
    longer := ComesToOffer(longer, ONE, c, Connecting);
    assert Last(longer).conns == Last(run).conns[c := Completes.OFFERING];
  }

  const LEAVING := Alone(Conn(Idle, None, false, 1), Detach)
  const LEFT := Alone(Conn(Idle, None, false, 1), Closing(ClsWant, false))

  lemma Leaves()
    ensures Apply(Completes.QUEUED, Reader(CheckTop)) == Alone(Conn(Idle, None, false, 1), Next)
    ensures Apply(Alone(Conn(Idle, None, false, 1), Next), Reader(Receive(false))) == LEAVING
    ensures Apply(LEAVING, Reader(DetachReader)) == LEFT
  {
  }

  lemma LosesItsPeer()
    ensures Completes.Reach(Completes.QUEUED, LEAVING)
    ensures Enabled(LEAVING, Reader(DetachReader)) && Apply(LEAVING, Reader(DetachReader)) == LEFT
  {
    Leaves();
    var s := Completes.QUEUED;
    var next := Apply(s, Reader(CheckTop));
    Completes.ReachSelf(s);
    Completes.To(s, s, Reader(CheckTop), next);
    Completes.To(s, next, Reader(Receive(false)), LEAVING);
  }

  /** The websocket of the connection fails, and its reader takes it off the list but not off the queue. */
  lemma Lost(run: seq<Pool>, c: Cid) returns (longer: seq<Pool>)
    requires IsPoolRun(run, ONE) && c in Last(run).conns && Last(run).conns[c] == Completes.QUEUED
    requires Last(run).list == [c]
    ensures IsPoolRun(longer, ONE)
    ensures Last(longer) == Last(run).(conns := Last(run).conns[c := LEFT], list := [])
  {
    LosesItsPeer();
    longer := Follow(run, ONE, c, Completes.QUEUED, LEAVING);
    longer := Removed(longer, c, LEAVING);
    assert Last(longer).conns == Last(run).conns[c := LEFT];
  }

  lemma Removed(run: seq<Pool>, c: Cid, before: State) returns (longer: seq<Pool>)
    requires IsPoolRun(run, ONE) && c in Last(run).conns && Last(run).conns[c] == before && Last(run).list == [c]
    requires Enabled(before, Reader(DetachReader))
    ensures IsPoolRun(longer, ONE)
    ensures Last(longer) == Last(run).(conns := Last(run).conns[c := Apply(before, Reader(DetachReader))], list := [])
  {
    assert Without([c], c) == [] by {
      WithoutMembers([c], c);
      assert forall y :: y !in Without([c], c);
    }
    longer := Continue(run, ONE, On(c, Reader(DetachReader)));
  }

  /**
   * A run of a client pool with room for one connection that gets there. The entry of a connection that is gone
   * fills the queue; its successor has locked itself and is about to be offered when Shutdown locks the pool.
   */
  lemma ShutdownCanBlock() returns (run: seq<Pool>)
    ensures IsPoolRun(run, ONE) && Blocked(Last(run), ONE, 1, READER)
    ensures Last(run).idle == [0] && 0 !in Last(run).list
    ensures Enabled(Last(run).conns[1], Locked(READER, RelSend))
    ensures !PoolEnabled(Last(run), ONE, On(1, Locked(READER, RelSend)))
  {
    run := [Pool(map[], [], [], Free)];
    run := Opened(run, 0);
    run := Joins(run, ONE, 0);
    run := Lost(run, 0);
    run := Opened(run, 1);
    run := Continue(run, ONE, BeginShutdown);
  }
}
