/**
 * What can be done with a pool: the connector fills it, a new connection joins the idle queue, a request takes
 * the first connection of the queue and puts it back at its end, and Shutdown comes to its end. Each is a
 * continuation of the run.
 */
module PoolCompletes {
  import opened Types
  import opened Exchange
  import opened ExchangeInvariant
  import opened PoolSizes
  import opened PoolSystem
  import Completes = ExchangeCompletes

  ghost function Last(run: seq<Pool>): Pool
    requires |run| > 0
  {
    run[|run| - 1]
  }

  lemma Continue(run: seq<Pool>, lim: Limits, s: PoolStep) returns (longer: seq<Pool>)
    requires IsPoolRun(run, lim) && PoolEnabled(Last(run), lim, s)
    ensures IsPoolRun(longer, lim) && run <= longer && Last(longer) == PoolApply(Last(run), lim, s)
  {
    var next := PoolApply(Last(run), lim, s);
    assert PoolMoves(Last(run), lim, next);
    longer := run + [next];
    forall i | 0 <= i < |longer| - 1 ensures PoolMovesAt(longer, lim, i) {
      assert i < |run| - 1 ==> PoolMovesAt(run, lim, i);
    }
  }

  /** Plain steps of one connection are steps of the pool that change nothing else. */
  lemma {:induction false} FollowSteps(run: seq<Pool>, lim: Limits, c: Cid, steps: seq<Step>, s': State)
      returns (longer: seq<Pool>)
    requires IsPoolRun(run, lim) && c in Last(run).conns && Completes.Leads(Last(run).conns[c], steps, s')
    ensures IsPoolRun(longer, lim) && run <= longer && Last(longer) == Last(run).(conns := Last(run).conns[c := s'])
    decreases |steps|
  {
    longer := run;
    if steps == [] {
      assert Last(run).conns[c := s'] == Last(run).conns;
    } else {
      var n := |steps| - 1;
      var m :| Completes.Leads(Last(run).conns[c], steps[..n], m) && Completes.Plain(steps[n])
               && Enabled(m, steps[n]) && s' == Apply(m, steps[n]);
      longer := FollowSteps(run, lim, c, steps[..n], m);
      longer := Continue(longer, lim, On(c, steps[n]));
      assert Last(run).conns[c := m][c := s'] == Last(run).conns[c := s'];
    }
  }

  lemma Follow(run: seq<Pool>, lim: Limits, c: Cid, s: State, s': State) returns (longer: seq<Pool>)
    requires IsPoolRun(run, lim) && c in Last(run).conns && Last(run).conns[c] == s && Completes.Reach(s, s')
    ensures IsPoolRun(longer, lim) && run <= longer && Last(longer) == Last(run).(conns := Last(run).conns[c := s'])
  {
    var steps :| Completes.Leads(s, steps, s');
    longer := FollowSteps(run, lim, c, steps, s');
  }

  /** The idle channel never holds more than its capacity. */
  lemma {:induction false} QueueFits(run: seq<Pool>, lim: Limits, i: nat)
    requires IsPoolRun(run, lim) && i < |run|
    ensures |run[i].idle| <= lim.capacity
  {
    if i > 0 {
      QueueFits(run, lim, i - 1);
      var s := LastStep(run, lim, i);
    }
  }

  // ---- A use ----

  /** The first connection of the queue is taken. */
  lemma Takes(run: seq<Pool>, lim: Limits, c: Cid, ready: State, t: Tid) returns (longer: seq<Pool>)
    requires IsPoolRun(run, lim) && c in Last(run).conns && Last(run).conns[c] == ready
    requires Last(run).idle != [] && Last(run).idle[0] == c && (lim.client.Some? ==> Last(run).hold == Free)
    requires Enabled(ready, Caller(t, Pop))
    ensures IsPoolRun(longer, lim) && run <= longer
    ensures Last(longer) ==
            Last(run).(conns := Last(run).conns[c := Apply(ready, Caller(t, Pop))], idle := Last(run).idle[1..])
  {
    longer := Continue(run, lim, On(c, Caller(t, Pop)));
  }

  lemma Offers(run: seq<Pool>, lim: Limits, c: Cid, offering: State, t: Tid) returns (longer: seq<Pool>)
    requires IsPoolRun(run, lim) && c in Last(run).conns && Last(run).conns[c] == offering
    requires |Last(run).idle| < lim.capacity && Enabled(offering, Locked(t, RelSend))
    ensures IsPoolRun(longer, lim) && run <= longer
    ensures Last(longer) ==
            Last(run).(conns := Last(run).conns[c := Apply(offering, Locked(t, RelSend))], idle := Last(run).idle + [c])
  {
    longer := Continue(run, lim, On(c, Locked(t, RelSend)));
  }

  /** Plain steps to the pop, the pop, plain steps to the offer, the offer, and plain steps to the end. */
  lemma FollowUse(run: seq<Pool>, lim: Limits, c: Cid, t: Tid, ready: State, offering: State, s': State)
      returns (longer: seq<Pool>)
    requires IsPoolRun(run, lim) && Last(run).idle != [] && Last(run).idle[0] == c && c in Last(run).conns
    requires (lim.client.Some? ==> Last(run).hold == Free) && |Last(run).idle| <= lim.capacity
    requires Completes.Reach(Last(run).conns[c], ready) && Enabled(ready, Caller(t, Pop))
    requires Completes.Reach(Apply(ready, Caller(t, Pop)), offering) && Enabled(offering, Locked(t, RelSend))
    requires Completes.Reach(Apply(offering, Locked(t, RelSend)), s')
    ensures IsPoolRun(longer, lim) && run <= longer
    ensures Last(longer) == Last(run).(conns := Last(run).conns[c := s'], idle := Last(run).idle[1..] + [c])
  {
    var p := Last(run);
    longer := Follow(run, lim, c, p.conns[c], ready);
    longer := Takes(longer, lim, c, ready, t);
    longer := FollowOffer(longer, lim, c, t, Apply(ready, Caller(t, Pop)), offering, s');
    assert Last(longer).conns == p.conns[c := s'];
  }

  lemma FollowOffer(run: seq<Pool>, lim: Limits, c: Cid, t: Tid, popped: State, offering: State, s': State)
      returns (longer: seq<Pool>)
    requires IsPoolRun(run, lim) && c in Last(run).conns && Last(run).conns[c] == popped
    requires |Last(run).idle| < lim.capacity
    requires Completes.Reach(popped, offering) && Enabled(offering, Locked(t, RelSend))
    requires Completes.Reach(Apply(offering, Locked(t, RelSend)), s')
    ensures IsPoolRun(longer, lim) && run <= longer
    ensures Last(longer) == Last(run).(conns := Last(run).conns[c := s'], idle := Last(run).idle + [c])
  {
    longer := Follow(run, lim, c, popped, offering);
    longer := Offers(longer, lim, c, offering, t);
    longer := Follow(longer, lim, c, Apply(offering, Locked(t, RelSend)), s');
    assert Last(longer).conns == Last(run).conns[c := s'];
  }

  /**
   * From every reachable state of a pool, a request can be answered on the connection at the front of the queue
   * if that is at rest, and the connection is at the end of the queue then. So can a ping. Nothing else changes.
   */
  lemma UseCompletes(run: seq<Pool>, lim: Limits, c: Cid, t: Tid, use: Option<Completes.Job>, executed: bool)
      returns (longer: seq<Pool>, s': State)
    requires IsPoolRun(run, lim) && t != READER && Last(run).idle != [] && Last(run).idle[0] == c
    requires c in Last(run).conns && Completes.AtRest(Last(run).conns[c])
    requires lim.client.Some? ==> Last(run).hold == Free
    ensures IsPoolRun(longer, lim) && run <= longer && Completes.UsedBy(Last(run).conns[c], t, use, s')
    ensures Last(longer) == Last(run).(conns := Last(run).conns[c := s'], idle := Last(run).idle[1..] + [c])
  {
    var ready, offering;
    ready, offering, s' := UsePath(run, lim, c, t, use, executed);
    QueueFits(run, lim, |run| - 1);
    longer := FollowUse(run, lim, c, t, ready, offering, s');
  }

  lemma UsePath(run: seq<Pool>, lim: Limits, c: Cid, t: Tid, use: Option<Completes.Job>, executed: bool)
      returns (ready: State, offering: State, s': State)
    requires IsPoolRun(run, lim) && t != READER && c in Last(run).conns && Completes.AtRest(Last(run).conns[c])
    ensures Completes.Reach(Last(run).conns[c], ready) && Enabled(ready, Caller(t, Pop))
    ensures Completes.Reach(Apply(ready, Caller(t, Pop)), offering) && Enabled(offering, Locked(t, RelSend))
    ensures Completes.Reach(Apply(offering, Locked(t, RelSend)), s')
    ensures Completes.UsedBy(Last(run).conns[c], t, use, s')
  {
    ConnInv(run, lim, |run| - 1, c);
    var popped;
    ready, popped, offering, s' := Completes.UsePath(Last(run).conns[c], t, use, executed);
  }

  // ---- A new connection joins the queue ----

  lemma ComesToOffer(run: seq<Pool>, lim: Limits, c: Cid, status: Status) returns (longer: seq<Pool>)
    requires IsPoolRun(run, lim) && c in Last(run).conns && Last(run).conns[c] == Init(status) && status != Closed
    ensures IsPoolRun(longer, lim) && run <= longer
    ensures Last(longer) == Last(run).(conns := Last(run).conns[c := Completes.OFFERING])
  {
    Completes.FirstOffer(status);
    longer := Follow(run, lim, c, Init(status), Completes.OFFERING);
  }

  /** The reader of a new connection offers it, and the connection is at rest. */
  lemma Joins(run: seq<Pool>, lim: Limits, c: Cid) returns (longer: seq<Pool>)
    requires IsPoolRun(run, lim) && c in Last(run).conns && Last(run).conns[c] == Completes.OFFERING
    requires |Last(run).idle| < lim.capacity
    ensures IsPoolRun(longer, lim) && run <= longer && Completes.AtRest(Completes.QUEUED)
    ensures Last(longer) ==
            Last(run).(conns := Last(run).conns[c := Completes.QUEUED], idle := Last(run).idle + [c])
  {
    Completes.FirstOffered();
    longer := Offers(run, lim, c, Completes.OFFERING, READER);
    longer := Follow(longer, lim, c, Completes.OFFERED, Completes.QUEUED);
    assert Last(longer).conns == Last(run).conns[c := Completes.QUEUED];
  }

  // ---- A registration ----

  /** Some number is not a connection yet. */
  lemma NewCid(conns: map<Cid, State>) returns (c: Cid)
    ensures c !in conns
  {
    c := Above(conns.Keys);
  }

  /** The server can add a connection while its pool is unlocked, and that joins the queue if there is room. */
  lemma RegisterCompletes(run: seq<Pool>, lim: Limits) returns (longer: seq<Pool>, c: Cid)
    requires IsPoolRun(run, lim) && lim.client == None && Last(run).hold == Free
    requires |Last(run).idle| < lim.capacity
    ensures IsPoolRun(longer, lim) && run <= longer && c !in Last(run).conns
    ensures Last(longer) == Last(run).(conns := Last(run).conns[c := Completes.QUEUED],
                                       list := Last(run).list + [c], idle := Last(run).idle + [c])
    ensures Completes.AtRest(Completes.QUEUED)
  {
    c := NewCid(Last(run).conns);
    longer := Continue(run, lim, Register(c));
    longer := ComesToOffer(longer, lim, c, Idle);
    longer := Joins(longer, lim, c);
    assert Last(longer).conns == Last(run).conns[c := Completes.QUEUED];
  }

  // ---- The connector ----

  /** The list grew by so many new connections, and nothing else changed. */
  ghost predicate Grew(p: Pool, p': Pool, made: nat) {
    && p'.hold == Free && p'.idle == p.idle
    && p.list <= p'.list && |p'.list| == |p.list| + made
    && (forall c :: c in p.conns ==> c in p'.conns && p'.conns[c] == p.conns[c])
    && forall i :: |p.list| <= i < |p'.list| ==>
         p'.list[i] !in p.conns && p'.list[i] in p'.conns && p'.conns[p'.list[i]] == Init(Connecting)
  }

  /** The connector makes so many connections and then stops: all are made, or a dial failed. */
  lemma {:induction false} Creates(run: seq<Pool>, lim: Limits, made: nat) returns (longer: seq<Pool>)
    requires IsPoolRun(run, lim) && Last(run).hold.Filling? && made <= Last(run).hold.left
    ensures IsPoolRun(longer, lim) && run <= longer && Grew(Last(run), Last(longer), made)
    decreases made
  {
    var p := Last(run);
    if made == 0 {
      longer := Continue(run, lim, EndFill);
    } else {
      var c := NewCid(p.conns);
      var once := Continue(run, lim, Create(c));
      longer := Creates(once, lim, made - 1);
      OneMore(p, Last(once), Last(longer), c, made - 1);
    }
  }

  lemma OneMore(p: Pool, m: Pool, p': Pool, c: Cid, made: nat)
    requires c !in p.conns && m.conns == p.conns[c := Init(Connecting)] && m.list == p.list + [c] && m.idle == p.idle
    requires Grew(m, p', made)
    ensures Grew(p, p', made + 1)
  {
    assert p'.list[|p.list|] == m.list[|p.list|] == c;
    assert m.list[..|p.list|] == p.list && p'.list[..|m.list|] == m.list;
    assert p'.list[..|p.list|] == p.list;
  }

  /**
   * A connector that counts `spare` spare connections can make any number of new ones up to
   * min(idleSize - spare, maxSize - total): that many if all dials succeed, fewer if one fails.
   */
  lemma FillCompletes(run: seq<Pool>, lim: Limits, spare: nat, made: nat) returns (longer: seq<Pool>)
    requires IsPoolRun(run, lim) && lim.client.Some? && Last(run).hold == Free && spare <= |Last(run).list|
    requires SizesFit(lim.client.value.idleSize, lim.client.value.maxSize)
    requires var sizes := lim.client.value;
             made <= Max(0, Min(sizes.idleSize - spare, sizes.maxSize - |Last(run).list|))
    ensures IsPoolRun(longer, lim) && run <= longer && Grew(Last(run), Last(longer), made)
  {
    var p, sizes := Last(run), lim.client.value;
    ListWithinLimit(run, lim, |run| - 1);
    CreatesMissing(sizes.idleSize, sizes.maxSize, spare, |p.list|);
    var filling := Continue(run, lim, BeginFill(spare));
    longer := Creates(filling, lim, made);
    assert Grew(p, Last(longer), made);
  }

  // ---- Clean ----

  /** Plain steps, the removal inside the lock, and plain steps. */
  lemma FollowClean(run: seq<Pool>, lim: Limits, c: Cid, t: Tid, m: State, s': State) returns (longer: seq<Pool>)
    requires IsPoolRun(run, lim) && c in Last(run).conns && Completes.Reach(Last(run).conns[c], m)
    requires Enabled(m, Locked(t, RemoveLocked)) && Completes.Reach(Apply(m, Locked(t, RemoveLocked)), s')
    ensures IsPoolRun(longer, lim) && run <= longer
    ensures Last(longer) == Last(run).(conns := Last(run).conns[c := s'], list := Without(Last(run).list, c))
  {
    var removed := Apply(m, Locked(t, RemoveLocked));
    longer := Follow(run, lim, c, Last(run).conns[c], m);
    longer := Continue(longer, lim, On(c, Locked(t, RemoveLocked)));
    longer := Follow(longer, lim, c, removed, s');
    assert Last(longer).conns == Last(run).conns[c := s'];
  }

  /** Clean can close and remove any connection of the list that is not CLOSED, if nobody is inside its lock. */
  lemma CleanCompletes(run: seq<Pool>, lim: Limits, c: Cid) returns (longer: seq<Pool>, s': State)
    requires IsPoolRun(run, lim) && c in Last(run).list && c in Last(run).conns
    requires Last(run).conns[c].c.lock == None && Last(run).conns[c].c.status != Closed
    ensures IsPoolRun(longer, lim) && run <= longer
    ensures Last(longer) == Last(run).(conns := Last(run).conns[c := s'], list := Without(Last(run).list, c))
    ensures s'.c == Last(run).conns[c].c.(status := Closed, nrClosed := true)
  {
    var s := Last(run).conns[c];
    var t := Completes.NewTid(s);
    var m := Completes.ClosesInside(s, t);
    s' := Completes.LeavesLock(m, t);
    longer := FollowClean(run, lim, c, t, m, s');
  }

  // ---- Shutdown ----

  /** Nobody is inside the lock of a connection that Shutdown has yet to close. */
  ghost predicate Unlocked(p: Pool, todo: seq<Cid>) {
    forall c :: c in todo ==> c in p.conns && p.conns[c].c.lock == None
  }

  lemma {:induction false} ClosesAll(run: seq<Pool>, lim: Limits) returns (longer: seq<Pool>)
    requires IsPoolRun(run, lim) && Last(run).hold.Shutting? && Unlocked(Last(run), Last(run).hold.todo)
    ensures IsPoolRun(longer, lim) && run <= longer
    ensures Last(longer) == Last(run).(hold := Shutting([]), conns := Last(longer).conns)
    decreases Last(run).hold.todo
  {
    longer := run;
    var todo := Last(run).hold.todo;
    if todo != [] {
      var c := todo[0];
      var s := Last(run).conns[c];
      var t := Completes.NewTid(s);
      var s' := Completes.Closes(s, t);
      longer := Follow(run, lim, c, s, s');
      longer := Continue(longer, lim, ClosedNext(t));
      assert Unlocked(Last(longer), todo[1..]);
      longer := ClosesAll(longer, lim);
    }
  }

  /**
   * When nobody is inside the lock of a listed connection, Shutdown can come to its end: the list is empty, the
   * pool unlocked, and every connection that was listed is CLOSED.
   */
  lemma ShutdownCompletes(run: seq<Pool>, lim: Limits) returns (longer: seq<Pool>)
    requires IsPoolRun(run, lim) && Last(run).hold == Free && Unlocked(Last(run), Last(run).list)
    ensures IsPoolRun(longer, lim) && run <= longer
    ensures Last(longer).list == [] && Last(longer).hold == Free && Last(longer).idle == Last(run).idle
    ensures forall c :: c in Last(run).list ==> c in Last(longer).conns && Last(longer).conns[c].c.status == Closed
  {
    var begun := Continue(run, lim, BeginShutdown);
    var closed := ClosesAll(begun, lim);
    forall c | c in Last(closed).list ensures c in Last(closed).conns && Last(closed).conns[c].c.status == Closed {
      ShutdownClosesAll(closed, lim, |closed| - 1, c);
    }
    longer := Continue(closed, lim, EndShutdown);
  }
}
