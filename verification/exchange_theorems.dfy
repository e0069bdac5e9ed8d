/** What holds of every run of the exchange protocol, for any number of callers, pings and closers. */
module ExchangeTheorems {
  import opened Types
  import opened Exchange
  import opened ExchangeInvariant
  import Serving

  /**
   * Response correlation. A ProxyRequest that returned success was exchange number d.slot of the websocket:
   * it sent the request d.req, and delivered the whole header and the whole body that the serving loop
   * produced for that exchange. Every other reply belongs to another exchange.
   */
  lemma ResponseCorrelation(run: seq<State>, i: nat, d: Delivery)
    requires IsRun(run) && i < |run| && d in run[i].log
    ensures var w := run[i].w;
            && d.slot < |w.reqs| && w.reqs[d.slot] == d.req
            && 2 * d.slot + 1 < |w.replies| && 2 * d.slot < |w.sent|
            && w.sent[2 * d.slot].req == d.req && w.sent[2 * d.slot].part == Head
            && d.head == w.replies[2 * d.slot] && d.body == w.replies[2 * d.slot + 1]
            && d.head.req == d.req && d.head.part == Head && d.head.whole
            && d.body.req == d.req && d.body.part == Body && d.body.whole
            && forall j :: 0 <= j < |w.replies| && j != 2 * d.slot && j != 2 * d.slot + 1 ==>
                             j / 2 != d.slot && j / 2 < |w.reqs| && w.replies[j].req == w.reqs[j / 2]
  {
    RunInv(run, i);
    var w := run[i].w;
    assert DeliveryOk(w, d);
    assert Tagged(w.replies[2 * d.slot], 2 * d.slot, w.reqs);
    assert Tagged(w.replies[2 * d.slot + 1], 2 * d.slot + 1, w.reqs);
    assert Tagged(w.sent[2 * d.slot], 2 * d.slot, w.reqs);
    forall j | 0 <= j < |w.replies| && j != 2 * d.slot && j != 2 * d.slot + 1
      ensures j / 2 != d.slot && j / 2 < |w.reqs| && w.replies[j].req == w.reqs[j / 2]
    {
      assert Tagged(w.replies[j], j, w.reqs);
    }
  }

  /** The serving loop pairs the two messages of one request, and answers in the order of the requests. */
  lemma RequestsArePaired(run: seq<State>, i: nat)
    requires IsRun(run) && i < |run|
    ensures var w := run[i].w; var p := w.peer;
            && (p.pc == Serving.AwaitRequest && p.consumed < |w.sent| ==>
                  && w.sent[p.consumed].part == Head
                  && p.served < |w.reqs| && w.sent[p.consumed].req == w.reqs[p.served])
            && (p.pc == Serving.AwaitBody && p.consumed < |w.sent| ==>
                  w.sent[p.consumed].part == Body && w.sent[p.consumed].req == w.job.req)
  {
    RunInv(run, i);
    var w := run[i].w;
    if w.peer.consumed < |w.sent| {
      assert Tagged(w.sent[w.peer.consumed], w.peer.consumed, w.reqs);
    }
  }

  /** At the serving loop's head with no failed write, the counts of both streams agree. */
  lemma ServingInStep(run: seq<State>, i: nat)
    requires IsRun(run) && i < |run|
    requires run[i].w.peer.pc == Serving.AwaitRequest && !run[i].w.peer.failed
    ensures var w := run[i].w; w.peer.consumed == w.peer.produced == |w.replies| == 2 * w.peer.served
  {
    RunInv(run, i);
  }

  ghost function Holders(s: State): set<Tid> {
    set t | t in s.threads && Holds(s.threads[t])
  }

  /**
   * Token conservation. Until nextResponse is closed there is exactly one token: an entry of the idle
   * queue, a dequeuer, a user, or the first Release of the reader. Afterwards there is at most one.
   */
  lemma TokenConservation(run: seq<State>, i: nat)
    requires IsRun(run) && i < |run|
    ensures run[i].c.tokens + |Holders(run[i])| <= 1
    ensures !run[i].c.nrClosed ==> run[i].c.tokens + |Holders(run[i])| == 1
  {
    RunInv(run, i);
    var s := run[i];
    var hs := Holders(s);
    assert forall u: Tid :: u in hs ==> Holds(PcOf(s, u));
    if t: Tid :| Holds(PcOf(s, t)) {
      forall u | u in hs ensures u == t {
        assert TokenAt(s, t, u);
      }
      assert TokenAt(s, t, t);
      assert hs == {t};
    } else {
      assert hs == {};
    }
  }

  /** Between a successful Take and the Release or Close that ends the use. */
  ghost predicate InUse(pc: Pc) {
    match pc
    case Held | HeadSent(_) | Ask(_, _, _) | Await(_, _, _, _) | Reading(_, _, _, _, _) | Decoding(_, _) => true
    case Releasing(rel, out) => out.Some? && (rel == RelWant || rel == RelIn)
    case Closing(cls, user) => user && cls != ClsOut
    case _ => false
  }

  /** No two ProxyRequest or SendPingMessage calls overlap on a connection, and nothing else can be taking it. */
  lemma ExclusiveUse(run: seq<State>, i: nat, t: Tid, u: Tid)
    requires IsRun(run) && i < |run| && InUse(PcOf(run[i], t)) && t != u
    ensures !InUse(PcOf(run[i], u)) && PcOf(run[i], u) !in {Popped, Chosen, TakeIn}
    ensures run[i].c.tokens == 0
    ensures run[i].c.status == Busy || run[i].c.status == Closed
  {
    RunInv(run, i);
    assert TokenAt(run[i], t, u) && StatusAt(run[i], t);
  }

  /**
   * Reader handoff. While the reader loop is at NextReader no caller holds an unfinished reader; while it
   * is on response channel ch, the owner of ch is at the matching point, or has already closed ch.
   */
  lemma ReaderHandoff(run: seq<State>, i: nat, t: Tid)
    requires IsRun(run) && i < |run|
    ensures var s := run[i]; var r := PcOf(s, READER); var pc := PcOf(s, t);
            && (pc.Reading? ==> r == Drain(pc.ch) && pc.ch.owner == t)
            && (pc.Await? ==> r.Give? && r.ch == pc.ch && pc.ch.owner == t)
            && (r.Next? ==> !pc.Reading? && !pc.Await?)
            && (r.Give? ==> PcOf(s, r.ch.owner).Await? && PcOf(s, r.ch.owner).ch == r.ch)
            && (r.Drain? && r.ch !in s.ch.closed ==>
                  PcOf(s, r.ch.owner).Reading? && PcOf(s, r.ch.owner).ch == r.ch)
            && (pc.Reading? || pc.Await? ==> pc.ch !in s.ch.closed)
  {
    RunInv(run, i);
    assert HandoffAt(run[i], t);
  }

  /**
   * No channel is ever closed twice, no ProxyRequest ever gets a nil reader, and the reader never sends on
   * a closed response channel: the branches for those cases are dead.
   */
  lemma ChannelsAreSafe(run: seq<State>, i: nat, t: Tid)
    requires IsRun(run) && i < |run|
    ensures !run[i].ch.doubleClose && !run[i].ch.nilReader
    ensures !Enabled(run[i], Caller(t, NilReader)) && !Enabled(run[i], Reader(GivePanic))
  {
    RunInv(run, i);
    var s := run[i];
    assert HandoffAt(s, t);
    var r := PcOf(s, READER);
    if r.Give? {
      assert HandoffAt(s, r.ch.owner);
    }
  }

  /** A response channel is closed only by the ProxyRequest that made it. */
  lemma ClosedByOwner(run: seq<State>, i: nat, step: Step, ch: Chan)
    requires IsRun(run) && i < |run| && Enabled(run[i], step)
    requires ch !in run[i].ch.closed && ch in Apply(run[i], step).ch.closed
    ensures step.Caller? && step.c.Consume? && step.t == ch.owner
  {
    RunInv(run, i);
    if step.Caller? {
      assert HandoffAt(run[i], step.t);
    }
  }

  /** Outside the connection lock, nextResponse is closed exactly when the status is CLOSED. */
  lemma ClosedMeansClosed(run: seq<State>, i: nat)
    requires IsRun(run) && i < |run|
    ensures run[i].c.status == Closed ==> run[i].c.nrClosed
    ensures run[i].c.lock == None ==> (run[i].c.nrClosed <==> run[i].c.status == Closed)
  {
    RunInv(run, i);
  }

  ghost predicate StaysClosed(s: State, s': State) {
    && (s.c.status == Closed ==> s'.c.status == Closed)
    && (s.c.nrClosed ==> s'.c.nrClosed && s'.c.tokens <= s.c.tokens)
  }

  /** CLOSED and the closing of nextResponse are absorbing, and from then on the queue gets no new entry. */
  lemma {:induction false} ClosedIsAbsorbing(run: seq<State>, i: nat, j: nat)
    requires IsRun(run) && i <= j < |run|
    ensures StaysClosed(run[i], run[j])
    decreases j
  {
    if i < j {
      ClosedIsAbsorbing(run, i, j - 1);
      ClosedNext(run, j - 1);
    }
  }

  lemma ClosedNext(run: seq<State>, j: nat)
    requires IsRun(run) && j + 1 < |run|
    ensures StaysClosed(run[j], run[j + 1])
  {
    RunInv(run, j);
    assert MovesAt(run, j);
    var step :| Enabled(run[j], step) && run[j + 1] == Apply(run[j], step);
    ClosedStep(run[j], step);
  }

  lemma ClosedStep(s: State, step: Step)
    requires Inv(s) && Enabled(s, step)
    ensures StaysClosed(s, Apply(s, step))
  {
    TokenFlow(s, step, READER);
    if step.Locked? {
      assert StatusAt(s, step.t) && LockAt(s, step.t);
      ClosedLocked(s, step.t, step.l);
    } else if step.Caller? {
      ClosedCaller(s, step.t, step.c);
    }
  }

  lemma ClosedLocked(s: State, t: Tid, l: LockOp)
    requires LockedEnabled(s, t, l) && StatusAt(s, t) && LockAt(s, t) && CloseGlobal(s)
    ensures s.c.status == Closed ==> LockedApply(s, t, l).c.status == Closed
    ensures s.c.nrClosed ==> l != RelSend
  {
  }

  lemma ClosedCaller(s: State, t: Tid, c: CallerOp)
    requires CallerEnabled(s, t, c)
    ensures CallerApply(s, t, c).c.status == s.c.status
  {
  }

  /**
   * No live connection is discarded. An entry taken off the idle queue is IDLE or CLOSED; the dequeuer drops
   * it exactly when it is CLOSED, Take fails exactly when it is CLOSED, and when Take succeeds the caller is
   * the only holder.
   */
  lemma NoLiveConnectionDiscarded(run: seq<State>, i: nat, t: Tid)
    requires IsRun(run) && i < |run|
    ensures var s := run[i];
            && (PcOf(s, t) == Popped ==>
                  && (s.c.status == Idle || s.c.status == Closed)
                  && (PcOf(Apply(s, Caller(t, Look)), t) == Gone <==> s.c.status == Closed))
            && (PcOf(s, t) == TakeIn ==>
                  var s' := Apply(s, Locked(t, TakeDecide));
                  && (PcOf(s', t) == Gone <==> s.c.status == Closed)
                  && (s.c.status != Closed ==>
                        PcOf(s', t) == Held && s'.c.status == Busy && s'.c.tokens == 0
                        && forall u: Tid :: Holds(PcOf(s', u)) ==> u == t))
  {
    RunInv(run, i);
    var s := run[i];
    assert StatusAt(s, t) && TokenAt(s, t, t);
    if PcOf(s, t) == TakeIn && s.c.status != Closed {
      var s' := Apply(s, Locked(t, TakeDecide));
      forall u: Tid | u != t ensures !Holds(PcOf(s', u)) {
        OthersStay(s, Locked(t, TakeDecide), u);
        assert TokenAt(s, u, t);
      }
    }
  }

  /** With the serving loop at the far end, the reader meets a message outside an exchange only while closing. */
  lemma NoWildMessage(run: seq<State>, i: nat)
    requires IsRun(run) && i < |run| && PcOf(run[i], READER).Got? && !run[i].c.nrClosed
    ensures run[i].c.status == Busy
  {
    RunInv(run, i);
    var s := run[i];
    if s.c.tokens == 0 {
      var t: Tid :| Holds(PcOf(s, t));
      assert CountAt(s, t) && StatusAt(s, t);
    }
  }
}
