/**
 * What can be done with a connection: a request gets its response and a ping ends, again and again, and from
 * every reachable state all threads can get out. Each is a continuation of the run, step by step.
 */
module ExchangeCompletes {
  import opened Types
  import opened Exchange
  import opened ExchangeInvariant
  import opened ExchangeTheorems
  import Serving

  // ---- Paths ----

  /** A step that touches neither the idle queue nor the list of the pool. */
  ghost predicate Plain(step: Step) { !IsOffer(step) && !IsPop(step) && !IsRemove(step) }

  ghost predicate Leads(s: State, steps: seq<Step>, s': State)
    decreases |steps|
  {
    if steps == [] then s == s'
    else
      var n := |steps| - 1;
      exists m :: Leads(s, steps[..n], m) && Plain(steps[n]) && Enabled(m, steps[n]) && s' == Apply(m, steps[n])
  }

  /** Plain steps lead from s to s'. */
  ghost predicate Reach(s: State, s': State) { exists steps :: Leads(s, steps, s') }

  lemma ReachSelf(s: State)
    ensures Reach(s, s)
  {
    assert Leads(s, [], s);
  }

  lemma ReachStep(s: State, m: State, step: Step)
    requires Reach(s, m) && Plain(step) && Enabled(m, step)
    ensures Reach(s, Apply(m, step))
  {
    var steps :| Leads(s, steps, m);
    assert (steps + [step])[..|steps|] == steps;
    assert Leads(s, steps + [step], Apply(m, step));
  }

  /** The same, with the state that the step leads to. */
  lemma To(s: State, m: State, step: Step, next: State)
    requires Reach(s, m) && Plain(step) && Enabled(m, step) && Apply(m, step) == next
    ensures Reach(s, next)
  {
    ReachStep(s, m, step);
  }

  lemma ReachTrans(s: State, m: State, s': State)
    requires Reach(s, m) && Reach(m, s')
    ensures Reach(s, s')
  {
    var steps :| Leads(m, steps, s');
    LeadsFrom(s, m, steps, s');
  }

  lemma {:induction false} LeadsFrom(s: State, m: State, steps: seq<Step>, s': State)
    requires Reach(s, m) && Leads(m, steps, s')
    ensures Reach(s, s')
    decreases |steps|
  {
    if steps != [] {
      var n := |steps| - 1;
      var k :| Leads(m, steps[..n], k) && Plain(steps[n]) && Enabled(k, steps[n]) && s' == Apply(k, steps[n]);
      LeadsFrom(s, m, steps[..n], k);
      ReachStep(s, k, steps[n]);
    }
  }

  ghost function Last(run: seq<State>): State
    requires |run| > 0
  {
    run[|run| - 1]
  }

  lemma Extend(run: seq<State>, step: Step) returns (longer: seq<State>)
    requires IsRun(run) && Enabled(Last(run), step)
    ensures IsRun(longer) && run <= longer && Last(longer) == Apply(Last(run), step)
  {
    var next := Apply(Last(run), step);
    assert Moves(Last(run), next);
    longer := run + [next];
    forall i | 0 <= i < |longer| - 1 ensures MovesAt(longer, i) {
      assert i < |run| - 1 ==> MovesAt(run, i);
    }
  }

  lemma Follow(run: seq<State>, s': State) returns (longer: seq<State>)
    requires IsRun(run) && Reach(Last(run), s')
    ensures IsRun(longer) && run <= longer && Last(longer) == s'
  {
    var steps :| Leads(Last(run), steps, s');
    longer := FollowSteps(run, steps, s');
  }

  lemma {:induction false} FollowSteps(run: seq<State>, steps: seq<Step>, s': State) returns (longer: seq<State>)
    requires IsRun(run) && Leads(Last(run), steps, s')
    ensures IsRun(longer) && run <= longer && Last(longer) == s'
    decreases |steps|
  {
    longer := run;
    if steps != [] {
      var n := |steps| - 1;
      var m :| Leads(Last(run), steps[..n], m) && Plain(steps[n]) && Enabled(m, steps[n]) && s' == Apply(m, steps[n]);
      longer := FollowSteps(run, steps[..n], m);
      longer := Extend(longer, steps[n]);
    }
  }

  // ---- A caller and the reader, the other threads standing still ----

  /** The caller t, the threads before t and the reader moved, and the log. */
  datatype Scene = Scene(t: Tid, rest: map<Tid, Pc>, log: seq<Delivery>)

  /** The state in which the caller and the reader stand at the points given. */
  function Shape(e: Scene, pt: Pc, pr: Pc, c: Conn, w: Wire, ch: Chans): State {
    State(c, e.rest[e.t := pt][READER := pr], w, ch, e.log)
  }

  lemma CallerMoves(e: Scene, pt: Pc, pr: Pc, pt': Pc)
    requires e.t != READER
    ensures e.rest[e.t := pt][READER := pr][e.t := pt'] == e.rest[e.t := pt'][READER := pr]
  {
  }

  lemma ReaderMoves(e: Scene, pt: Pc, pr: Pc, pr': Pc)
    ensures e.rest[e.t := pt][READER := pr][READER := pr'] == e.rest[e.t := pt][READER := pr']
  {
  }

  /** A step of the caller alone. */
  lemma CallerTo(s0: State, e: Scene, pt: Pc, pr: Pc, c: Conn, w: Wire, ch: Chans, op: CallerOp, s': State)
    requires e.t != READER && Reach(s0, Shape(e, pt, pr, c, w, ch))
    requires op != Pop && op != RemoveDone && CallerEnabled(Shape(e, pt, pr, c, w, ch), e.t, op)
    requires var s := CallerApply(Shape(e, pt, pr, c, w, ch), e.t, op);
             s' == Shape(e, PcOf(s, e.t), pr, s.c, s.w, s.ch)
    ensures Reach(s0, s')
  {
    var s := Shape(e, pt, pr, c, w, ch);
    CallerMoves(e, pt, pr, PcOf(CallerApply(s, e.t, op), e.t));
    To(s0, s, Caller(e.t, op), s');
  }

  lemma LockedTo(s0: State, e: Scene, pt: Pc, pr: Pc, c: Conn, w: Wire, ch: Chans, op: LockOp, s': State)
    requires e.t != READER && Reach(s0, Shape(e, pt, pr, c, w, ch))
    requires op != RelSend && op != RemoveLocked && LockedEnabled(Shape(e, pt, pr, c, w, ch), e.t, op)
    requires var s := LockedApply(Shape(e, pt, pr, c, w, ch), e.t, op);
             s' == Shape(e, PcOf(s, e.t), pr, s.c, s.w, s.ch) && s.log == e.log
    ensures Reach(s0, s')
  {
    var s := Shape(e, pt, pr, c, w, ch);
    CallerMoves(e, pt, pr, PcOf(LockedApply(s, e.t, op), e.t));
    To(s0, s, Locked(e.t, op), s');
  }

  /** A step of the reader alone. */
  lemma ReaderTo(s0: State, e: Scene, pt: Pc, pr: Pc, c: Conn, w: Wire, ch: Chans, op: ReaderOp, s': State)
    requires e.t != READER && Reach(s0, Shape(e, pt, pr, c, w, ch))
    requires op != DetachReader && ReaderEnabled(Shape(e, pt, pr, c, w, ch), op)
    requires var s := ReaderApply(Shape(e, pt, pr, c, w, ch), op);
             s' == Shape(e, pt, PcOf(s, READER), s.c, s.w, s.ch)
    ensures Reach(s0, s')
  {
    var s := Shape(e, pt, pr, c, w, ch);
    ReaderMoves(e, pt, pr, PcOf(ReaderApply(s, op), READER));
    To(s0, s, Reader(op), s');
  }

  const FREE := Conn(Idle, None, false, 0)
  const TAKEN := Conn(Busy, None, false, 0)

  /** Look and Take. */
  lemma Takes(s0: State, e: Scene, w: Wire, ch: Chans)
    requires e.t != READER && Reach(s0, Shape(e, Popped, Next, FREE, w, ch))
    ensures Reach(s0, Shape(e, Held, Next, TAKEN, w, ch))
  {
    var locked := FREE.(lock := Some(e.t));
    CallerTo(s0, e, Popped, Next, FREE, w, ch, Look, Shape(e, Chosen, Next, FREE, w, ch));
    LockedTo(s0, e, Chosen, Next, FREE, w, ch, TakeAcquire, Shape(e, TakeIn, Next, locked, w, ch));
    LockedTo(s0, e, TakeIn, Next, locked, w, ch, TakeDecide, Shape(e, Held, Next, TAKEN, w, ch));
  }

  /** Release, up to the offer; the exchange, if it was one, has ended. */
  lemma Releases(s0: State, e: Scene, w: Wire, ch: Chans, out: Option<Delivery>)
    requires e.t != READER && Reach(s0, Shape(e, Releasing(RelWant, out), Next, TAKEN, w, ch))
    ensures Reach(s0, Shape(e, Releasing(RelOffer, out), Next, FREE.(lock := Some(e.t)), Ended(w, out), ch))
  {
    var locked := TAKEN.(lock := Some(e.t));
    LockedTo(s0, e, Releasing(RelWant, out), Next, TAKEN, w, ch, RelAcquire,
             Shape(e, Releasing(RelIn, out), Next, locked, w, ch));
    LockedTo(s0, e, Releasing(RelIn, out), Next, locked, w, ch, RelSet,
             Shape(e, Releasing(RelOffer, out), Next, FREE.(lock := Some(e.t)), Ended(w, out), ch));
  }

  function Ended(w: Wire, out: Option<Delivery>): Wire { if out.Some? then w.(fin := w.fin + 1) else w }

  // ---- The request and its answer ----

  /** A request: its id, the data of its two messages, and those of the reply. */
  datatype Job = Job(req: int, head: int, body: int, replyHead: int, replyBody: int)

  function Request(j: Job): seq<Msg> { [Msg(j.req, Head, true, j.head), Msg(j.req, Body, true, j.body)] }

  function Answer(j: Job): seq<Msg> { [Msg(j.req, Head, true, j.replyHead), Msg(j.req, Body, true, j.replyBody)] }

  /** The two messages of the request. */
  lemma Writes(s0: State, e: Scene, w: Wire, ch: Chans, j: Job)
    requires e.t != READER && Reach(s0, Shape(e, Held, Next, TAKEN, w, ch))
    ensures Reach(s0, Shape(e, Ask(j.req, Head, None), Next, TAKEN, Requested(w, j), ch))
  {
    var w1 := w.(reqs := w.reqs + [j.req], sent := w.sent + [Msg(j.req, Head, true, j.head)]);
    assert w1.sent + [Msg(j.req, Body, true, j.body)] == w.sent + Request(j);
    CallerTo(s0, e, Held, Next, TAKEN, w, ch, WriteHead(j.req, j.head, true, false),
             Shape(e, HeadSent(j.req), Next, TAKEN, w1, ch));
    CallerTo(s0, e, HeadSent(j.req), Next, TAKEN, w1, ch, WriteBody(j.body, true, false),
             Shape(e, Ask(j.req, Head, None), Next, TAKEN, Requested(w, j), ch));
  }

  function Requested(w: Wire, j: Job): Wire { w.(reqs := w.reqs + [j.req], sent := w.sent + Request(j)) }

  /** One operation of the serving loop at the far end. */
  lemma Serves(s0: State, s: State, w: Wire, ok: bool, data: int, w': Wire)
    requires Reach(s0, s.(w := w)) && ServeEnabled(w, ok) && ServeWire(w, ok, data, false) == w'
    ensures Reach(s0, s.(w := w'))
  {
    To(s0, s.(w := w), Serve(ok, data, false), s.(w := w'));
  }

  /** The wire w, with the serving loop so far into job j. */
  function Into(w: Wire, j: Job, pc: Serving.PeerPc, taken: nat, more: seq<Msg>): Wire {
    w.(peer := Serving.Peer(pc, w.peer.consumed + taken, w.peer.produced + |more|,
                            w.peer.served + (if pc == Serving.AwaitRequest then 1 else 0), w.peer.failed),
       job := Msg(j.req, Head, true, j.head), replies := w.replies + more)
  }

  /** The request is all that the serving loop has not read. */
  ghost predicate Waiting(w: Wire, j: Job) {
    && w.peer.pc == Serving.AwaitRequest && w.peer.consumed + 2 == |w.sent|
    && w.sent[w.peer.consumed] == Msg(j.req, Head, true, j.head)
    && w.sent[w.peer.consumed + 1] == Msg(j.req, Body, true, j.body)
  }

  lemma ServesRequest(s0: State, s: State, j: Job)
    requires Reach(s0, s) && Waiting(s.w, j)
    ensures Reach(s0, s.(w := Into(s.w, j, Serving.Execute, 2, [])))
  {
    var w := s.w;
    assert s == s.(w := w) && w.replies + [] == w.replies;
    Serves(s0, s, w, true, 0, Into(w, j, Serving.Decode, 1, []));
    Serves(s0, s, Into(w, j, Serving.Decode, 1, []), true, 0, Into(w, j, Serving.Unserialize, 1, []));
    Serves(s0, s, Into(w, j, Serving.Unserialize, 1, []), true, 0, Into(w, j, Serving.AwaitBody, 1, []));
    Serves(s0, s, Into(w, j, Serving.AwaitBody, 1, []), true, 0, Into(w, j, Serving.Execute, 2, []));
  }

  /** One operation, from one point of job j to another, with what it appends. */
  ghost predicate OneOperation(w: Wire, j: Job, taken: nat, pc: Serving.PeerPc, more: seq<Msg>, ok: bool, data: int,
                               pc': Serving.PeerPc, more': seq<Msg>) {
    && ServeEnabled(Into(w, j, pc, taken, more), ok)
    && ServeWire(Into(w, j, pc, taken, more), ok, data, false) == Into(w, j, pc', taken, more')
  }

  lemma ServesOn(s0: State, s: State, w: Wire, j: Job, taken: nat, pc: Serving.PeerPc, more: seq<Msg>, ok: bool,
                 data: int, pc': Serving.PeerPc, more': seq<Msg>)
    requires Reach(s0, s.(w := Into(w, j, pc, taken, more)))
    requires OneOperation(w, j, taken, pc, more, ok, data, pc', more')
    ensures Reach(s0, s.(w := Into(w, j, pc', taken, more')))
  {
    Serves(s0, s, Into(w, j, pc, taken, more), ok, data, Into(w, j, pc', taken, more'));
  }

  lemma AnswerSteps(w: Wire, j: Job)
    ensures OneOperation(w, j, 2, Serving.Execute, [], true, 0, Serving.Serialize, [])
    ensures OneOperation(w, j, 2, Serving.Serialize, [], true, 0, Serving.WriteHead, [])
    ensures OneOperation(w, j, 2, Serving.WriteHead, [], true, j.replyHead, Serving.OpenBody, Answer(j)[..1])
    ensures OneOperation(w, j, 2, Serving.OpenBody, Answer(j)[..1], true, 0, Serving.CopyBody, Answer(j)[..1])
    ensures OneOperation(w, j, 2, Serving.CopyBody, Answer(j)[..1], true, 0, Serving.CloseBody, Answer(j)[..1])
    ensures OneOperation(w, j, 2, Serving.CloseBody, Answer(j)[..1], true, j.replyBody, Serving.AwaitRequest, Answer(j))
  {
    assert w.replies + [] + [Answer(j)[0]] == w.replies + Answer(j)[..1];
    assert w.replies + Answer(j)[..1] + [Answer(j)[1]] == w.replies + Answer(j);
  }

  lemma ErrorSteps(w: Wire, j: Job)
    ensures OneOperation(w, j, 2, Serving.Execute, [], false, 0, Serving.ErrMarshal(true), [])
    ensures OneOperation(w, j, 2, Serving.ErrMarshal(true), [], true, 0, Serving.ErrHead(true), [])
    ensures OneOperation(w, j, 2, Serving.ErrHead(true), [], true, j.replyHead, Serving.ErrBody(true), Answer(j)[..1])
    ensures OneOperation(w, j, 2, Serving.ErrBody(true), Answer(j)[..1], true, j.replyBody,
                         Serving.AwaitRequest, Answer(j))
  {
    assert w.replies + [] + [Answer(j)[0]] == w.replies + Answer(j)[..1];
    assert w.replies + Answer(j)[..1] + [Answer(j)[1]] == w.replies + Answer(j);
  }

  /** Executes it, and writes the header of the response and comes to its body. */
  lemma ServesHead(s0: State, s: State, w: Wire, j: Job)
    requires Reach(s0, s.(w := Into(w, j, Serving.Execute, 2, [])))
    ensures Reach(s0, s.(w := Into(w, j, Serving.CopyBody, 2, Answer(j)[..1])))
  {
    var head := Answer(j)[..1];
    AnswerSteps(w, j);
    ServesOn(s0, s, w, j, 2, Serving.Execute, [], true, 0, Serving.Serialize, []);
    ServesOn(s0, s, w, j, 2, Serving.Serialize, [], true, 0, Serving.WriteHead, []);
    ServesOn(s0, s, w, j, 2, Serving.WriteHead, [], true, j.replyHead, Serving.OpenBody, head);
    ServesOn(s0, s, w, j, 2, Serving.OpenBody, head, true, 0, Serving.CopyBody, head);
  }

  /** And the body. */
  lemma ServesBody(s0: State, s: State, w: Wire, j: Job)
    requires Reach(s0, s.(w := Into(w, j, Serving.CopyBody, 2, Answer(j)[..1])))
    ensures Reach(s0, s.(w := Into(w, j, Serving.AwaitRequest, 2, Answer(j))))
  {
    var head := Answer(j)[..1];
    AnswerSteps(w, j);
    ServesOn(s0, s, w, j, 2, Serving.CopyBody, head, true, 0, Serving.CloseBody, head);
    ServesOn(s0, s, w, j, 2, Serving.CloseBody, head, true, j.replyBody, Serving.AwaitRequest, Answer(j));
  }

  /** Executing it fails, and the two messages are those of the error reply. */
  lemma ServesError(s0: State, s: State, w: Wire, j: Job)
    requires Reach(s0, s.(w := Into(w, j, Serving.Execute, 2, [])))
    ensures Reach(s0, s.(w := Into(w, j, Serving.AwaitRequest, 2, Answer(j))))
  {
    var head := Answer(j)[..1];
    ErrorSteps(w, j);
    ServesOn(s0, s, w, j, 2, Serving.Execute, [], false, 0, Serving.ErrMarshal(true), []);
    ServesOn(s0, s, w, j, 2, Serving.ErrMarshal(true), [], true, 0, Serving.ErrHead(true), []);
    ServesOn(s0, s, w, j, 2, Serving.ErrHead(true), [], true, j.replyHead, Serving.ErrBody(true), head);
    ServesOn(s0, s, w, j, 2, Serving.ErrBody(true), head, true, j.replyBody, Serving.AwaitRequest, Answer(j));
  }

  /** The serving loop comes back to its head; the request was executed, or answered by the error reply. */
  lemma ServesAll(s0: State, s: State, j: Job, executed: bool)
    requires Reach(s0, s) && Waiting(s.w, j)
    ensures Reach(s0, s.(w := Into(s.w, j, Serving.AwaitRequest, 2, Answer(j))))
  {
    ServesRequest(s0, s, j);
    if executed {
      ServesHead(s0, s, s.w, j);
      ServesBody(s0, s, s.w, j);
    } else {
      ServesError(s0, s, s.w, j);
    }
  }

  // ---- A message from the websocket to the caller ----

  /** The reader receives the next message, and finds the connection BUSY. */
  lemma Receives(s0: State, e: Scene, pt: Pc, w: Wire, ch: Chans)
    requires e.t != READER && w.read < |w.replies| && Reach(s0, Shape(e, pt, Next, TAKEN, w, ch))
    ensures Reach(s0, Shape(e, pt, Recv(w.replies[w.read]), TAKEN, w.(read := w.read + 1), ch))
  {
    var m, w1 := w.replies[w.read], w.(read := w.read + 1);
    ReaderTo(s0, e, pt, Next, TAKEN, w, ch, Receive(true), Shape(e, pt, Got(m), TAKEN, w1, ch));
    ReaderTo(s0, e, pt, Got(m), TAKEN, w1, ch, CheckBusy, Shape(e, pt, Recv(m), TAKEN, w1, ch));
  }

  /** The caller makes a response channel and passes it to the reader. */
  lemma Meets(s0: State, e: Scene, m: Msg, w: Wire, ch: Chans, req: int, part: Part, head: Option<Msg>)
    requires e.t != READER && Reach(s0, Shape(e, Ask(req, part, head), Recv(m), TAKEN, w, ch))
    ensures var c := Chan(e.t, ch.next);
            Reach(s0, Shape(e, Await(req, part, c, head), Give(c, m), TAKEN, w, ch.(next := ch.next + 1)))
  {
    var c := Chan(e.t, ch.next);
    CallerMoves(e, Ask(req, part, head), Recv(m), Await(req, part, c, head));
    ReaderMoves(e, Await(req, part, c, head), Recv(m), Give(c, m));
    To(s0, Shape(e, Ask(req, part, head), Recv(m), TAKEN, w, ch), Meet(e.t),
       Shape(e, Await(req, part, c, head), Give(c, m), TAKEN, w, ch.(next := ch.next + 1)));
  }

  /** The reader passes the message on it. */
  lemma Hands(s0: State, e: Scene, m: Msg, w: Wire, ch: Chans, req: int, part: Part, head: Option<Msg>, c: Chan)
    requires e.t != READER && Reach(s0, Shape(e, Await(req, part, c, head), Give(c, m), TAKEN, w, ch))
    ensures Reach(s0, Shape(e, Exchange.Reading(req, part, c, m, head), Drain(c), TAKEN,
                            w.(delivered := w.delivered + 1), ch))
  {
    var reading := Exchange.Reading(req, part, c, m, head);
    CallerMoves(e, Await(req, part, c, head), Give(c, m), reading);
    ReaderMoves(e, reading, Give(c, m), Drain(c));
    To(s0, Shape(e, Await(req, part, c, head), Give(c, m), TAKEN, w, ch), Hand(e.t),
       Shape(e, reading, Drain(c), TAKEN, w.(delivered := w.delivered + 1), ch));
  }

  /** Where the caller is when it has read the message m. */
  function Afterwards(w: Wire, req: int, part: Part, head: Option<Msg>, m: Msg): Pc {
    if part == Head then Decoding(req, m)
    else Releasing(RelWant, Some(Delivery(w.fin, req, if head.Some? then head.value else NO_MSG, m)))
  }

  /** The caller reads the message and closes the channel, and the reader goes on to the next message. */
  lemma Consumes(s0: State, e: Scene, m: Msg, w: Wire, ch: Chans, req: int, part: Part, head: Option<Msg>, c: Chan)
    requires e.t != READER && m.whole
    requires Reach(s0, Shape(e, Exchange.Reading(req, part, c, m, head), Drain(c), TAKEN, w, ch))
    ensures Reach(s0, Shape(e, Afterwards(w, req, part, head, m), Next, TAKEN, w, Shut(ch, c)))
  {
    var reading, after := Exchange.Reading(req, part, c, m, head), Afterwards(w, req, part, head, m);
    CallerTo(s0, e, reading, Drain(c), TAKEN, w, ch, Consume(true), Shape(e, after, Drain(c), TAKEN, w, Shut(ch, c)));
    ReaderTo(s0, e, after, Drain(c), TAKEN, w, Shut(ch, c), Woken, Shape(e, after, Top, TAKEN, w, Shut(ch, c)));
    ReaderTo(s0, e, after, Top, TAKEN, w, Shut(ch, c), CheckTop, Shape(e, after, Next, TAKEN, w, Shut(ch, c)));
  }

  function Shut(ch: Chans, c: Chan): Chans {
    ch.(closed := ch.closed + {c}, doubleClose := ch.doubleClose || c in ch.closed)
  }

  function ReadOne(w: Wire): Wire { w.(read := w.read + 1, delivered := w.delivered + 1) }

  lemma ReceivesAndMeets(s0: State, e: Scene, w: Wire, ch: Chans, req: int, part: Part, head: Option<Msg>)
    requires e.t != READER && w.read < |w.replies|
    requires Reach(s0, Shape(e, Ask(req, part, head), Next, TAKEN, w, ch))
    ensures var m, c := w.replies[w.read], Chan(e.t, ch.next);
            Reach(s0, Shape(e, Await(req, part, c, head), Give(c, m), TAKEN, w.(read := w.read + 1),
                            ch.(next := ch.next + 1)))
  {
    Receives(s0, e, Ask(req, part, head), w, ch);
    Meets(s0, e, w.replies[w.read], w.(read := w.read + 1), ch, req, part, head);
  }

  /** The next message goes from the websocket to the caller. */
  lemma Passes(s0: State, e: Scene, w: Wire, ch: Chans, req: int, part: Part, head: Option<Msg>)
    requires e.t != READER && w.read < |w.replies|
    requires Reach(s0, Shape(e, Ask(req, part, head), Next, TAKEN, w, ch))
    ensures var m, c := w.replies[w.read], Chan(e.t, ch.next);
            Reach(s0, Shape(e, Exchange.Reading(req, part, c, m, head), Drain(c), TAKEN, ReadOne(w),
                            ch.(next := ch.next + 1)))
  {
    var m, c, w1, ch1 := w.replies[w.read], Chan(e.t, ch.next), w.(read := w.read + 1), ch.(next := ch.next + 1);
    ReceivesAndMeets(s0, e, w, ch, req, part, head);
    Hands(s0, e, m, w1, ch1, req, part, head, c);
    assert w1.(delivered := w1.delivered + 1) == ReadOne(w);
  }

  /** And he reads it. */
  lemma Delivers(s0: State, e: Scene, w: Wire, ch: Chans, req: int, part: Part, head: Option<Msg>)
      returns (ch': Chans)
    requires e.t != READER && w.read < |w.replies| && w.replies[w.read].whole
    requires Reach(s0, Shape(e, Ask(req, part, head), Next, TAKEN, w, ch))
    ensures Reach(s0, Shape(e, Afterwards(w, req, part, head, w.replies[w.read]), Next, TAKEN, ReadOne(w), ch'))
    ensures ch' == Shut(ch.(next := ch.next + 1), Chan(e.t, ch.next))
  {
    var m, c, ch1 := w.replies[w.read], Chan(e.t, ch.next), ch.(next := ch.next + 1);
    Passes(s0, e, w, ch, req, part, head);
    Consumes(s0, e, m, ReadOne(w), ch1, req, part, head, c);
    ch' := Shut(ch1, c);
  }

  /** The header decodes, and the caller asks for the body. */
  lemma Decodes(s0: State, e: Scene, w: Wire, ch: Chans, req: int, m: Msg)
    requires e.t != READER && Reach(s0, Shape(e, Decoding(req, m), Next, TAKEN, w, ch))
    ensures Reach(s0, Shape(e, Ask(req, Body, Some(m)), Next, TAKEN, w, ch))
  {
    CallerTo(s0, e, Decoding(req, m), Next, TAKEN, w, ch, Unmarshal(true),
             Shape(e, Ask(req, Body, Some(m)), Next, TAKEN, w, ch));
  }

  lemma AfterBody(w: Wire, j: Job)
    ensures Afterwards(w, j.req, Body, Some(Answer(j)[0]), Answer(j)[1]) == Releasing(RelWant, Some(Delivered(w, j)))
  {
  }

  /** The header goes to the caller, who asks for the body. */
  lemma DeliversHead(s0: State, e: Scene, w: Wire, ch: Chans, j: Job) returns (ch': Chans)
    requires e.t != READER && w.read < |w.replies| && w.replies[w.read] == Answer(j)[0]
    requires Reach(s0, Shape(e, Ask(j.req, Head, None), Next, TAKEN, w, ch))
    ensures Reach(s0, Shape(e, Ask(j.req, Body, Some(Answer(j)[0])), Next, TAKEN, ReadOne(w), ch'))
    ensures ch' == Shut(ch.(next := ch.next + 1), Chan(e.t, ch.next))
  {
    ch' := Delivers(s0, e, w, ch, j.req, Head, None);
    Decodes(s0, e, ReadOne(w), ch', j.req, Answer(j)[0]);
  }

  /** The two messages of the response, one after the other. */
  lemma DeliversBoth(s0: State, e: Scene, w: Wire, ch: Chans, j: Job) returns (ch': Chans)
    requires e.t != READER && w.read + 2 == |w.replies|
    requires w.replies[w.read] == Answer(j)[0] && w.replies[w.read + 1] == Answer(j)[1]
    requires Reach(s0, Shape(e, Ask(j.req, Head, None), Next, TAKEN, w, ch))
    ensures Reach(s0, Shape(e, Releasing(RelWant, Some(Delivered(w, j))), Next, TAKEN, ReadOne(ReadOne(w)), ch'))
  {
    ch' := DeliversHead(s0, e, w, ch, j);
    ch' := Delivers(s0, e, ReadOne(w), ch', j.req, Body, Some(Answer(j)[0]));
    AfterBody(ReadOne(w), j);
  }

  function Delivered(w: Wire, j: Job): Delivery { Delivery(w.fin, j.req, Answer(j)[0], Answer(j)[1]) }

  // ---- A whole use of a connection at rest ----

  /**
   * Nobody uses the connection: only its reader runs, at the loop head or in NextReader; it is open and queued,
   * and the serving loop at the far end is at its head, no write having failed.
   */
  ghost predicate AtRest(s: State) {
    && (PcOf(s, READER) == Top || PcOf(s, READER) == Next)
    && (forall u: Tid :: u != READER ==> PcOf(s, u) == Gone)
    && s.c.tokens == 1 && s.c.lock == None && !s.c.nrClosed
    && s.w.peer.pc == Serving.AwaitRequest && !s.w.peer.failed
  }

  /** Everything sent on the wire has been read at the other end. */
  ghost predicate Idling(w: Wire) {
    && |w.sent| == w.peer.consumed && w.read == w.delivered == |w.replies|
    && w.peer.pc == Serving.AwaitRequest && !w.peer.failed
  }

  lemma RestIsIdling(s: State)
    requires Inv(s) && AtRest(s)
    ensures Idling(s.w) && s.c == Conn(Idle, None, false, 1)
  {
  }

  function Served(w: Wire, j: Job): Wire {
    var w1 := Into(Requested(w, j), j, Serving.AwaitRequest, 2, Answer(j));
    Ended(ReadOne(ReadOne(w1)), Some(Delivered(w1, j)))
  }

  /** What becomes of the wire in a use: a request, or a ping, which sends no data message. */
  function WireAfter(w: Wire, use: Option<Job>): Wire { if use.Some? then Served(w, use.value) else w }

  function Result(w: Wire, use: Option<Job>): Option<Delivery> {
    if use.Some? then Some(Delivered(w, use.value)) else None
  }

  /** From the pop to the offer. */
  lemma Uses(e: Scene, w: Wire, ch: Chans, use: Option<Job>, executed: bool) returns (ch': Chans)
    requires e.t != READER && Idling(w)
    ensures Reach(Shape(e, Popped, Next, FREE, w, ch),
                  Shape(e, Releasing(RelOffer, Result(w, use)), Next, FREE.(lock := Some(e.t)), WireAfter(w, use), ch'))
  {
    var s0 := Shape(e, Popped, Next, FREE, w, ch);
    ReachSelf(s0);
    Takes(s0, e, w, ch);
    ch' := ch;
    match use
    case None =>
      CallerTo(s0, e, Held, Next, TAKEN, w, ch, Ping, Shape(e, Releasing(RelWant, None), Next, TAKEN, w, ch));
      Releases(s0, e, w, ch, None);
    case Some(j) => ch' := Exchanges(s0, e, w, ch, j, executed);
  }

  lemma Exchanges(s0: State, e: Scene, w: Wire, ch: Chans, j: Job, executed: bool) returns (ch': Chans)
    requires e.t != READER && Idling(w) && Reach(s0, Shape(e, Held, Next, TAKEN, w, ch))
    ensures Reach(s0, Shape(e, Releasing(RelOffer, Some(Delivered(w, j))), Next, FREE.(lock := Some(e.t)),
                            Served(w, j), ch'))
  {
    var ask := Ask(j.req, Head, None);
    var w0, w1 := Requested(w, j), Into(Requested(w, j), j, Serving.AwaitRequest, 2, Answer(j));
    Writes(s0, e, w, ch, j);
    ServesAll(s0, Shape(e, ask, Next, TAKEN, w0, ch), j, executed);
    assert Shape(e, ask, Next, TAKEN, w0, ch).(w := w1) == Shape(e, ask, Next, TAKEN, w1, ch);
    ch' := DeliversBoth(s0, e, w1, ch, j);
    Releases(s0, e, ReadOne(ReadOne(w1)), ch', Some(Delivered(w1, j)));
  }

  /** The reader goes to NextReader. */
  lemma Settles(s: State) returns (s1: State)
    requires Inv(s) && AtRest(s)
    ensures Reach(s, s1) && s1 == s.(threads := s.threads[READER := Next])
  {
    s1 := s.(threads := s.threads[READER := Next]);
    ReachSelf(s);
    if PcOf(s, READER) == Top {
      RestIsIdling(s);
      To(s, s, Reader(CheckTop), s1);
    } else {
      assert s.threads[READER := Next] == s.threads;
    }
  }

  /** The caller takes the connection off the queue. */
  lemma Pops(s: State, t: Tid)
    requires t != READER && PcOf(s, t) == Gone && PcOf(s, READER) == Next && s.c == Conn(Idle, None, false, 1)
    ensures Enabled(s, Caller(t, Pop))
    ensures Apply(s, Caller(t, Pop)) == Shape(Scene(t, s.threads, s.log), Popped, Next, FREE, s.w, s.ch)
  {
    assert s.threads[t := Popped][READER := Next] == s.threads[t := Popped];
  }

  /** The caller puts it back, and then returns. */
  function Offered(e: Scene, out: Option<Delivery>, w: Wire, ch: Chans): State {
    Shape(e, Releasing(RelOut, out), Next, Conn(Idle, Some(e.t), false, 1), w, ch)
  }

  function Returned(e: Scene, out: Option<Delivery>, w: Wire, ch: Chans): State {
    Shape(e.(log := e.log + if out.Some? then [out.value] else []), Gone, Next, Conn(Idle, None, false, 1), w, ch)
  }

  lemma Offers(e: Scene, out: Option<Delivery>, w: Wire, ch: Chans)
    requires e.t != READER
    ensures var s := Shape(e, Releasing(RelOffer, out), Next, FREE.(lock := Some(e.t)), w, ch);
            Enabled(s, Locked(e.t, RelSend)) && Apply(s, Locked(e.t, RelSend)) == Offered(e, out, w, ch)
    ensures Reach(Offered(e, out, w, ch), Returned(e, out, w, ch))
  {
    var s1, s2 := Offered(e, out, w, ch), Returned(e, out, w, ch);
    CallerMoves(e, Releasing(RelOffer, out), Next, Releasing(RelOut, out));
    CallerMoves(e, Releasing(RelOut, out), Next, Gone);
    assert e.log + [] == e.log;
    ReachSelf(s1);
    To(s1, s1, Locked(e.t, RelUnlock), s2);
  }

  /** What a use by t leaves of a connection that was in state s. */
  ghost predicate UsedBy(s: State, t: Tid, use: Option<Job>, s': State) {
    && AtRest(s') && PcOf(s', t) == Gone && s'.c.status == Idle && s'.c.tokens == 1
    && s'.w == WireAfter(s.w, use)
    && match use
       case None => s'.log == s.log && s'.w == s.w
       case Some(j) =>
         && s'.log == s.log + [Delivery(s.w.fin, j.req, Answer(j)[0], Answer(j)[1])]
         && s'.w.reqs == s.w.reqs + [j.req] && s'.w.sent == s.w.sent + Request(j)
         && s'.w.replies == s.w.replies + Answer(j)
  }

  lemma ReturnedIsUsed(s: State, e: Scene, use: Option<Job>, ch: Chans)
    requires AtRest(s) && Idling(s.w) && e == Scene(e.t, s.threads[READER := Next], s.log) && e.t != READER
    ensures UsedBy(s, e.t, use, Returned(e, Result(s.w, use), WireAfter(s.w, use), ch))
  {
    var s' := Returned(e, Result(s.w, use), WireAfter(s.w, use), ch);
    forall u: Tid | u != READER ensures PcOf(s', u) == Gone {
      assert PcOf(s, u) == Gone;
    }
    assert s.log + [] == s.log;
  }

  /**
   * A use of a connection at rest, by any thread, can always be completed: plain steps to the pop, the pop,
   * plain steps to the offer, the offer, and plain steps back to rest.
   */
  lemma UsePath(s: State, t: Tid, use: Option<Job>, executed: bool)
      returns (ready: State, popped: State, offering: State, s': State)
    requires Inv(s) && AtRest(s) && t != READER
    ensures Reach(s, ready) && Enabled(ready, Caller(t, Pop)) && Apply(ready, Caller(t, Pop)) == popped
    ensures Reach(popped, offering) && Enabled(offering, Locked(t, RelSend))
    ensures Reach(Apply(offering, Locked(t, RelSend)), s') && UsedBy(s, t, use, s')
  {
    RestIsIdling(s);
    ready := Settles(s);
    assert PcOf(s, t) == Gone;
    Pops(ready, t);
    var e := Scene(t, ready.threads, ready.log);
    popped := Shape(e, Popped, Next, FREE, s.w, s.ch);
    var ch := Uses(e, s.w, s.ch, use, executed);
    var out, w := Result(s.w, use), WireAfter(s.w, use);
    offering := Shape(e, Releasing(RelOffer, out), Next, FREE.(lock := Some(t)), w, ch);
    Offers(e, out, w, ch);
    s' := Returned(e, out, w, ch);
    ReturnedIsUsed(s, e, use, ch);
  }

  lemma FollowUse(run: seq<State>, t: Tid, ready: State, offering: State, s': State) returns (longer: seq<State>)
    requires IsRun(run) && Reach(Last(run), ready) && Enabled(ready, Caller(t, Pop))
    requires Reach(Apply(ready, Caller(t, Pop)), offering) && Enabled(offering, Locked(t, RelSend))
    requires Reach(Apply(offering, Locked(t, RelSend)), s')
    ensures IsRun(longer) && run <= longer && Last(longer) == s'
  {
    longer := FollowPop(run, t, ready, offering);
    longer := Extend(longer, Locked(t, RelSend));
    longer := Follow(longer, s');
  }

  /**
   * From every reachable state at rest every request can be answered, whatever its id and data and those of the
   * response, be it that of the executed request or the error reply: t returns success with exactly these two
   * messages, and the connection is queued again. A ping ends the same way, without a delivery.
   */
  lemma UseCompletes(run: seq<State>, t: Tid, use: Option<Job>, executed: bool) returns (longer: seq<State>)
    requires IsRun(run) && AtRest(Last(run)) && t != READER
    ensures IsRun(longer) && run <= longer && UsedBy(Last(run), t, use, Last(longer))
  {
    RunInv(run, |run| - 1);
    var ready, popped, offering, s' := UsePath(Last(run), t, use, executed);
    longer := FollowUse(run, t, ready, offering, s');
  }

  const OFFERING := Alone(Conn(Idle, Some(READER), false, 0), Releasing(RelOffer, None))
  const OFFERED := Alone(Conn(Idle, Some(READER), false, 1), Releasing(RelOut, None))
  const QUEUED := Alone(Conn(Idle, None, false, 1), Top)

  lemma Opening(status: Status)
    requires status != Closed
    ensures Init(status) == Alone(Conn(status, None, false, 0), Fresh)
    ensures var c, c' := Conn(status, None, false, 0), Conn(status, Some(READER), false, 0);
            && Apply(Alone(c, Fresh), Reader(Start)) == Alone(c, Releasing(RelWant, None))
            && Apply(Alone(c, Releasing(RelWant, None)), Locked(READER, RelAcquire))
               == Alone(c', Releasing(RelIn, None))
            && Apply(Alone(c', Releasing(RelIn, None)), Locked(READER, RelSet)) == OFFERING
  {
  }

  /** From its start the reader comes to the first offer of the connection. */
  lemma FirstOffer(status: Status)
    requires status != Closed
    ensures Reach(Init(status), OFFERING)
  {
    Opening(status);
    var s0 := Init(status);
    var s1 := Apply(s0, Reader(Start));
    var s2 := Apply(s1, Locked(READER, RelAcquire));
    ReachSelf(s0);
    To(s0, s0, Reader(Start), s1);
    To(s0, s1, Locked(READER, RelAcquire), s2);
    To(s0, s2, Locked(READER, RelSet), OFFERING);
  }

  lemma OfferingSteps()
    ensures Apply(OFFERING, Locked(READER, RelSend)) == OFFERED
    ensures Apply(OFFERED, Locked(READER, RelUnlock)) == QUEUED
  {
  }

  lemma QueuedIsAtRest()
    ensures AtRest(QUEUED)
  {
  }

  /** The offer, and on to the loop head. */
  lemma FirstOffered()
    ensures Enabled(OFFERING, Locked(READER, RelSend)) && Apply(OFFERING, Locked(READER, RelSend)) == OFFERED
    ensures Reach(OFFERED, QUEUED) && AtRest(QUEUED)
  {
    OfferingSteps();
    QueuedIsAtRest();
    ReachSelf(OFFERED);
    To(OFFERED, OFFERED, Locked(READER, RelUnlock), QUEUED);
  }

  /** A new connection comes to rest: its reader offers it for the first time. */
  lemma Opens(status: Status) returns (run: seq<State>)
    requires status == Idle || status == Connecting
    ensures IsRun(run) && run[0] == Init(status) && Last(run) == QUEUED
  {
    FirstOffer(status);
    FirstOffered();
    run := [Init(status)];
    run := Follow(run, OFFERING);
    run := Extend(run, Locked(READER, RelSend));
    run := Follow(run, QUEUED);
  }

  /** The jobs were answered in turn, each with its own response. */
  ghost predicate AnsweredInTurn(s: State, jobs: seq<Job>) {
    && AtRest(s) && s.w.fin == |jobs| == |s.log|
    && forall i :: 0 <= i < |jobs| ==>
         s.log[i] == Delivery(i, jobs[i].req, Answer(jobs[i])[0], Answer(jobs[i])[1])
  }

  lemma OneMore(s: State, jobs: seq<Job>, t: Tid, j: Job, s': State)
    requires AnsweredInTurn(s, jobs) && UsedBy(s, t, Some(j), s')
    ensures AnsweredInTurn(s', jobs + [j])
  {
    forall i | 0 <= i < |jobs + [j]|
      ensures var k := (jobs + [j])[i]; s'.log[i] == Delivery(i, k.req, Answer(k)[0], Answer(k)[1])
    {
      assert i < |jobs| ==> s'.log[i] == s.log[i];
    }
  }

  lemma NoneYet()
    ensures AnsweredInTurn(QUEUED, [])
  {
    FirstOffered();
  }

  lemma ServesOneMore(before: seq<State>, jobs: seq<Job>, t: Tid, j: Job) returns (run: seq<State>)
    requires t != READER && IsRun(before) && AnsweredInTurn(Last(before), jobs)
    ensures IsRun(run) && AnsweredInTurn(Last(run), jobs + [j])
  {
    run := UseCompletes(before, t, Some(j), true);
    OneMore(Last(before), jobs, t, j, Last(run));
  }

  /** One connection can serve any requests one after the other, and answers each of them with its own response. */
  lemma {:induction false} ServesInTurn(jobs: seq<Job>, t: Tid) returns (run: seq<State>)
    requires t != READER
    ensures IsRun(run) && AnsweredInTurn(Last(run), jobs)
  {
    if jobs == [] {
      run := Opens(Idle);
      NoneYet();
    } else {
      var n := |jobs| - 1;
      var before := ServesInTurn(jobs[..n], t);
      run := ServesOneMore(before, jobs[..n], t, jobs[n]);
      assert jobs[..n] + [jobs[n]] == jobs;
    }
  }

  // ---- A request that is refused ----

  /** The serving loop could not decode the request: it wrote the error reply and is left. */
  function Refused(w: Wire, j: Job): Wire { Into(w, j, Serving.Stopped, 1, Answer(j)) }

  lemma ServesRefusal(s0: State, s: State, j: Job, decodes: bool)
    requires Reach(s0, s) && Waiting(s.w, j)
    ensures Reach(s0, s.(w := Refused(s.w, j)))
  {
    var w := s.w;
    assert s == s.(w := w) && w.replies + [] == w.replies;
    Serves(s0, s, w, true, 0, Into(w, j, Serving.Decode, 1, []));
    if decodes {
      Serves(s0, s, Into(w, j, Serving.Decode, 1, []), true, 0, Into(w, j, Serving.Unserialize, 1, []));
      Serves(s0, s, Into(w, j, Serving.Unserialize, 1, []), false, 0, Into(w, j, Serving.ErrMarshal(false), 1, []));
    } else {
      Serves(s0, s, Into(w, j, Serving.Decode, 1, []), false, 0, Into(w, j, Serving.ErrMarshal(false), 1, []));
    }
    ServesLastReply(s0, s, w, j);
  }

  lemma RefusalSteps(w: Wire, j: Job)
    ensures OneOperation(w, j, 1, Serving.ErrMarshal(false), [], true, 0, Serving.ErrHead(false), [])
    ensures OneOperation(w, j, 1, Serving.ErrHead(false), [], true, j.replyHead, Serving.ErrBody(false), Answer(j)[..1])
    ensures OneOperation(w, j, 1, Serving.ErrBody(false), Answer(j)[..1], true, j.replyBody, Serving.Stopped, Answer(j))
  {
    assert w.replies + [] + [Answer(j)[0]] == w.replies + Answer(j)[..1];
    assert w.replies + Answer(j)[..1] + [Answer(j)[1]] == w.replies + Answer(j);
  }

  lemma ServesLastReply(s0: State, s: State, w: Wire, j: Job)
    requires Reach(s0, s.(w := Into(w, j, Serving.ErrMarshal(false), 1, [])))
    ensures Reach(s0, s.(w := Refused(w, j)))
  {
    var head := Answer(j)[..1];
    RefusalSteps(w, j);
    ServesOn(s0, s, w, j, 1, Serving.ErrMarshal(false), [], true, 0, Serving.ErrHead(false), []);
    ServesOn(s0, s, w, j, 1, Serving.ErrHead(false), [], true, j.replyHead, Serving.ErrBody(false), head);
    ServesOn(s0, s, w, j, 1, Serving.ErrBody(false), head, true, j.replyBody, Serving.Stopped, Answer(j));
  }

  /** From the pop to the offer. */
  lemma IsRefused(e: Scene, w: Wire, ch: Chans, j: Job, decodes: bool) returns (w': Wire, ch': Chans)
    requires e.t != READER && Idling(w)
    ensures Reach(Shape(e, Popped, Next, FREE, w, ch),
                  Shape(e, Releasing(RelOffer, Some(Delivered(w, j))), Next, FREE.(lock := Some(e.t)), w', ch'))
    ensures w'.peer.pc == Serving.Stopped && w'.replies == w.replies + Answer(j) && w'.sent == w.sent + Request(j)
  {
    var s0, ask := Shape(e, Popped, Next, FREE, w, ch), Ask(j.req, Head, None);
    var w0, w1 := Requested(w, j), Refused(Requested(w, j), j);
    ReachSelf(s0);
    Takes(s0, e, w, ch);
    Writes(s0, e, w, ch, j);
    ServesRefusal(s0, Shape(e, ask, Next, TAKEN, w0, ch), j, decodes);
    assert Shape(e, ask, Next, TAKEN, w0, ch).(w := w1) == Shape(e, ask, Next, TAKEN, w1, ch);
    ch' := DeliversBoth(s0, e, w1, ch, j);
    Releases(s0, e, ReadOne(ReadOne(w1)), ch', Some(Delivered(w1, j)));
    w' := Ended(ReadOne(ReadOne(w1)), Some(Delivered(w1, j)));
  }

  lemma RefusedPath(s: State, t: Tid, j: Job, decodes: bool)
      returns (ready: State, popped: State, offering: State, s': State)
    requires Inv(s) && AtRest(s) && t != READER
    ensures Reach(s, ready) && Enabled(ready, Caller(t, Pop)) && Apply(ready, Caller(t, Pop)) == popped
    ensures Reach(popped, offering) && Enabled(offering, Locked(t, RelSend))
    ensures Reach(Apply(offering, Locked(t, RelSend)), s')
    ensures PcOf(s', t) == Gone && s'.c == Conn(Idle, None, false, 1) && s'.w.peer.pc == Serving.Stopped
    ensures s'.log == s.log + [Delivered(s.w, j)] && s'.w.replies == s.w.replies + Answer(j)
    ensures s'.w.sent == s.w.sent + Request(j)
  {
    RestIsIdling(s);
    ready := Settles(s);
    assert PcOf(s, t) == Gone;
    Pops(ready, t);
    var e := Scene(t, ready.threads, ready.log);
    popped := Shape(e, Popped, Next, FREE, s.w, s.ch);
    var w, ch := IsRefused(e, s.w, s.ch, j, decodes);
    var out := Some(Delivered(s.w, j));
    offering := Shape(e, Releasing(RelOffer, out), Next, FREE.(lock := Some(t)), w, ch);
    Offers(e, out, w, ch);
    s' := Returned(e, out, w, ch);
  }

  /**
   * A request that the serving loop cannot decode or unserialize is answered too, by the error reply. The caller
   * sees a success and queues the connection, although the serving loop is over.
   */
  lemma RefusalIsDelivered(run: seq<State>, t: Tid, j: Job, decodes: bool) returns (longer: seq<State>)
    requires IsRun(run) && AtRest(Last(run)) && t != READER
    ensures IsRun(longer) && run <= longer && Last(longer).w.peer.pc == Serving.Stopped
    ensures PcOf(Last(longer), t) == Gone && Last(longer).c == Conn(Idle, None, false, 1)
    ensures Last(longer).log == Last(run).log + [Delivered(Last(run).w, j)]
    ensures Last(longer).w.sent == Last(run).w.sent + Request(j)
    ensures Last(longer).w.replies == Last(run).w.replies + Answer(j)
  {
    RunInv(run, |run| - 1);
    var ready, popped, offering, s' := RefusedPath(Last(run), t, j, decodes);
    longer := FollowUse(run, t, ready, offering, s');
  }

  // ---- A response that breaks off ----

  /** The copy of the response body fails in the middle: the message is cut short and the serving loop ends. */
  function CutShort(w: Wire, j: Job): Wire {
    w.(peer := Serving.Peer(Serving.Stopped, w.peer.consumed + 2, w.peer.produced + 1, w.peer.served, true),
       job := Msg(j.req, Head, true, j.head), replies := w.replies + Broken(j))
  }

  function Broken(j: Job): seq<Msg> { [Answer(j)[0], Answer(j)[1].(whole := false)] }

  lemma ServesHalf(s0: State, s: State, j: Job)
    requires Reach(s0, s) && Waiting(s.w, j)
    ensures Reach(s0, s.(w := CutShort(s.w, j)))
  {
    var w, head := s.w, Answer(j)[..1];
    ServesRequest(s0, s, j);
    ServesHead(s0, s, w, j);
    var before := s.(w := Into(w, j, Serving.CopyBody, 2, head));
    assert w.replies + head + [Broken(j)[1]] == w.replies + Broken(j);
    To(s0, before, Serve(false, j.replyBody, true), s.(w := CutShort(w, j)));
  }

  const GONE := Conn(Closed, None, true, 0)

  /** A failed user closes the connection. */
  lemma ClosesFailed(s0: State, e: Scene, r: Pc, w: Wire, ch: Chans)
    requires e.t != READER && !ch.doubleClose && Reach(s0, Shape(e, FAILED, r, TAKEN, w, ch))
    ensures Reach(s0, Shape(e, Removing, r, GONE, w, ch))
  {
    var in0, in1 := TAKEN.(lock := Some(e.t)), TAKEN.(lock := Some(e.t), nrClosed := true);
    LockedTo(s0, e, FAILED, r, TAKEN, w, ch, ClsAcquire, Shape(e, Closing(ClsIn, true), r, in0, w, ch));
    LockedTo(s0, e, Closing(ClsIn, true), r, in0, w, ch, ClsShut, Shape(e, Closing(ClsMid, true), r, in1, w, ch));
    ClosesMarked(s0, e, r, in1, w, ch);
  }

  lemma ClosesMarked(s0: State, e: Scene, r: Pc, c: Conn, w: Wire, ch: Chans)
    requires e.t != READER && c == Conn(Busy, Some(e.t), true, 0)
    requires Reach(s0, Shape(e, Closing(ClsMid, true), r, c, w, ch))
    ensures Reach(s0, Shape(e, Removing, r, GONE, w, ch))
  {
    LockedTo(s0, e, Closing(ClsMid, true), r, c, w, ch, ClsMark,
             Shape(e, Closing(ClsOut, true), r, c.(status := Closed), w, ch));
    LockedTo(s0, e, Closing(ClsOut, true), r, c.(status := Closed), w, ch, ClsUnlock,
             Shape(e, Removing, r, GONE, w, ch));
  }

  /** The caller gets the half message and cannot read it to its end. */
  lemma FailsToRead(s0: State, e: Scene, m: Msg, w: Wire, ch: Chans, j: Job, head: Option<Msg>, c: Chan)
    requires e.t != READER && !ch.doubleClose && c !in ch.closed
    requires Reach(s0, Shape(e, Exchange.Reading(j.req, Body, c, m, head), Drain(c), TAKEN, w, ch))
    ensures Reach(s0, Shape(e, Removing, Drain(c), GONE, w, Shut(ch, c)))
  {
    CallerTo(s0, e, Exchange.Reading(j.req, Body, c, m, head), Drain(c), TAKEN, w, ch, Consume(false),
             Shape(e, FAILED, Drain(c), TAKEN, w, Shut(ch, c)));
    ClosesFailed(s0, e, Drain(c), w, Shut(ch, c));
  }

  /** No channel made so far has the next number. */
  ghost predicate Numbered(ch: Chans) {
    !ch.doubleClose && forall c :: c in ch.closed ==> c.serial < ch.next
  }

  /** The half message goes to the caller, who cannot read it. */
  lemma DeliversBroken(s0: State, e: Scene, w: Wire, ch: Chans, j: Job, head: Option<Msg>) returns (s': State)
    requires e.t != READER && w.read < |w.replies| && Numbered(ch)
    requires Reach(s0, Shape(e, Ask(j.req, Body, head), Next, TAKEN, w, ch))
    ensures Reach(s0, s') && PcOf(s', e.t) == Removing && s'.c == GONE && s'.log == e.log && s'.w == ReadOne(w)
  {
    var c, ch1 := Chan(e.t, ch.next), ch.(next := ch.next + 1);
    Passes(s0, e, w, ch, j.req, Body, head);
    FailsToRead(s0, e, w.replies[w.read], ReadOne(w), ch1, j, head, c);
    s' := Shape(e, Removing, Drain(c), GONE, ReadOne(w), Shut(ch1, c));
  }

  /** The header of the response arrives whole, its body does not. */
  lemma DeliversHalf(s0: State, e: Scene, w: Wire, ch: Chans, j: Job) returns (s': State)
    requires e.t != READER && w.read + 2 == |w.replies| && w.replies[w.read] == Answer(j)[0] && Numbered(ch)
    requires Reach(s0, Shape(e, Ask(j.req, Head, None), Next, TAKEN, w, ch))
    ensures Reach(s0, s') && PcOf(s', e.t) == Removing && s'.c == GONE && s'.log == e.log
    ensures s'.w == ReadOne(ReadOne(w))
  {
    var ch1 := DeliversHead(s0, e, w, ch, j);
    s' := DeliversBroken(s0, e, ReadOne(w), ch1, j, Some(Answer(j)[0]));
  }

  /**
   * From every reachable state at rest: when the response breaks off in its body, the ProxyRequest fails without
   * a delivery, although it had the whole header, and the connection is CLOSED and not queued again.
   */
  lemma BrokenResponseCloses(run: seq<State>, t: Tid, j: Job) returns (longer: seq<State>)
    requires IsRun(run) && AtRest(Last(run)) && t != READER
    ensures IsRun(longer) && run <= longer
    ensures PcOf(Last(longer), t) == Gone && Last(longer).c.status == Closed && Last(longer).c.tokens == 0
    ensures Last(longer).log == Last(run).log && Last(longer).w.replies == Last(run).w.replies + Broken(j)
  {
    RunInv(run, |run| - 1);
    var ready, popped, s' := BrokenPath(Last(run), t, j);
    longer := FollowPop(run, t, ready, s');
    Removes(s', t);
    longer := Extend(longer, Caller(t, RemoveDone));
  }

  lemma FollowPop(run: seq<State>, t: Tid, ready: State, s': State) returns (longer: seq<State>)
    requires IsRun(run) && Reach(Last(run), ready) && Enabled(ready, Caller(t, Pop))
    requires Reach(Apply(ready, Caller(t, Pop)), s')
    ensures IsRun(longer) && run <= longer && Last(longer) == s'
  {
    longer := Follow(run, ready);
    longer := Extend(longer, Caller(t, Pop));
    longer := Follow(longer, s');
  }

  lemma Removes(s: State, t: Tid)
    requires PcOf(s, t) == Removing
    ensures Enabled(s, Caller(t, RemoveDone))
    ensures var s' := Apply(s, Caller(t, RemoveDone));
            PcOf(s', t) == Gone && s'.c == s.c && s'.log == s.log && s'.w == s.w
  {
  }

  lemma BrokenPath(s: State, t: Tid, j: Job) returns (ready: State, popped: State, s': State)
    requires Inv(s) && AtRest(s) && t != READER
    ensures Reach(s, ready) && Enabled(ready, Caller(t, Pop)) && Apply(ready, Caller(t, Pop)) == popped
    ensures Reach(popped, s') && PcOf(s', t) == Removing
    ensures s'.c == GONE && s'.log == s.log && s'.w.replies == s.w.replies + Broken(j)
  {
    RestIsIdling(s);
    ready := Settles(s);
    assert PcOf(s, t) == Gone;
    Pops(ready, t);
    var e := Scene(t, ready.threads, ready.log);
    popped := Shape(e, Popped, Next, FREE, s.w, s.ch);
    s' := BreaksOff(e, s.w, s.ch, j);
  }

  lemma BreaksOff(e: Scene, w: Wire, ch: Chans, j: Job) returns (s': State)
    requires e.t != READER && Idling(w) && Numbered(ch)
    ensures Reach(Shape(e, Popped, Next, FREE, w, ch), s') && PcOf(s', e.t) == Removing
    ensures s'.c == GONE && s'.log == e.log && s'.w.replies == w.replies + Broken(j)
  {
    var s0, ask, w0 := Shape(e, Popped, Next, FREE, w, ch), Ask(j.req, Head, None), Requested(w, j);
    ReachSelf(s0);
    Takes(s0, e, w, ch);
    Writes(s0, e, w, ch, j);
    ServesHalf(s0, Shape(e, ask, Next, TAKEN, w0, ch), j);
    assert Shape(e, ask, Next, TAKEN, w0, ch).(w := CutShort(w0, j)) == Shape(e, ask, Next, TAKEN, CutShort(w0, j), ch);
    s' := DeliversHalf(s0, e, CutShort(w0, j), ch, j);
  }

  // ---- A close ----

  /** Some thread is free. */
  lemma NewTid(s: State) returns (t: Tid)
    ensures t != READER && PcOf(s, t) == Gone
  {
    t := Above(s.threads.Keys + {READER});
  }

  /** A free thread enters Close, when nobody is inside the lock. */
  lemma Enters(s: State, t: Tid) returns (m: State)
    requires s.c.lock == None && t != READER && PcOf(s, t) == Gone
    ensures Reach(s, m) && m == GoConn(s, t, Closing(ClsIn, false), s.c.(lock := Some(t)))
  {
    var m0 := Go(s, t, Closing(ClsWant, false));
    m := GoConn(s, t, Closing(ClsIn, false), s.c.(lock := Some(t)));
    assert m0.threads[t := Closing(ClsIn, false)] == m.threads;
    ReachSelf(s);
    To(s, s, Caller(t, SpawnCloser), m0);
    To(s, m0, Locked(t, ClsAcquire), m);
  }

  /** And leaves it, having closed the connection or found it closed. */
  lemma Shuts(s0: State, m: State, t: Tid) returns (s': State)
    requires Reach(s0, m) && t != READER && PcOf(m, t) == Closing(ClsIn, false)
    ensures Reach(s0, s') && PcOf(s', t) == Removing && s'.c.status == Closed && s'.c.lock == None
  {
    ReachStep(s0, m, Locked(t, ClsShut));
    var m1 := Apply(m, Locked(t, ClsShut));
    if m.c.status != Closed {
      ReachStep(s0, m1, Locked(t, ClsMark));
      m1 := Apply(m1, Locked(t, ClsMark));
    }
    ReachStep(s0, m1, Locked(t, ClsUnlock));
    s' := Apply(m1, Locked(t, ClsUnlock));
  }

  /** Any free thread can close the connection, or find it closed, when nobody is inside its lock. */
  lemma Closes(s: State, t: Tid) returns (s': State)
    requires s.c.lock == None && t != READER && PcOf(s, t) == Gone
    ensures Reach(s, s') && PcOf(s', t) == Removing && s'.c.status == Closed && s'.c.lock == None
  {
    var m := Enters(s, t);
    s' := Shuts(s, m, t);
  }

  /** Clean, inside the lock of a connection, may leave it as it is. */
  lemma CleanMayLeave(run: seq<State>, t: Tid) returns (longer: seq<State>)
    requires IsRun(run) && t != READER && PcOf(Last(run), t) == Closing(ClsIn, false)
    ensures IsRun(longer) && run <= longer && PcOf(Last(longer), t) == Gone
    ensures Last(longer).c == Last(run).c.(lock := None) && Last(longer).log == Last(run).log
    ensures forall u: Tid :: u != t ==> PcOf(Last(longer), u) == PcOf(Last(run), u)
  {
    longer := Extend(run, Locked(t, ClsSkip));
  }

  /** Or close it, and then remove it before the lock is released. */
  lemma ClosesInside(s: State, t: Tid) returns (m: State)
    requires s.c.lock == None && s.c.status != Closed && t != READER && PcOf(s, t) == Gone
    ensures Reach(s, m) && m.c == Conn(Closed, Some(t), true, s.c.tokens) && m.log == s.log
    ensures Enabled(m, Locked(t, RemoveLocked)) && Apply(m, Locked(t, RemoveLocked)) == m
  {
    var m0 := Enters(s, t);
    ReachStep(s, m0, Locked(t, ClsShut));
    var m1 := Apply(m0, Locked(t, ClsShut));
    ReachStep(s, m1, Locked(t, ClsMark));
    m := Apply(m1, Locked(t, ClsMark));
  }

  lemma LeavesLock(m: State, t: Tid) returns (s': State)
    requires PcOf(m, t) == Closing(ClsOut, false) && t != READER
    ensures Reach(m, s') && PcOf(s', t) == Removing && s'.c == m.c.(lock := None)
  {
    ReachSelf(m);
    ReachStep(m, m, Locked(t, ClsUnlock));
    s' := Apply(m, Locked(t, ClsUnlock));
  }
}
