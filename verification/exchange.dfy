/**
 * The exchange protocol on one websocket, common/writeConnection.go, as a step system.
 *
 * Thread 0 is the reader loop `Start`. Every other thread is either a caller of
 * GetIdleWriteConnection that goes on to ProxyRequest or SendPingMessage, or a closer (Clean, Shutdown).
 * The far end of the websocket runs the loop of module Serving. There is a step for every channel
 * send, receive and close and for every acquisition and release of the connection lock; a blocked
 * operation is a step that is not enabled. Any number of threads may be under way.
 *
 * Every websocket operation may fail at any time, and may leave a truncated message behind.
 */
module Exchange {
  import opened Types
  import Serving

  type Tid = nat

  const READER: Tid := 0

  datatype Part = Head | Body

  /**
   * A websocket data message. `req` is a ghost request id: requests carry the id of their caller, and
   * the serving loop copies the id of the request it decoded into the response it computes.
   */
  datatype Msg = Msg(req: int, part: Part, whole: bool, data: int)

  /** A response channel, made by `owner`. */
  datatype Chan = Chan(owner: Tid, serial: nat)

  /** What a ProxyRequest that returns success delivered; slot counts the exchanges of the websocket. */
  datatype Delivery = Delivery(slot: nat, req: int, head: Msg, body: Msg)

  /** Release: before Lock, lock held, status set and about to offer, lock held with nothing left to do. */
  datatype Rel = RelWant | RelIn | RelOffer | RelOut

  /** Close: before Lock, lock held, nextResponse closed, status set. */
  datatype Cls = ClsWant | ClsIn | ClsMid | ClsOut

  datatype Pc =
    | Gone
    | Releasing(rel: Rel, out: Option<Delivery>)
    | Closing(cls: Cls, user: bool)                 // user: a holder that failed, not an outside closer
    // The reader loop
    | Fresh                                         // Start not running yet
    | Top                                           // test of Status at the loop head
    | Next                                          // ws.NextReader
    | Got(m: Msg)                                   // test of Status after a message
    | Recv(m: Msg)                                  // c := <-nextResponse
    | Give(ch: Chan, m: Msg)                        // c <- reader
    | Drain(ch: Chan)                               // <-c
    | Detach                                        // pool.Remove
    | Done
    // GetIdleWriteConnection
    | Popped                                        // taken off the idle queue
    | Chosen                                        // read Status == IDLE
    | TakeIn                                        // in Take, lock held
    // ProxyRequest or SendPingMessage
    | Held
    | HeadSent(req: int)
    | Ask(req: int, part: Part, head: Option<Msg>)  // nextResponse <- responseChannel
    | Await(req: int, part: Part, ch: Chan, head: Option<Msg>)
    | Reading(req: int, part: Part, ch: Chan, m: Msg, head: Option<Msg>)
    | Decoding(req: int, m: Msg)                    // header read and its channel closed
    | Removing                                      // closed, pool.Remove to come

  /** The fields of the WriteConnection, its lock, and its entries in the idle queue of the pool. */
  datatype Conn = Conn(status: Status, lock: Option<Tid>, nrClosed: bool, tokens: nat)

  /** The websocket, with the history of both message streams. */
  datatype Wire = Wire(
    reqs: seq<int>,          // the requests started on this websocket, in order
    sent: seq<Msg>,          // every message ever written towards the serving loop
    replies: seq<Msg>,       // every message it ever wrote back
    read: nat,               // how many replies NextReader has returned
    delivered: nat,          // how many of those were handed to a caller
    fin: nat,                // exchanges ended by a Release
    peer: Serving.Peer,
    job: Msg)                // the request header the serving loop decoded last

  /** Response channels; the flags record what must never happen. */
  datatype Chans = Chans(
    next: nat,
    closed: set<Chan>,
    doubleClose: bool,       // some channel was closed twice
    nilReader: bool)         // some ProxyRequest received no reader

  datatype State = State(
    c: Conn,
    threads: map<Tid, Pc>,   // a thread that is not there is Gone
    w: Wire,
    ch: Chans,
    log: seq<Delivery>)      // the successful ProxyRequest calls

  const NO_MSG := Msg(0, Head, false, 0)

  function Init(status: Status): State {
    State(Conn(status, None, false, 0), map[READER := Fresh],
          Wire([], [], [], 0, 0, 0, Serving.INIT, NO_MSG), Chans(0, {}, false, false), [])
  }

  /** A connection on which nothing has been sent, with its reader thread and no other. */
  function Alone(c: Conn, pc: Pc): State {
    Init(Idle).(c := c, threads := map[READER := pc])
  }

  function PcOf(s: State, t: Tid): Pc {
    if t in s.threads then s.threads[t] else Gone
  }

  function Go(s: State, t: Tid, pc: Pc): State {
    s.(threads := s.threads[t := pc])
  }

  function GoConn(s: State, t: Tid, pc: Pc, c: Conn): State {
    s.(threads := s.threads[t := pc], c := c)
  }

  function GoWire(s: State, t: Tid, pc: Pc, w: Wire): State {
    s.(threads := s.threads[t := pc], w := w)
  }

  /** Steps of the reader loop. */
  datatype ReaderOp =
    | Start                      // Start is called: Release comes first
    | CheckTop
    | Receive(ok: bool)
    | CheckBusy
    | NilChannel                 // nextResponse is closed
    | GivePanic                  // send on a closed response channel, recovered by Start
    | Woken                      // the response channel was closed by the caller
    | DetachReader

  /** Steps of Take, Release and Close, which the threads share. */
  datatype LockOp =
    | TakeAcquire
    | TakeDecide
    | RelAcquire
    | RelSet
    | RelSend                    // pool.idle <- connection
    | RelUnlock
    | ClsAcquire
    | ClsShut
    | ClsSkip                    // Clean looked and left the connection alone
    | ClsMark
    | ClsUnlock
    | RemoveLocked               // Clean: RemoveWithoutLock before the connection lock is released

  /** Steps of a thread between those. */
  datatype CallerOp =
    | SpawnCloser
    | Pop
    | Look
    | WriteHead(req: int, data: int, ok: bool, frag: bool)
    | WriteBody(data: int, ok: bool, frag: bool)
    | Abort                      // send on the closed nextResponse: the calling goroutine panics
    | NilReader                  // receive from a closed response channel
    | Consume(ok: bool)          // read the message, close the response channel
    | Unmarshal(ok: bool)
    | Ping                       // SendPingMessage is over, whatever its outcome
    | RemoveDone                 // pool.Remove after Close

  datatype Step =
    | Reader(r: ReaderOp)
    | Locked(t: Tid, l: LockOp)
    | Caller(t: Tid, c: CallerOp)
    | Meet(t: Tid)               // rendezvous on nextResponse
    | Hand(t: Tid)               // rendezvous on the response channel
    | Serve(ok: bool, data: int, frag: bool)

  // The steps that change the idle queue or the list of the pool.

  ghost predicate IsOffer(step: Step) { step.Locked? && step.l == RelSend }

  ghost predicate IsPop(step: Step) { step.Caller? && step.c == Pop }

  /** The steps in which a thread calls Remove or RemoveWithoutLock. */
  ghost predicate IsRemove(step: Step) {
    || step == Reader(DetachReader)
    || (step.Locked? && step.l == RemoveLocked)
    || (step.Caller? && step.c == RemoveDone)
  }

  predicate ReaderEnabled(s: State, r: ReaderOp) {
    var pc := PcOf(s, READER);
    match r
    case Start => pc == Fresh
    case CheckTop => pc == Top
    case Receive(ok) => pc == Next && (ok ==> s.w.read < |s.w.replies|)
    case CheckBusy => pc.Got?
    case NilChannel => pc.Recv? && s.c.nrClosed
    case GivePanic => pc.Give? && pc.ch in s.ch.closed
    case Woken => pc.Drain? && pc.ch in s.ch.closed
    case DetachReader => pc == Detach
  }

  predicate LockedEnabled(s: State, t: Tid, l: LockOp) {
    var pc := PcOf(s, t);
    match l
    case TakeAcquire => pc == Chosen && s.c.lock == None
    case TakeDecide => pc == TakeIn
    case RelAcquire => pc.Releasing? && pc.rel == RelWant && s.c.lock == None
    case RelSet => pc.Releasing? && pc.rel == RelIn
    case RelSend => pc.Releasing? && pc.rel == RelOffer
    case RelUnlock => pc.Releasing? && pc.rel == RelOut
    case ClsAcquire => pc.Closing? && pc.cls == ClsWant && s.c.lock == None
    case ClsShut => pc.Closing? && pc.cls == ClsIn
    case ClsSkip => pc == Closing(ClsIn, false) && t != READER
    case ClsMark => pc.Closing? && pc.cls == ClsMid
    case ClsUnlock => pc.Closing? && pc.cls == ClsOut
    case RemoveLocked => pc == Closing(ClsOut, false) && t != READER
  }

  predicate CallerEnabled(s: State, t: Tid, c: CallerOp) {
    var pc := PcOf(s, t);
    match c
    case SpawnCloser => t != READER && pc == Gone
    case Pop => t != READER && pc == Gone && s.c.tokens > 0
    case Look => pc == Popped
    case WriteHead(_, _, _, _) => pc == Held
    case WriteBody(_, _, _) => pc.HeadSent?
    case Abort => pc.Ask? && s.c.nrClosed
    case NilReader => pc.Await? && pc.ch in s.ch.closed
    case Consume(ok) => pc.Reading? && (ok ==> pc.m.whole)
    case Unmarshal(_) => pc.Decoding?
    case Ping => pc == Held
    case RemoveDone => pc == Removing
  }

  /** Reading a request needs a whole message, reading its body only the beginning of one. */
  predicate ServeEnabled(w: Wire, ok: bool) {
    && w.peer.pc != Serving.Stopped
    && (w.peer.pc == Serving.AwaitRequest && ok ==> w.peer.consumed < |w.sent| && w.sent[w.peer.consumed].whole)
    && (w.peer.pc == Serving.AwaitBody && ok ==> w.peer.consumed < |w.sent|)
  }

  predicate Enabled(s: State, step: Step) {
    match step
    case Reader(r) => ReaderEnabled(s, r)
    case Locked(t, l) => LockedEnabled(s, t, l)
    case Caller(t, c) => CallerEnabled(s, t, c)
    case Meet(t) => PcOf(s, t).Ask? && PcOf(s, READER).Recv? && !s.c.nrClosed
    case Hand(t) => PcOf(s, t).Await? && PcOf(s, READER).Give? && PcOf(s, READER).ch == PcOf(s, t).ch
    case Serve(ok, _, _) => ServeEnabled(s.w, ok)
  }

  /** What a write leaves in the stream. */
  function Written(m: Msg, ok: bool, frag: bool): seq<Msg> {
    if ok then [m] else if frag then [m.(whole := false)] else []
  }

  /** What one operation of the serving loop appends to the replies. */
  function Reply(pc: Serving.PeerPc, req: int, data: int, ok: bool, frag: bool): seq<Msg> {
    match pc
    case WriteHead | ErrHead(_) => Written(Msg(req, Head, true, data), ok, frag)
    case CloseBody | ErrBody(_) => Written(Msg(req, Body, true, data), ok, frag)
    case CopyBody => if ok then [] else Written(Msg(req, Body, true, data), false, frag)
    case _ => []
  }

  const FAILED := Closing(ClsWant, true)

  function ReaderApply(s: State, r: ReaderOp): State
    requires ReaderEnabled(s, r)
  {
    match r
    case Start => Go(s, READER, Releasing(RelWant, None))
    case CheckTop => Go(s, READER, if s.c.status == Closed then Detach else Next)
    case Receive(ok) =>
      if ok then GoWire(s, READER, Got(s.w.replies[s.w.read]), s.w.(read := s.w.read + 1)) else Go(s, READER, Detach)
    case CheckBusy => Go(s, READER, if s.c.status != Busy then Detach else Recv(PcOf(s, READER).m))
    case NilChannel => Go(s, READER, Detach)
    case GivePanic => Go(s, READER, Detach)
    case Woken => Go(s, READER, Top)
    case DetachReader => Go(s, READER, Closing(ClsWant, false))
  }

  function LockedApply(s: State, t: Tid, l: LockOp): State
    requires LockedEnabled(s, t, l)
  {
    var pc := PcOf(s, t);
    match l
    case TakeAcquire => GoConn(s, t, TakeIn, s.c.(lock := Some(t)))
    case TakeDecide =>
      var (status, ok) := TakeResult(s.c.status);
      GoConn(s, t, if ok then Held else Gone, s.c.(status := status, lock := None))
    case RelAcquire => GoConn(s, t, Releasing(RelIn, pc.out), s.c.(lock := Some(t)))
    case RelSet =>
      if s.c.status == Closed then Go(s, t, Releasing(RelOut, pc.out))
      else GoConn(s, t, Releasing(RelOffer, pc.out), s.c.(status := Idle))
           .(w := if pc.out.Some? then s.w.(fin := s.w.fin + 1) else s.w)
    case RelSend => GoConn(s, t, Releasing(RelOut, pc.out), s.c.(tokens := s.c.tokens + 1))
    case RelUnlock =>
      GoConn(s, t, if t == READER then Top else Gone, s.c.(lock := None))
      .(log := if pc.out.Some? then s.log + [pc.out.value] else s.log)
    case ClsAcquire => GoConn(s, t, Closing(ClsIn, pc.user), s.c.(lock := Some(t)))
    case ClsShut =>
      if s.c.status == Closed then Go(s, t, Closing(ClsOut, pc.user))
      else GoConn(s, t, Closing(ClsMid, pc.user), s.c.(nrClosed := true))
           .(ch := s.ch.(doubleClose := s.ch.doubleClose || s.c.nrClosed))
    case ClsSkip => GoConn(s, t, Gone, s.c.(lock := None))
    case ClsMark => GoConn(s, t, Closing(ClsOut, pc.user), s.c.(status := Closed))
    case ClsUnlock => GoConn(s, t, if t == READER then Done else Removing, s.c.(lock := None))
    case RemoveLocked => s
  }

  function CallerApply(s: State, t: Tid, c: CallerOp): State
    requires CallerEnabled(s, t, c)
  {
    var pc := PcOf(s, t);
    match c
    case SpawnCloser => Go(s, t, Closing(ClsWant, false))
    case Pop => GoConn(s, t, Popped, s.c.(tokens := s.c.tokens - 1))
    case Look => Go(s, t, if s.c.status == Idle then Chosen else Gone)
    case WriteHead(req, data, ok, frag) =>
      GoWire(s, t, if ok then HeadSent(req) else FAILED,
             s.w.(reqs := s.w.reqs + [req], sent := s.w.sent + Written(Msg(req, Head, true, data), ok, frag)))
    case WriteBody(data, ok, frag) =>
      GoWire(s, t, if ok then Ask(pc.req, Head, None) else FAILED,
             s.w.(sent := s.w.sent + Written(Msg(pc.req, Body, true, data), ok, frag)))
    case Abort => Go(s, t, Gone)
    case NilReader => Go(s, t, FAILED).(ch := s.ch.(nilReader := true))
    case Consume(ok) =>
      Go(s, t,
         if !ok then FAILED
         else if pc.part == Head then Decoding(pc.req, pc.m)
         else Releasing(RelWant, Some(Delivery(s.w.fin, pc.req,
                                               if pc.head.Some? then pc.head.value else NO_MSG, pc.m))))
      .(ch := s.ch.(closed := s.ch.closed + {pc.ch}, doubleClose := s.ch.doubleClose || pc.ch in s.ch.closed))
    case Unmarshal(ok) => Go(s, t, if ok then Ask(pc.req, Body, Some(pc.m)) else FAILED)
    case Ping => Go(s, t, Releasing(RelWant, None))
    case RemoveDone => Go(s, t, Gone)
  }

  function ServeWire(w: Wire, ok: bool, data: int, frag: bool): Wire
    requires ServeEnabled(w, ok)
  {
    w.(peer := Serving.Next(w.peer, ok),
       job := if w.peer.pc == Serving.AwaitRequest && ok then w.sent[w.peer.consumed] else w.job,
       replies := w.replies + Reply(w.peer.pc, w.job.req, data, ok, frag))
  }

  function Apply(s: State, step: Step): State
    requires Enabled(s, step)
  {
    match step
    case Reader(r) => ReaderApply(s, r)
    case Locked(t, l) => LockedApply(s, t, l)
    case Caller(t, c) => CallerApply(s, t, c)
    case Meet(t) =>
      var pc := PcOf(s, t);
      var ch := Chan(t, s.ch.next);
      Go(Go(s, t, Await(pc.req, pc.part, ch, pc.head)), READER, Give(ch, PcOf(s, READER).m))
      .(ch := s.ch.(next := s.ch.next + 1))
    case Hand(t) =>
      var pc := PcOf(s, t);
      Go(Go(s, t, Reading(pc.req, pc.part, pc.ch, PcOf(s, READER).m, pc.head)), READER, Drain(pc.ch))
      .(w := s.w.(delivered := s.w.delivered + 1))
    case Serve(ok, data, frag) =>
      s.(w := ServeWire(s.w, ok, data, frag))
  }

  ghost predicate Moves(s: State, s': State) {
    exists step :: Enabled(s, step) && s' == Apply(s, step)
  }

  ghost predicate MovesAt(run: seq<State>, i: int)
    requires 0 <= i < |run| - 1
  {
    Moves(run[i], run[i + 1])
  }

  /** A run: a server connection is created IDLE, a client connection CONNECTING. */
  ghost predicate IsRun(run: seq<State>) {
    && |run| > 0
    && (run[0] == Init(Idle) || run[0] == Init(Connecting))
    && forall i :: 0 <= i < |run| - 1 ==> MovesAt(run, i)
  }
}
