/** The inductive invariant of the exchange protocol, in six parts, and its preservation by every step. */
module ExchangeInvariant {
  import opened Types
  import opened Exchange
  import Serving

  datatype Side = ReaderOnly | CallerOnly | Either

  ghost function SideOf(pc: Pc): Side {
    match pc
    case Fresh | Top | Next | Got(_) | Recv(_) | Give(_, _) | Drain(_) | Detach | Done => ReaderOnly
    case Releasing(_, out) => if out.Some? then CallerOnly else Either
    case Closing(_, user) => if user then CallerOnly else Either
    case _ => CallerOnly
  }

  ghost predicate InLock(pc: Pc) {
    match pc
    case TakeIn => true
    case Releasing(rel, _) => rel != RelWant
    case Closing(cls, _) => cls != ClsWant
    case _ => false
  }

  /**
   * The threads that hold the connection's token: a dequeuer between the pop and Take, a user between
   * Take and its Release or Close, and the reader until its first offer.
   */
  ghost predicate Holds(pc: Pc) {
    match pc
    case Releasing(rel, _) => rel != RelOut
    case Closing(cls, user) => user && cls != ClsOut
    case Gone | Top | Next | Got(_) | Recv(_) | Give(_, _) | Drain(_) | Detach | Done | Removing => false
    case _ => true
  }

  ghost predicate LockAt(s: State, t: Tid) {
    && SideOf(PcOf(s, t)) != (if t == READER then CallerOnly else ReaderOnly)
    && (InLock(PcOf(s, t)) <==> s.c.lock == Some(t))
  }

  /** Part 1: which threads run what, and who is inside the connection lock. */
  ghost predicate LockInv(s: State) {
    forall t: Tid :: LockAt(s, t)
  }

  ghost predicate TokenAt(s: State, t: Tid, u: Tid) {
    && (Holds(PcOf(s, t)) && Holds(PcOf(s, u)) ==> t == u)
    && (Holds(PcOf(s, t)) ==> s.c.tokens == 0)
  }

  /** Part 2: one token, in the queue or in one thread's hands, and none lost before the close. */
  ghost predicate TokenInv(s: State) {
    && s.c.tokens <= 1
    && (forall t: Tid, u: Tid :: TokenAt(s, t, u))
    && (!s.c.nrClosed && s.c.tokens == 0 ==> exists t: Tid :: Holds(PcOf(s, t)))
  }

  /** What Status may be, seen from a thread. */
  ghost predicate StatusFits(s: State, pc: Pc) {
    match pc
    case Popped | Chosen | TakeIn => s.c.status == Idle || s.c.status == Closed
    case Held | HeadSent(_) | Ask(_, _, _) | Await(_, _, _, _) | Reading(_, _, _, _, _) | Decoding(_, _) =>
      s.c.status == Busy || s.c.status == Closed
    case Releasing(rel, out) =>
      if rel == RelOffer then s.c.status == Idle && !s.c.nrClosed
      else rel != RelOut && out.Some? ==> s.c.status == Busy || s.c.status == Closed
    case Closing(cls, user) =>
      && (cls == ClsMid ==> s.c.nrClosed && s.c.status != Closed)
      && (cls == ClsOut ==> s.c.status == Closed)
      && (user && cls != ClsOut ==> s.c.status == Busy || s.c.status == Closed)
    case Removing | Done => s.c.status == Closed
    case _ => true
  }

  ghost predicate CloseGlobal(s: State) {
    && (s.c.status == Closed ==> s.c.nrClosed)
    && (s.c.nrClosed && s.c.status != Closed ==>
          s.c.lock.Some? && PcOf(s, s.c.lock.value).Closing? && PcOf(s, s.c.lock.value).cls == ClsMid)
    && (s.c.tokens > 0 ==> s.c.status == Idle || s.c.status == Closed)
  }

  ghost predicate StatusAt(s: State, t: Tid) {
    StatusFits(s, PcOf(s, t))
  }

  /** Part 3: closing. Outside the lock nextResponse is closed exactly when the status is CLOSED. */
  ghost predicate CloseInv(s: State) {
    CloseGlobal(s) && forall t: Tid :: StatusAt(s, t)
  }

  /** What the caller's side of the handoff knows about the reader. */
  ghost predicate HandoffAt(s: State, t: Tid) {
    var r := PcOf(s, READER);
    match PcOf(s, t)
    case Await(_, _, ch, _) =>
      ch.owner == t && ch.serial < s.ch.next && ch !in s.ch.closed && r.Give? && r.ch == ch
    case Reading(_, _, ch, _, _) =>
      ch.owner == t && ch.serial < s.ch.next && ch !in s.ch.closed && r.Drain? && r.ch == ch
    case _ => true
  }

  /** What the reader's side of the handoff knows about the caller. */
  ghost predicate HandoffReader(s: State) {
    && (match PcOf(s, READER)
        case Give(ch, _) => PcOf(s, ch.owner).Await? && PcOf(s, ch.owner).ch == ch
        case Drain(ch) => ch in s.ch.closed || (PcOf(s, ch.owner).Reading? && PcOf(s, ch.owner).ch == ch)
        case _ => true)
    && (forall ch :: ch in s.ch.closed ==> ch.serial < s.ch.next)
    && !s.ch.nilReader && !s.ch.doubleClose
  }

  /** Part 4: the two-level channel handoff between the reader and a caller. */
  ghost predicate HandoffInv(s: State) {
    HandoffReader(s) && forall t: Tid :: HandoffAt(s, t)
  }

  /** Message number i of a stream belongs to exchange i / 2 and is its header or its body. */
  ghost predicate Tagged(m: Msg, i: nat, reqs: seq<int>) {
    && i / 2 < |reqs|
    && m.req == reqs[i / 2]
    && m.part == if i % 2 == 0 then Head else Body
  }

  /** Between exchanges: everything sent, delivered and started belongs to a finished exchange. */
  ghost predicate Quiet(w: Wire) {
    |w.reqs| == w.fin && |w.sent| == 2 * w.fin && w.delivered == 2 * w.fin
  }

  /** In exchange number `fin`, for `req`, with so many of its messages written and delivered. */
  ghost predicate Active(w: Wire, req: int, out: nat, got: nat) {
    && |w.reqs| == w.fin + 1 && w.reqs[w.fin] == req
    && |w.sent| == 2 * w.fin + out
    && w.delivered == 2 * w.fin + got
  }

  ghost predicate HeadOk(w: Wire, part: Part, head: Option<Msg>) {
    if part == Head then head == None
    else 2 * w.fin < |w.replies| && head == Some(w.replies[2 * w.fin]) && head.value.whole
  }

  ghost predicate DeliveryOk(w: Wire, d: Delivery) {
    && d.slot < |w.reqs| && w.reqs[d.slot] == d.req
    && 2 * d.slot + 1 < |w.replies|
    && d.head == w.replies[2 * d.slot] && d.head.whole
    && d.body == w.replies[2 * d.slot + 1] && d.body.whole
  }

  function Before(part: Part): nat { if part == Head then 0 else 1 }

  ghost predicate UserCounts(w: Wire, pc: Pc) {
    match pc
    case Fresh | Popped | Chosen | TakeIn | Held => Quiet(w)
    case HeadSent(req) => Active(w, req, 1, 0)
    case Ask(req, part, head) => Active(w, req, 2, Before(part)) && HeadOk(w, part, head)
    case Await(req, part, _, head) => Active(w, req, 2, Before(part)) && HeadOk(w, part, head)
    case Reading(req, part, _, m, head) =>
      && Active(w, req, 2, Before(part) + 1) && HeadOk(w, part, head)
      && w.delivered <= |w.replies| && m == w.replies[w.delivered - 1]
    case Decoding(req, m) => Active(w, req, 2, 1) && HeadOk(w, Body, Some(m))
    case Releasing(rel, out) =>
      && (out.Some? && (rel == RelWant || rel == RelIn) ==>
            Active(w, out.value.req, 2, 2) && out.value.slot == w.fin)
      && (out == None && rel != RelOut ==> Quiet(w))
      && (rel == RelOffer ==> Quiet(w))
      && (out.Some? ==> DeliveryOk(w, out.value))
    case _ => true
  }

  ghost predicate Undelivered(w: Wire, m: Msg) {
    w.read == w.delivered + 1 <= |w.replies| && m == w.replies[w.delivered]
  }

  ghost predicate ReaderCounts(w: Wire, pc: Pc) {
    match pc
    case Fresh | Releasing(_, _) | Top | Next | Drain(_) => w.read == w.delivered
    case Got(m) => Undelivered(w, m)
    case Recv(m) => Undelivered(w, m)
    case Give(_, m) => Undelivered(w, m)
    case _ => true
  }

  ghost predicate WireInv(w: Wire) {
    && 2 * w.fin <= w.delivered <= w.read <= |w.replies|
    && |w.reqs| <= w.fin + 1
    && |w.sent| <= 2 * |w.reqs|
    && w.peer.consumed <= |w.sent|
    && (forall i :: 0 <= i < |w.sent| ==> Tagged(w.sent[i], i, w.reqs))
    && (forall i :: 0 <= i < |w.replies| ==> Tagged(w.replies[i], i, w.reqs))
    && (forall i :: 0 <= i < 2 * w.fin ==> w.replies[i].whole)
  }

  ghost predicate CountAt(s: State, t: Tid) {
    UserCounts(s.w, PcOf(s, t))
  }

  /** Part 5: alignment of the two message streams with the exchanges. */
  ghost predicate CountInv(s: State) {
    && WireInv(s.w)
    && (s.c.tokens > 0 ==> Quiet(s.w))
    && (forall i :: 0 <= i < |s.log| ==> DeliveryOk(s.w, s.log[i]))
    && ReaderCounts(s.w, PcOf(s, READER))
    && (forall t: Tid :: CountAt(s, t))
  }

  /** The serving loop is working on exchange `served`, whose header it has decoded. */
  ghost predicate OnJob(w: Wire, consumed: nat, replied: nat) {
    var p := w.peer;
    && !p.failed
    && p.consumed == 2 * p.served + consumed
    && |w.replies| == 2 * p.served + replied
    && p.served < |w.reqs| && w.job.req == w.reqs[p.served]
  }

  ghost predicate PeerAt(w: Wire) {
    var p := w.peer;
    match p.pc
    case AwaitRequest =>
         if p.failed then
           && p.consumed > 0
           && p.consumed - 1 <= |w.replies| <= p.consumed
           && (|w.replies| == p.consumed ==> !w.replies[p.consumed - 1].whole)
         else |w.replies| == p.consumed
    case Decode | Unserialize | AwaitBody => OnJob(w, 1, 0)
    case Execute | Serialize | WriteHead | ErrMarshal(true) | ErrHead(true) => OnJob(w, 2, 0)
    case OpenBody | CopyBody | CloseBody | ErrBody(true) => OnJob(w, 2, 1)
    case ErrMarshal(false) | ErrHead(false) => OnJob(w, 1, 0)
    case ErrBody(false) => OnJob(w, 1, 1)
    case Stopped => true
  }

  /** Part 6: where the serving loop stands in the streams; it replies only to what it consumed. */
  /** The replies keep within the pairs of messages that the loop has taken. */
  ghost predicate Bounded(w: Wire) {
    |w.replies| <= w.peer.consumed + w.peer.consumed % 2
  }

  ghost predicate PeerInv(w: Wire) {
    && Serving.Balanced(w.peer)
    && PeerAt(w)
    && Bounded(w)
  }

  ghost predicate Inv(s: State) {
    LockInv(s) && TokenInv(s) && CloseInv(s) && HandoffInv(s) && CountInv(s) && PeerInv(s.w)
  }

  lemma InitInv(status: Status)
    requires status == Idle || status == Connecting
    ensures Inv(Init(status))
  {
    var s := Init(status);
    assert Holds(PcOf(s, READER));
  }

  // ---- Part 1 ----

  /** Steps leave the threads that do not take part where they are. */
  lemma OthersStay(s: State, step: Step, t: Tid)
    requires Enabled(s, step)
    requires match step
             case Reader(_) => t != READER
             case Locked(u, _) => t != u
             case Caller(u, _) => t != u
             case Meet(u) => t != u && t != READER
             case Hand(u) => t != u && t != READER
             case Serve(_, _, _) => true
    ensures PcOf(Apply(s, step), t) == PcOf(s, t)
  {
  }

  lemma LockReader(s: State, r: ReaderOp, t: Tid)
    requires LockAt(s, t) && LockAt(s, READER) && ReaderEnabled(s, r)
    ensures LockAt(ReaderApply(s, r), t)
  {
  }

  lemma LockLocked(s: State, u: Tid, l: LockOp, t: Tid)
    requires LockAt(s, t) && LockAt(s, u) && LockedEnabled(s, u, l)
    ensures LockAt(LockedApply(s, u, l), t)
  {
  }

  lemma LockCaller(s: State, u: Tid, c: CallerOp, t: Tid)
    requires LockAt(s, t) && LockAt(s, u) && CallerEnabled(s, u, c)
    ensures LockAt(CallerApply(s, u, c), t)
  {
  }

  lemma LockPair(s: State, step: Step, t: Tid)
    requires step.Meet? || step.Hand?
    requires LockAt(s, t) && LockAt(s, step.t) && LockAt(s, READER) && Enabled(s, step)
    ensures LockAt(Apply(s, step), t)
  {
  }

  lemma LockStep(s: State, step: Step)
    requires LockInv(s) && Enabled(s, step)
    ensures LockInv(Apply(s, step))
  {
    forall t: Tid ensures LockAt(Apply(s, step), t) {
      assert LockAt(s, t) && LockAt(s, READER);
      match step
      case Reader(r) => LockReader(s, r, t);
      case Locked(u, l) => LockLocked(s, u, l, t);
      case Caller(u, c) => LockCaller(s, u, c, t);
      case Meet(u) => LockPair(s, step, t);
      case Hand(u) => LockPair(s, step, t);
      case Serve(_, _, _) =>
    }
  }

  // ---- Part 2 ----

  /**
   * How one step moves the token, seen at thread t: only Pop gives it to a thread, and a thread lets go
   * of it only by offering it or when nextResponse is closed.
   */
  ghost predicate TokenFlows(s: State, step: Step, s': State, t: Tid) {
    && (Holds(PcOf(s', t)) ==> Holds(PcOf(s, t)) || step == Caller(t, Pop))
    && (Holds(PcOf(s, t)) && !Holds(PcOf(s', t)) ==> s'.c.nrClosed || step == Locked(t, RelSend))
    && (step == Locked(t, RelSend) ==> Holds(PcOf(s, t)) && !Holds(PcOf(s', t)))
    && s'.c.tokens == s.c.tokens + (if step.Locked? && step.l == RelSend then 1 else 0)
                      - (if step.Caller? && step.c == Pop then 1 else 0)
    && (s.c.nrClosed ==> s'.c.nrClosed)
  }

  lemma TokenReader(s: State, r: ReaderOp, t: Tid)
    requires ReaderEnabled(s, r)
    ensures TokenFlows(s, Reader(r), ReaderApply(s, r), t)
  {
  }

  lemma TokenLocked(s: State, u: Tid, l: LockOp, t: Tid)
    requires LockedEnabled(s, u, l) && StatusAt(s, u) && CloseGlobal(s)
    ensures TokenFlows(s, Locked(u, l), LockedApply(s, u, l), t)
  {
  }

  lemma TokenCaller(s: State, u: Tid, c: CallerOp, t: Tid)
    requires CallerEnabled(s, u, c) && StatusAt(s, u) && CloseGlobal(s)
    ensures TokenFlows(s, Caller(u, c), CallerApply(s, u, c), t)
  {
  }

  lemma TokenPair(s: State, step: Step, t: Tid)
    requires (step.Meet? || step.Hand?) && Enabled(s, step)
    ensures TokenFlows(s, step, Apply(s, step), t)
  {
  }

  lemma TokenFlow(s: State, step: Step, t: Tid)
    requires CloseInv(s) && Enabled(s, step)
    ensures TokenFlows(s, step, Apply(s, step), t)
  {
    match step
    case Reader(r) => TokenReader(s, r, t);
    case Locked(u, l) => assert StatusAt(s, u); TokenLocked(s, u, l, t);
    case Caller(u, c) => assert StatusAt(s, u); TokenCaller(s, u, c, t);
    case Meet(u) => TokenPair(s, step, t);
    case Hand(u) => TokenPair(s, step, t);
    case Serve(_, _, _) =>
  }

  lemma TokenStep(s: State, step: Step)
    requires TokenInv(s) && CloseInv(s) && Enabled(s, step)
    ensures TokenInv(Apply(s, step))
  {
    var s' := Apply(s, step);
    TokenFlow(s, step, READER);
    if step.Locked? && step.l == RelSend {
      TokenFlow(s, step, step.t);
      assert TokenAt(s, step.t, step.t);
    }
    forall t: Tid, u: Tid ensures TokenAt(s', t, u) {
      TokenFlow(s, step, t);
      TokenFlow(s, step, u);
      assert TokenAt(s, t, u) && TokenAt(s, u, t);
      if step.Locked? && step.l == RelSend {
        assert TokenAt(s, t, step.t);
      }
    }
    if !s'.c.nrClosed && s'.c.tokens == 0 {
      if step.Caller? && step.c == Pop {
        assert Holds(PcOf(s', step.t));
      } else {
        var t: Tid :| Holds(PcOf(s, t));
        TokenFlow(s, step, t);
        assert Holds(PcOf(s', t));
      }
    }
  }

  // ---- Part 3 ----

  /** The status as another thread t sees it across a step of u. */
  lemma StatusReader(s: State, r: ReaderOp, t: Tid)
    requires ReaderEnabled(s, r) && StatusAt(s, t) && CloseGlobal(s) && LockAt(s, READER)
    ensures CloseGlobal(ReaderApply(s, r)) && StatusAt(ReaderApply(s, r), t)
  {
  }

  lemma StatusLockedOwn(s: State, u: Tid, l: LockOp)
    requires LockedEnabled(s, u, l) && StatusAt(s, u) && CloseGlobal(s) && LockAt(s, u) && TokenAt(s, u, u)
    ensures CloseGlobal(LockedApply(s, u, l)) && StatusAt(LockedApply(s, u, l), u)
  {
  }

  lemma StatusLockedOther(s: State, u: Tid, l: LockOp, t: Tid)
    requires LockedEnabled(s, u, l) && StatusAt(s, t) && StatusAt(s, u) && CloseGlobal(s)
    requires LockAt(s, u) && LockAt(s, t) && TokenAt(s, t, u) && t != u
    ensures StatusAt(LockedApply(s, u, l), t)
  {
    OthersStay(s, Locked(u, l), t);
  }

  lemma StatusLocked(s: State, u: Tid, l: LockOp, t: Tid)
    requires LockedEnabled(s, u, l) && StatusAt(s, t) && StatusAt(s, u) && CloseGlobal(s)
    requires LockAt(s, u) && LockAt(s, t) && TokenAt(s, t, u) && TokenAt(s, u, u)
    ensures CloseGlobal(LockedApply(s, u, l)) && StatusAt(LockedApply(s, u, l), t)
  {
    StatusLockedOwn(s, u, l);
    if t != u {
      StatusLockedOther(s, u, l, t);
    }
  }

  /** A caller between the operations on the lock changes neither the status nor nextResponse. */
  lemma CallerKeepsStatus(s: State, u: Tid, c: CallerOp)
    requires CallerEnabled(s, u, c)
    ensures var c' := CallerApply(s, u, c).c;
            c'.status == s.c.status && c'.nrClosed == s.c.nrClosed && c'.lock == s.c.lock && c'.tokens <= s.c.tokens
  {
  }

  lemma StatusCallerOwn(s: State, u: Tid, c: CallerOp)
    requires CallerEnabled(s, u, c) && StatusAt(s, u) && CloseGlobal(s) && LockAt(s, u)
    ensures CloseGlobal(CallerApply(s, u, c)) && StatusAt(CallerApply(s, u, c), u)
  {
    CallerKeepsStatus(s, u, c);
  }

  lemma StatusCaller(s: State, u: Tid, c: CallerOp, t: Tid)
    requires CallerEnabled(s, u, c) && StatusAt(s, t) && StatusAt(s, u) && CloseGlobal(s) && LockAt(s, u)
    ensures CloseGlobal(CallerApply(s, u, c)) && StatusAt(CallerApply(s, u, c), t)
  {
    StatusCallerOwn(s, u, c);
    if t != u {
      CallerKeepsStatus(s, u, c);
      OthersStay(s, Caller(u, c), t);
    }
  }

  lemma StatusPair(s: State, step: Step, t: Tid)
    requires (step.Meet? || step.Hand?) && Enabled(s, step)
    requires StatusAt(s, t) && StatusAt(s, step.t) && CloseGlobal(s) && LockAt(s, step.t) && LockAt(s, READER)
    ensures CloseGlobal(Apply(s, step)) && StatusAt(Apply(s, step), t)
  {
  }

  lemma CloseStep(s: State, step: Step)
    requires LockInv(s) && TokenInv(s) && CloseInv(s) && Enabled(s, step)
    ensures CloseInv(Apply(s, step))
  {
    var s' := Apply(s, step);
    forall t: Tid ensures CloseGlobal(s') && StatusAt(s', t) {
      assert StatusAt(s, t) && LockAt(s, t) && LockAt(s, READER);
      match step
      case Reader(r) => StatusReader(s, r, t);
      case Locked(u, l) =>
        assert StatusAt(s, u) && LockAt(s, u) && TokenAt(s, t, u) && TokenAt(s, u, u);
        StatusLocked(s, u, l, t);
      case Caller(u, c) => assert StatusAt(s, u) && LockAt(s, u); StatusCaller(s, u, c, t);
      case Meet(u) => assert StatusAt(s, u) && LockAt(s, u); StatusPair(s, step, t);
      case Hand(u) => assert StatusAt(s, u) && LockAt(s, u); StatusPair(s, step, t);
      case Serve(_, _, _) =>
    }
    assert StatusAt(s', READER);
  }

  // ---- Part 4 ----

  lemma HandoffOfReader(s: State, r: ReaderOp, t: Tid)
    requires ReaderEnabled(s, r) && HandoffReader(s) && HandoffAt(s, t) && LockAt(s, READER) && LockAt(s, t)
    requires PcOf(s, READER).Give? || PcOf(s, READER).Drain? ==> HandoffAt(s, PcOf(s, READER).ch.owner)
    ensures HandoffReader(ReaderApply(s, r)) && HandoffAt(ReaderApply(s, r), t)
  {
  }

  /** What the two-level handoff depends on. */
  ghost predicate Linked(pc: Pc) {
    pc.Await? || pc.Reading? || pc.Give? || pc.Drain?
  }

  /** A step of u outside the handoff keeps it. */
  lemma HandoffUntouched(s: State, s': State, u: Tid, t: Tid)
    requires HandoffReader(s) && HandoffAt(s, t)
    requires s'.ch == s.ch && !Linked(PcOf(s, u)) && !Linked(PcOf(s', u))
    requires forall v: Tid :: v != u ==> PcOf(s', v) == PcOf(s, v)
    ensures HandoffReader(s') && HandoffAt(s', t)
  {
  }

  lemma LockedUnlinked(s: State, u: Tid, l: LockOp)
    requires LockedEnabled(s, u, l) && CloseGlobal(s) && LockAt(s, u)
    ensures LockedApply(s, u, l).ch == s.ch
    ensures !Linked(PcOf(s, u)) && !Linked(PcOf(LockedApply(s, u, l), u))
  {
  }

  lemma HandoffLocked(s: State, u: Tid, l: LockOp, t: Tid)
    requires LockedEnabled(s, u, l) && HandoffReader(s) && HandoffAt(s, t) && CloseGlobal(s) && LockAt(s, u)
    ensures HandoffReader(LockedApply(s, u, l)) && HandoffAt(LockedApply(s, u, l), t)
  {
    LockedUnlinked(s, u, l);
    forall v: Tid | v != u ensures PcOf(LockedApply(s, u, l), v) == PcOf(s, v) {
      OthersStay(s, Locked(u, l), v);
    }
    HandoffUntouched(s, LockedApply(s, u, l), u, t);
  }

  lemma CallerUnlinked(s: State, u: Tid, c: CallerOp)
    requires CallerEnabled(s, u, c) && !c.Consume? && LockAt(s, u) && HandoffAt(s, u)
    ensures CallerApply(s, u, c).ch == s.ch
    ensures !Linked(PcOf(s, u)) && !Linked(PcOf(CallerApply(s, u, c), u))
  {
  }

  lemma HandoffConsume(s: State, u: Tid, ok: bool, t: Tid)
    requires CallerEnabled(s, u, Consume(ok)) && HandoffReader(s) && HandoffAt(s, t) && HandoffAt(s, u)
    requires LockAt(s, READER) && LockAt(s, u)
    ensures HandoffReader(CallerApply(s, u, Consume(ok))) && HandoffAt(CallerApply(s, u, Consume(ok)), t)
  {
  }

  lemma HandoffCaller(s: State, u: Tid, c: CallerOp, t: Tid)
    requires CallerEnabled(s, u, c) && HandoffReader(s) && HandoffAt(s, t) && HandoffAt(s, u)
    requires LockAt(s, READER) && LockAt(s, u)
    ensures HandoffReader(CallerApply(s, u, c)) && HandoffAt(CallerApply(s, u, c), t)
  {
    if c.Consume? {
      HandoffConsume(s, u, c.ok, t);
    } else {
      CallerUnlinked(s, u, c);
      forall v: Tid | v != u ensures PcOf(CallerApply(s, u, c), v) == PcOf(s, v) {
        OthersStay(s, Caller(u, c), v);
      }
      HandoffUntouched(s, CallerApply(s, u, c), u, t);
    }
  }

  lemma HandoffPair(s: State, step: Step, t: Tid)
    requires (step.Meet? || step.Hand?) && Enabled(s, step)
    requires HandoffReader(s) && HandoffAt(s, t) && HandoffAt(s, step.t) && LockAt(s, READER) && LockAt(s, step.t)
    ensures HandoffReader(Apply(s, step)) && HandoffAt(Apply(s, step), t)
  {
  }

  lemma HandoffStep(s: State, step: Step)
    requires LockInv(s) && CloseInv(s) && HandoffInv(s) && Enabled(s, step)
    ensures HandoffInv(Apply(s, step))
  {
    var s' := Apply(s, step);
    forall t: Tid ensures HandoffReader(s') && HandoffAt(s', t) {
      assert HandoffAt(s, t) && LockAt(s, t) && LockAt(s, READER);
      match step
      case Reader(r) =>
        var pc := PcOf(s, READER);
        assert pc.Give? || pc.Drain? ==> HandoffAt(s, pc.ch.owner);
        HandoffOfReader(s, r, t);
      case Locked(u, l) => assert LockAt(s, u); HandoffLocked(s, u, l, t);
      case Caller(u, c) => assert HandoffAt(s, u) && LockAt(s, u); HandoffCaller(s, u, c, t);
      case Meet(u) => assert HandoffAt(s, u) && LockAt(s, u); HandoffPair(s, step, t);
      case Hand(u) => assert HandoffAt(s, u) && LockAt(s, u); HandoffPair(s, step, t);
      case Serve(_, _, _) =>
    }
    assert HandoffAt(s', READER);
  }

  // ---- Part 5 ----

  ghost predicate Grows(w: Wire, w': Wire) {
    w.reqs <= w'.reqs && w.replies <= w'.replies
  }

  /** A thread that does not take the step keeps its view if it has no exchange under way or that is untouched. */
  lemma Bystander(w: Wire, w': Wire, pc: Pc)
    requires UserCounts(w, pc) && Grows(w, w')
    requires Holds(pc) ==> w'.reqs == w.reqs && |w'.sent| == |w.sent| && w'.delivered == w.delivered && w'.fin == w.fin
    ensures UserCounts(w', pc)
  {
  }

  lemma OffWireLocked(s: State, u: Tid, l: LockOp)
    requires LockedEnabled(s, u, l) && l != RelSet && CountInv(s) && TokenAt(s, u, u) && LockAt(s, u)
    ensures var s' := LockedApply(s, u, l);
            && s'.w == s.w && CountAt(s', u) && (u == READER ==> ReaderCounts(s'.w, PcOf(s', READER)))
            && (s'.c.tokens > 0 ==> Quiet(s'.w))
            && (forall i :: 0 <= i < |s'.log| ==> DeliveryOk(s'.w, s'.log[i]))
  {
    assert CountAt(s, u);
  }

  lemma OffWireReader(s: State, r: ReaderOp)
    requires ReaderEnabled(s, r) && !(r.Receive? && r.ok) && CountInv(s)
    requires LockAt(s, READER) && HandoffInv(s)
    ensures var s' := ReaderApply(s, r);
            s'.w == s.w && CountAt(s', READER) && ReaderCounts(s'.w, PcOf(s', READER))
  {
    assert CountAt(s, READER);
  }

  lemma OffWireCaller(s: State, u: Tid, c: CallerOp)
    requires CallerEnabled(s, u, c) && !c.WriteHead? && !c.WriteBody? && CountInv(s) && LockAt(s, u)
    ensures var s' := CallerApply(s, u, c);
            s'.w == s.w && CountAt(s', u) && u != READER
  {
    assert CountAt(s, u);
  }

  lemma CountReceive(s: State)
    requires ReaderEnabled(s, Receive(true)) && CountInv(s)
    ensures var s' := ReaderApply(s, Receive(true));
            WireInv(s'.w) && Grows(s.w, s'.w) && CountAt(s', READER) && ReaderCounts(s'.w, PcOf(s', READER))
  {
  }

  lemma CountRelSet(s: State, u: Tid)
    requires LockedEnabled(s, u, RelSet) && CountInv(s) && LockAt(s, u)
    ensures var s' := LockedApply(s, u, RelSet);
            WireInv(s'.w) && Grows(s.w, s'.w) && CountAt(s', u) && ReaderCounts(s'.w, PcOf(s', READER))
  {
    assert CountAt(s, u);
  }

  lemma CountWriteHead(s: State, u: Tid, c: CallerOp)
    requires c.WriteHead? && CallerEnabled(s, u, c) && CountInv(s)
    ensures var s' := CallerApply(s, u, c);
            WireInv(s'.w) && Grows(s.w, s'.w) && CountAt(s', u)
            && s'.w.read == s.w.read && s'.w.delivered == s.w.delivered && s'.w.replies == s.w.replies
  {
    assert CountAt(s, u);
    var w, w' := s.w, CallerApply(s, u, c).w;
    forall i | 0 <= i < |w'.sent| ensures Tagged(w'.sent[i], i, w'.reqs) {
      assert i < |w.sent| ==> Tagged(w.sent[i], i, w.reqs);
    }
    forall i | 0 <= i < |w'.replies| ensures Tagged(w'.replies[i], i, w'.reqs) {
      assert Tagged(w.replies[i], i, w.reqs);
    }
  }

  lemma CountWriteBody(s: State, u: Tid, c: CallerOp)
    requires c.WriteBody? && CallerEnabled(s, u, c) && CountInv(s)
    ensures var s' := CallerApply(s, u, c);
            WireInv(s'.w) && Grows(s.w, s'.w) && CountAt(s', u)
            && s'.w.read == s.w.read && s'.w.delivered == s.w.delivered && s'.w.replies == s.w.replies
  {
    assert CountAt(s, u);
    var w, w' := s.w, CallerApply(s, u, c).w;
    forall i | 0 <= i < |w'.sent| ensures Tagged(w'.sent[i], i, w'.reqs) {
      assert i < |w.sent| ==> Tagged(w.sent[i], i, w.reqs);
    }
  }

  lemma CountPair(s: State, step: Step)
    requires (step.Meet? || step.Hand?) && Enabled(s, step) && CountInv(s) && LockAt(s, step.t)
    ensures var s' := Apply(s, step);
            && WireInv(s'.w) && Grows(s.w, s'.w) && CountAt(s', step.t) && CountAt(s', READER)
            && ReaderCounts(s'.w, PcOf(s', READER))
  {
    assert CountAt(s, step.t);
  }

  /** The loop finds a message to read only when it owes no reply. */
  lemma ServeReads(w: Wire)
    requires ServeEnabled(w, true) && w.peer.pc == Serving.AwaitRequest && WireInv(w) && PeerInv(w)
    ensures !w.peer.failed
    ensures w.peer.served < |w.reqs| && w.sent[w.peer.consumed].req == w.reqs[w.peer.served]
  {
    assert Tagged(w.sent[w.peer.consumed], w.peer.consumed, w.reqs);
  }

  /** The reply appended, if any, carries the tag of its place in the stream. */
  lemma ReplyTagged(w: Wire, ok: bool, data: int, frag: bool)
    requires ServeEnabled(w, ok) && PeerInv(w)
    ensures var more := Reply(w.peer.pc, w.job.req, data, ok, frag);
            |more| <= 1 && (|more| == 1 ==> Tagged(more[0], |w.replies|, w.reqs))
  {
  }

  /** At its head and before it answers the loop adds no reply. */
  lemma ServeBefore(w: Wire, ok: bool, data: int, frag: bool)
    requires ServeEnabled(w, ok) && WireInv(w) && PeerInv(w)
    requires w.peer.pc in {Serving.AwaitRequest, Serving.Decode, Serving.Unserialize, Serving.AwaitBody}
    ensures PeerAt(ServeWire(w, ok, data, frag))
  {
    if w.peer.pc == Serving.AwaitRequest && ok {
      ServeReads(w);
    }
  }

  lemma ServeAnswer(w: Wire, ok: bool, data: int, frag: bool)
    requires ServeEnabled(w, ok) && PeerInv(w)
    requires w.peer.pc in {Serving.Execute, Serving.Serialize, Serving.WriteHead, Serving.OpenBody, Serving.CopyBody,
                           Serving.CloseBody}
    ensures PeerAt(ServeWire(w, ok, data, frag))
  {
  }

  lemma ServeError(w: Wire, ok: bool, data: int, frag: bool)
    requires ServeEnabled(w, ok) && PeerInv(w)
    requires w.peer.pc.ErrMarshal? || w.peer.pc.ErrHead? || w.peer.pc.ErrBody?
    ensures PeerAt(ServeWire(w, ok, data, frag))
  {
  }

  lemma ServePeerAt(w: Wire, ok: bool, data: int, frag: bool)
    requires ServeEnabled(w, ok) && WireInv(w) && PeerInv(w)
    ensures PeerAt(ServeWire(w, ok, data, frag))
  {
    match w.peer.pc
    case AwaitRequest | Decode | Unserialize | AwaitBody => ServeBefore(w, ok, data, frag);
    case ErrMarshal(_) => ServeError(w, ok, data, frag);
    case ErrHead(_) => ServeError(w, ok, data, frag);
    case ErrBody(_) => ServeError(w, ok, data, frag);
    case _ => ServeAnswer(w, ok, data, frag);
  }

  lemma BoundBefore(w: Wire, ok: bool, data: int, frag: bool)
    requires ServeEnabled(w, ok) && PeerInv(w)
    requires w.peer.pc in {Serving.AwaitRequest, Serving.Decode, Serving.Unserialize, Serving.AwaitBody}
    ensures Bounded(ServeWire(w, ok, data, frag))
  {
  }

  lemma BoundAnswer(w: Wire, ok: bool, data: int, frag: bool)
    requires ServeEnabled(w, ok) && PeerInv(w)
    requires w.peer.pc in {Serving.Execute, Serving.Serialize, Serving.WriteHead, Serving.OpenBody, Serving.CopyBody,
                           Serving.CloseBody}
    ensures Bounded(ServeWire(w, ok, data, frag))
  {
  }

  lemma BoundError(w: Wire, ok: bool, data: int, frag: bool)
    requires ServeEnabled(w, ok) && PeerInv(w)
    requires w.peer.pc.ErrMarshal? || w.peer.pc.ErrHead? || w.peer.pc.ErrBody?
    ensures Bounded(ServeWire(w, ok, data, frag))
  {
    var w' := ServeWire(w, ok, data, frag);
    assert w'.peer.consumed == w.peer.consumed;
    assert |w'.replies| <= 2 * w.peer.served + 2;
    RoundUp(w.peer.served, w.peer.consumed);
  }

  lemma RoundUp(n: nat, k: nat)
    ensures k == 2 * n + 1 || k == 2 * n + 2 ==> k + k % 2 == 2 * n + 2
  {
  }

  lemma ServeBound(w: Wire, ok: bool, data: int, frag: bool)
    requires ServeEnabled(w, ok) && PeerInv(w)
    ensures Bounded(ServeWire(w, ok, data, frag))
  {
    match w.peer.pc
    case AwaitRequest | Decode | Unserialize | AwaitBody => BoundBefore(w, ok, data, frag);
    case ErrMarshal(_) => BoundError(w, ok, data, frag);
    case ErrHead(_) => BoundError(w, ok, data, frag);
    case ErrBody(_) => BoundError(w, ok, data, frag);
    case _ => BoundAnswer(w, ok, data, frag);
  }

  lemma ServePeer(w: Wire, ok: bool, data: int, frag: bool)
    requires ServeEnabled(w, ok) && WireInv(w) && PeerInv(w)
    ensures PeerInv(ServeWire(w, ok, data, frag))
  {
    Serving.NextBalanced(w.peer, ok);
    ServePeerAt(w, ok, data, frag);
    ServeBound(w, ok, data, frag);
  }

  lemma WireAppend(w: Wire, w': Wire, more: seq<Msg>)
    requires WireInv(w) && w'.replies == w.replies + more
    requires |more| <= 1 && (|more| == 1 ==> Tagged(more[0], |w.replies|, w.reqs))
    requires w'.reqs == w.reqs && w'.sent == w.sent && w'.read == w.read
    requires w'.delivered == w.delivered && w'.fin == w.fin && w'.peer.consumed <= |w.sent|
    ensures WireInv(w')
  {
    forall i | 0 <= i < |w'.replies| ensures Tagged(w'.replies[i], i, w'.reqs) {
      assert i < |w.replies| ==> Tagged(w.replies[i], i, w.reqs);
    }
  }

  /** An operation of the serving loop keeps the streams aligned. */
  lemma ServeWireInv(w: Wire, ok: bool, data: int, frag: bool)
    requires ServeEnabled(w, ok) && WireInv(w) && PeerInv(w)
    ensures WireInv(ServeWire(w, ok, data, frag))
  {
    ReplyTagged(w, ok, data, frag);
    WireAppend(w, ServeWire(w, ok, data, frag), Reply(w.peer.pc, w.job.req, data, ok, frag));
  }

  /** The serving loop does not see what the near end does, except that requests are added. */
  lemma PeerFrame(w: Wire, w': Wire)
    requires PeerInv(w) && w'.peer == w.peer && w'.job == w.job && w'.replies == w.replies && w.reqs <= w'.reqs
    ensures PeerInv(w')
  {
  }

  /** CountInv after a step of thread u, from what u and the reader see and from who else holds the token. */
  lemma CountTogether(s: State, s': State, u: Tid, pair: bool)
    requires CountInv(s) && WireInv(s'.w) && Grows(s.w, s'.w)
    requires CountAt(s', u) && ReaderCounts(s'.w, PcOf(s', READER)) && (pair ==> CountAt(s', READER))
    requires forall t: Tid :: t != u && !(pair && t == READER) ==> PcOf(s', t) == PcOf(s, t)
    requires s'.w == s.w || (forall t: Tid :: t != u && Holds(PcOf(s, t)) ==> CountAt(s', t))
    requires s'.c.tokens > 0 ==> Quiet(s'.w)
    requires forall i :: 0 <= i < |s'.log| ==> DeliveryOk(s'.w, s'.log[i])
    ensures CountInv(s')
  {
    forall t: Tid ensures CountAt(s', t) {
      assert CountAt(s, t);
      if t != u && !(pair && t == READER) && !Holds(PcOf(s, t)) {
        Bystander(s.w, s'.w, PcOf(s, t));
      }
    }
  }

  lemma CountByReader(s: State, r: ReaderOp)
    requires LockInv(s) && HandoffInv(s) && CountInv(s) && ReaderEnabled(s, r)
    ensures CountInv(ReaderApply(s, r))
  {
    var s' := ReaderApply(s, r);
    assert LockAt(s, READER);
    forall t: Tid | t != READER ensures PcOf(s', t) == PcOf(s, t) {
      OthersStay(s, Reader(r), t);
    }
    if r == Receive(true) {
      CountReceive(s);
      forall t: Tid | t != READER ensures CountAt(s', t) {
        assert CountAt(s, t);
        Bystander(s.w, s'.w, PcOf(s, t));
      }
    } else {
      OffWireReader(s, r);
    }
    CountTogether(s, s', READER, false);
  }

  lemma CountByLocked(s: State, u: Tid, l: LockOp)
    requires LockInv(s) && TokenInv(s) && CountInv(s) && LockedEnabled(s, u, l)
    ensures CountInv(LockedApply(s, u, l))
  {
    var s' := LockedApply(s, u, l);
    assert LockAt(s, u) && TokenAt(s, u, u);
    forall t: Tid | t != u ensures PcOf(s', t) == PcOf(s, t) {
      OthersStay(s, Locked(u, l), t);
    }
    if l == RelSet {
      CountRelSet(s, u);
      forall t: Tid | t != u ensures !Holds(PcOf(s, t)) {
        assert TokenAt(s, t, u);
      }
    } else {
      OffWireLocked(s, u, l);
    }
    CountTogether(s, s', u, false);
  }

  lemma CountByWriter(s: State, u: Tid, c: CallerOp)
    requires c.WriteHead? || c.WriteBody?
    requires LockInv(s) && TokenInv(s) && CountInv(s) && CallerEnabled(s, u, c)
    ensures CountInv(CallerApply(s, u, c))
  {
    var s' := CallerApply(s, u, c);
    assert LockAt(s, u) && TokenAt(s, u, u);
    forall t: Tid | t != u ensures PcOf(s', t) == PcOf(s, t) && !Holds(PcOf(s, t)) {
      OthersStay(s, Caller(u, c), t);
      assert TokenAt(s, t, u);
    }
    if c.WriteHead? {
      CountWriteHead(s, u, c);
    } else {
      CountWriteBody(s, u, c);
    }
    CountTogether(s, s', u, false);
  }

  lemma CountByCaller(s: State, u: Tid, c: CallerOp)
    requires !c.WriteHead? && !c.WriteBody?
    requires LockInv(s) && CountInv(s) && CallerEnabled(s, u, c)
    ensures CountInv(CallerApply(s, u, c))
  {
    var s' := CallerApply(s, u, c);
    assert LockAt(s, u);
    forall t: Tid | t != u ensures PcOf(s', t) == PcOf(s, t) {
      OthersStay(s, Caller(u, c), t);
    }
    OffWireCaller(s, u, c);
    CountTogether(s, s', u, false);
  }

  lemma PeerStep(s: State, step: Step)
    requires !step.Serve? && PeerInv(s.w) && Enabled(s, step)
    ensures PeerInv(Apply(s, step).w)
  {
    PeerFrame(s.w, Apply(s, step).w);
  }

  lemma CountByPair(s: State, step: Step)
    requires step.Meet? || step.Hand?
    requires LockInv(s) && TokenInv(s) && CountInv(s) && Enabled(s, step)
    ensures CountInv(Apply(s, step))
  {
    var s' := Apply(s, step);
    var u := step.t;
    assert LockAt(s, u) && TokenAt(s, u, u);
    CountPair(s, step);
    forall t: Tid | t != u && t != READER ensures PcOf(s', t) == PcOf(s, t) && !Holds(PcOf(s, t)) {
      OthersStay(s, step, t);
      assert TokenAt(s, t, u);
    }
    CountTogether(s, s', u, true);
  }

  lemma CountByServe(s: State, ok: bool, data: int, frag: bool)
    requires CountInv(s) && PeerInv(s.w) && ServeEnabled(s.w, ok)
    ensures CountInv(s.(w := ServeWire(s.w, ok, data, frag)))
  {
    var w' := ServeWire(s.w, ok, data, frag);
    ServeWireInv(s.w, ok, data, frag);
    forall t: Tid ensures UserCounts(w', PcOf(s, t)) {
      assert CountAt(s, t);
      Bystander(s.w, w', PcOf(s, t));
    }
    ServedTogether(s, w');
  }

  lemma ServedTogether(s: State, w': Wire)
    requires CountInv(s) && WireInv(w') && Grows(s.w, w')
    requires w'.reqs == s.w.reqs && w'.sent == s.w.sent && w'.read == s.w.read
    requires w'.delivered == s.w.delivered && w'.fin == s.w.fin
    requires forall t: Tid :: UserCounts(w', PcOf(s, t))
    ensures CountInv(s.(w := w'))
  {
    var s' := s.(w := w');
    forall t: Tid ensures CountAt(s', t) {
      assert PcOf(s', t) == PcOf(s, t);
    }
  }

  lemma CountStep(s: State, step: Step)
    requires Inv(s) && Enabled(s, step)
    ensures CountInv(Apply(s, step))
  {
    match step
    case Reader(r) => CountByReader(s, r);
    case Locked(u, l) => CountByLocked(s, u, l);
    case Caller(u, c) =>
      if c.WriteHead? || c.WriteBody? {
        CountByWriter(s, u, c);
      } else {
        CountByCaller(s, u, c);
      }
    case Meet(u) => CountByPair(s, step);
    case Hand(u) => CountByPair(s, step);
    case Serve(ok, data, frag) =>
      CountByServe(s, ok, data, frag);
  }

  lemma StepInv(s: State, step: Step)
    requires Inv(s) && Enabled(s, step)
    ensures Inv(Apply(s, step))
  {
    LockStep(s, step);
    TokenStep(s, step);
    CloseStep(s, step);
    HandoffStep(s, step);
    CountStep(s, step);
    if step.Serve? {
      ServePeer(s.w, step.ok, step.data, step.frag);
    } else {
      PeerStep(s, step);
    }
  }

  /** Every state of every run satisfies the invariant. */
  lemma {:induction false} RunInv(run: seq<State>, i: nat)
    requires IsRun(run) && i < |run|
    ensures Inv(run[i])
  {
    if i == 0 {
      InitInv(run[0].c.status);
    } else {
      RunInv(run, i - 1);
      assert MovesAt(run, i - 1);
      var step :| Enabled(run[i - 1], step) && run[i] == Apply(run[i - 1], step);
      StepInv(run[i - 1], step);
    }
  }
}
