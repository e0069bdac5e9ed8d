/**
 * Nobody is stuck for good on a connection: from every reachable state, wherever its threads are, the connection
 * can be closed, and then every thread can get out. This is what closing nextResponse is for.
 */
module ExchangeExits {
  import opened Types
  import opened Exchange
  import opened ExchangeInvariant
  import opened ExchangeTheorems
  import opened ExchangeCompletes

  // ---- The thread inside the connection lock ----

  /** The next operation of a thread inside the lock. */
  function Inside(pc: Pc): LockOp {
    match pc
    case Releasing(rel, _) => if rel == RelIn then RelSet else if rel == RelOffer then RelSend else RelUnlock
    case Closing(cls, _) => if cls == ClsIn then ClsShut else if cls == ClsMid then ClsMark else ClsUnlock
    case _ => TakeDecide
  }

  function StepsInside(pc: Pc): nat {
    match pc
    case Releasing(rel, _) => if rel == RelIn then 3 else if rel == RelOffer then 2 else 1
    case Closing(cls, _) => if cls == ClsIn then 3 else if cls == ClsMid then 2 else 1
    case _ => 1
  }

  lemma InsideStep(s: State, t: Tid)
    requires InLock(PcOf(s, t)) && s.c.lock == Some(t)
    ensures LockedEnabled(s, t, Inside(PcOf(s, t)))
    ensures var s' := LockedApply(s, t, Inside(PcOf(s, t)));
            s'.c.lock == None
            || (s'.c.lock == Some(t) && InLock(PcOf(s', t)) && StepsInside(PcOf(s', t)) < StepsInside(PcOf(s, t)))
  {
  }

  /** Whoever is inside the lock comes out of it. */
  lemma {:induction false} FreesLock(run: seq<State>) returns (longer: seq<State>)
    requires IsRun(run)
    ensures IsRun(longer) && run <= longer && Last(longer).c.lock == None
    decreases if Last(run).c.lock.Some? then StepsInside(PcOf(Last(run), Last(run).c.lock.value)) else 0
  {
    longer := run;
    var s := Last(run);
    if s.c.lock.Some? {
      var t := s.c.lock.value;
      RunInv(run, |run| - 1);
      assert LockAt(s, t);
      InsideStep(s, t);
      longer := Extend(run, Locked(t, Inside(PcOf(s, t))));
      longer := FreesLock(longer);
    }
  }

  // ---- The threads of a closed connection ----

  /** The connection is CLOSED, and nobody but t is inside its lock. */
  ghost predicate ClosedTo(s: State, t: Tid) {
    s.c.status == Closed && (s.c.lock == None || s.c.lock == Some(t))
  }

  /** How a caller or a closer goes on when the connection is CLOSED. */
  function WayOut(t: Tid, pc: Pc): Step {
    match pc
    case Releasing(rel, _) => Locked(t, if rel == RelWant then RelAcquire else Inside(pc))
    case Closing(cls, _) => Locked(t, if cls == ClsWant then ClsAcquire else Inside(pc))
    case Popped => Caller(t, Look)
    case Chosen => Locked(t, TakeAcquire)
    case TakeIn => Locked(t, TakeDecide)
    case Held => Caller(t, WriteHead(0, 0, false, false))
    case HeadSent(_) => Caller(t, WriteBody(0, false, false))
    case Ask(_, _, _) => Caller(t, Abort)
    case Await(_, _, _, _) => Hand(t)
    case Reading(_, _, _, _, _) => Caller(t, Consume(false))
    case Decoding(_, _) => Caller(t, Unmarshal(false))
    case _ => Caller(t, RemoveDone)
  }

  /** An upper bound for the steps left. */
  function Left(pc: Pc): nat {
    match pc
    case Releasing(rel, _) => if rel == RelWant then 4 else StepsInside(pc)
    case Closing(cls, _) => if cls == ClsWant then 5 else 1 + StepsInside(pc)
    case Popped | TakeIn | Ask(_, _, _) | Removing => 1
    case Chosen => 2
    case Held | HeadSent(_) | Reading(_, _, _, _, _) | Decoding(_, _) => 6
    case Await(_, _, _, _) => 7
    case _ => 0
  }

  /** What a step on the way out of t comes to. */
  ghost predicate Nearer(s: State, s': State, t: Tid) {
    ClosedTo(s', t) && (PcOf(s', t) == Gone ==> s'.c.lock == None) && Left(PcOf(s', t)) < Left(PcOf(s, t))
  }

  lemma WayOutLocked(s: State, t: Tid)
    requires LockAt(s, t) && StatusAt(s, t) && ClosedTo(s, t) && t != READER && WayOut(t, PcOf(s, t)).Locked?
    ensures var l := WayOut(t, PcOf(s, t)).l; LockedEnabled(s, t, l) && Nearer(s, LockedApply(s, t, l), t)
  {
  }

  lemma WayOutCaller(s: State, t: Tid)
    requires LockAt(s, t) && ClosedTo(s, t) && s.c.nrClosed && t != READER && PcOf(s, t) != Gone
    requires WayOut(t, PcOf(s, t)).Caller?
    ensures var c := WayOut(t, PcOf(s, t)).c; CallerEnabled(s, t, c) && Nearer(s, CallerApply(s, t, c), t)
  {
  }

  lemma WayOutHand(s: State, t: Tid)
    requires LockAt(s, t) && HandoffAt(s, t) && ClosedTo(s, t) && t != READER && PcOf(s, t).Await?
    ensures Enabled(s, Hand(t)) && Nearer(s, Apply(s, Hand(t)), t)
  {
  }

  /** One step on the way out. */
  lemma WayOutStep(s: State, t: Tid)
    requires Inv(s) && ClosedTo(s, t) && t != READER && PcOf(s, t) != Gone
    ensures Enabled(s, WayOut(t, PcOf(s, t))) && Nearer(s, Apply(s, WayOut(t, PcOf(s, t))), t)
  {
    assert LockAt(s, t) && StatusAt(s, t) && HandoffAt(s, t);
    if PcOf(s, t).Await? {
      WayOutHand(s, t);
    } else if WayOut(t, PcOf(s, t)).Locked? {
      WayOutLocked(s, t);
    } else {
      WayOutCaller(s, t);
    }
  }

  /** The others stay where they are, but for the reader when it hands over a message. */
  lemma WayOutAlone(s: State, t: Tid, u: Tid)
    requires Enabled(s, WayOut(t, PcOf(s, t))) && u != t && u != READER
    ensures PcOf(Apply(s, WayOut(t, PcOf(s, t))), u) == PcOf(s, u)
  {
    OthersStay(s, WayOut(t, PcOf(s, t)), u);
  }

  /** A caller or closer of a CLOSED connection gets out, wherever it is. */
  lemma {:induction false} GetsOut(run: seq<State>, t: Tid) returns (longer: seq<State>)
    requires IsRun(run) && ClosedTo(Last(run), t) && t != READER
    requires PcOf(Last(run), t) == Gone ==> Last(run).c.lock == None
    ensures IsRun(longer) && run <= longer && ClosedTo(Last(longer), t) && Last(longer).c.lock == None
    ensures PcOf(Last(longer), t) == Gone
    ensures forall u: Tid :: u != t && u != READER ==> PcOf(Last(longer), u) == PcOf(Last(run), u)
    decreases Left(PcOf(Last(run), t))
  {
    longer := run;
    if PcOf(Last(run), t) != Gone {
      RunInv(run, |run| - 1);
      WayOutStep(Last(run), t);
      var once := Extend(run, WayOut(t, PcOf(Last(run), t)));
      longer := GetsOut(once, t);
      forall u: Tid | u != t && u != READER ensures PcOf(Last(longer), u) == PcOf(Last(run), u) {
        WayOutAlone(Last(run), t, u);
      }
    }
  }

  /** The callers and closers that are under way. */
  ghost function Busy(s: State): set<Tid> {
    set t | t in s.threads && t != READER && s.threads[t] != Gone
  }

  lemma {:induction false} AllCallersOut(run: seq<State>) returns (longer: seq<State>)
    requires IsRun(run) && Last(run).c.status == Closed && Last(run).c.lock == None
    ensures IsRun(longer) && run <= longer && Last(longer).c.status == Closed && Last(longer).c.lock == None
    ensures Busy(Last(longer)) == {}
    decreases Busy(Last(run))
  {
    longer := run;
    if t: Tid :| t in Busy(Last(run)) {
      longer := GetsOut(run, t);
      FewerBusy(Last(run), Last(longer), t);
      longer := AllCallersOut(longer);
    }
  }

  lemma FewerBusy(s: State, s': State, t: Tid)
    requires t in Busy(s) && PcOf(s', t) == Gone
    requires forall u: Tid :: u != t && u != READER ==> PcOf(s', u) == PcOf(s, u)
    ensures Busy(s') < Busy(s)
  {
    assert t !in Busy(s');
    forall u | u in Busy(s') ensures u in Busy(s) {
      assert u != t && PcOf(s', u) == PcOf(s, u);
    }
  }

  // ---- The reader of a closed connection, when the callers are out ----

  function ReaderOut(pc: Pc): Step {
    match pc
    case Fresh => Reader(Start)
    case Releasing(rel, _) => Locked(READER, if rel == RelWant then RelAcquire else Inside(pc))
    case Closing(cls, _) => Locked(READER, if cls == ClsWant then ClsAcquire else Inside(pc))
    case Top => Reader(CheckTop)
    case Next => Reader(Receive(false))
    case Got(_) => Reader(CheckBusy)
    case Recv(_) => Reader(NilChannel)
    case Drain(_) => Reader(Woken)
    case _ => Reader(DetachReader)
  }

  function ReaderLeft(pc: Pc): nat {
    match pc
    case Fresh => 12
    case Releasing(rel, _) => if rel == RelWant then 11 else 7 + StepsInside(pc)
    case Drain(_) => 7
    case Top | Next | Got(_) | Recv(_) => 6
    case Detach => 5
    case Closing(cls, _) => if cls == ClsWant then 4 else StepsInside(pc)
    case _ => 0
  }

  ghost predicate ReaderNearer(s: State, s': State) {
    && ClosedTo(s', READER) && (PcOf(s', READER) == Done ==> s'.c.lock == None)
    && ReaderLeft(PcOf(s', READER)) < ReaderLeft(PcOf(s, READER))
  }

  lemma ReaderOutLocked(s: State)
    requires LockAt(s, READER) && StatusAt(s, READER) && ClosedTo(s, READER) && ReaderOut(PcOf(s, READER)).Locked?
    ensures var l := ReaderOut(PcOf(s, READER)).l;
            LockedEnabled(s, READER, l) && ReaderNearer(s, LockedApply(s, READER, l))
  {
  }

  lemma ReaderOutReader(s: State)
    requires LockAt(s, READER) && HandoffReader(s) && ClosedTo(s, READER) && s.c.nrClosed && Busy(s) == {}
    requires PcOf(s, READER) != Done && ReaderOut(PcOf(s, READER)).Reader?
    ensures var r := ReaderOut(PcOf(s, READER)).r; ReaderEnabled(s, r) && ReaderNearer(s, ReaderApply(s, r))
  {
    var pc := PcOf(s, READER);
    if pc.Give? || pc.Drain? {
      assert pc.ch.owner !in Busy(s);
    }
  }

  lemma {:induction false} ReaderGetsOut(run: seq<State>) returns (longer: seq<State>)
    requires IsRun(run) && ClosedTo(Last(run), READER) && Busy(Last(run)) == {}
    requires PcOf(Last(run), READER) == Done ==> Last(run).c.lock == None
    ensures IsRun(longer) && run <= longer && Last(longer).c.status == Closed && Last(longer).c.lock == None
    ensures PcOf(Last(longer), READER) == Done && Busy(Last(longer)) == {}
    decreases ReaderLeft(PcOf(Last(run), READER))
  {
    longer := run;
    var s := Last(run);
    if PcOf(s, READER) != Done {
      RunInv(run, |run| - 1);
      assert LockAt(s, READER) && StatusAt(s, READER);
      var step := ReaderOut(PcOf(s, READER));
      if step.Locked? {
        ReaderOutLocked(s);
      } else {
        ReaderOutReader(s);
      }
      longer := Extend(run, step);
      StillNone(s, step);
      longer := ReaderGetsOut(longer);
    }
  }

  lemma StillNone(s: State, step: Step)
    requires Enabled(s, step) && Busy(s) == {} && (step.Reader? || (step.Locked? && step.t == READER))
    ensures Busy(Apply(s, step)) == {}
  {
    forall u: Tid | u != READER ensures u !in Busy(Apply(s, step)) {
      OthersStay(s, step, u);
      assert u !in Busy(s);
    }
  }

  // ---- From every reachable state ----

  /** Somebody closes the connection, unless it is CLOSED. */
  lemma GetsClosed(run: seq<State>) returns (longer: seq<State>)
    requires IsRun(run)
    ensures IsRun(longer) && run <= longer && Last(longer).c.status == Closed && Last(longer).c.lock == None
  {
    longer := FreesLock(run);
    var t := NewTid(Last(longer));
    var s' := Closes(Last(longer), t);
    longer := Follow(longer, s');
  }

  /**
   * From every reachable state there is a way to a state in which the connection is CLOSED and every thread has
   * returned: the reader loop is over, and no caller and no closer is left in the middle of anything.
   */
  lemma EveryoneGetsOut(run: seq<State>) returns (longer: seq<State>)
    requires IsRun(run)
    ensures IsRun(longer) && run <= longer && Last(longer).c.status == Closed && Last(longer).c.lock == None
    ensures PcOf(Last(longer), READER) == Done && forall t: Tid :: t != READER ==> PcOf(Last(longer), t) == Gone
  {
    longer := GetsClosed(run);
    longer := AllCallersOut(longer);
    longer := ReaderGetsOut(longer);
    forall t: Tid | t != READER ensures PcOf(Last(longer), t) == Gone {
      assert t !in Busy(Last(longer));
    }
  }
}
