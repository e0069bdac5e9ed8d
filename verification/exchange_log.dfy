/**
 * No exchange of a websocket is answered twice: every ProxyRequest that returns success returns another
 * exchange than all the others, and the log of the successful ones is in the order of their exchanges.
 */
module ExchangeLog {
  import opened Types
  import opened Exchange
  import opened ExchangeInvariant
  import opened ExchangeTheorems

  /** All exchanges in the log come before number n. */
  ghost predicate LogBelow(log: seq<Delivery>, n: nat) {
    forall i :: 0 <= i < |log| ==> log[i].slot < n
  }

  ghost predicate Increasing(log: seq<Delivery>) {
    forall i, j :: 0 <= i < j < |log| ==> log[i].slot < log[j].slot
  }

  /** A ProxyRequest between Take and the point of Release where the exchange ends. */
  ghost predicate Using(pc: Pc) {
    match pc
    case Held | HeadSent(_) | Ask(_, _, _) | Await(_, _, _, _) | Reading(_, _, _, _, _) | Decoding(_, _) => true
    case Releasing(rel, out) => out.Some? && (rel == RelWant || rel == RelIn)
    case _ => false
  }

  /** A ProxyRequest that is through with its exchange and about to return success. */
  ghost predicate Returning(pc: Pc) {
    pc.Releasing? && pc.out.Some? && (pc.rel == RelOffer || pc.rel == RelOut)
  }

  ghost predicate LogAt(s: State, t: Tid) {
    var pc := PcOf(s, t);
    && (Using(pc) ==> LogBelow(s.log, s.w.fin))
    && (Returning(pc) ==>
          && LogBelow(s.log, pc.out.value.slot)
          && (pc.out.value.slot < s.w.fin || s.c.status == Closed))
  }

  /** A use begins only when the one before it has returned. */
  ghost predicate ApartAt(s: State, t: Tid, u: Tid) {
    Using(PcOf(s, t)) ==> !Returning(PcOf(s, u))
  }

  ghost predicate LogGlobal(s: State) {
    Increasing(s.log) && (s.c.status != Closed ==> LogBelow(s.log, s.w.fin))
  }

  ghost predicate LogInv(s: State) {
    && LogGlobal(s)
    && (forall t: Tid :: LogAt(s, t))
    && (forall t: Tid, u: Tid :: ApartAt(s, t, u))
  }

  /** The move of a thread neither begins a use nor ends an exchange. */
  ghost predicate Within(pc: Pc, pc': Pc) {
    (Using(pc') ==> Using(pc)) && (Returning(pc') ==> Returning(pc) && pc'.out == pc.out)
  }

  ghost predicate SameLog(s: State, s': State) {
    s'.log == s.log && s'.w.fin == s.w.fin && (s.c.status == Closed ==> s'.c.status == Closed)
  }

  lemma KeepsLog(s: State, s': State)
    requires LogInv(s) && SameLog(s, s') && forall t: Tid :: Within(PcOf(s, t), PcOf(s', t))
    ensures LogInv(s')
  {
    forall t: Tid ensures LogAt(s', t) {
      assert LogAt(s, t) && Within(PcOf(s, t), PcOf(s', t));
    }
    forall t: Tid, u: Tid ensures ApartAt(s', t, u) {
      assert ApartAt(s, t, u) && Within(PcOf(s, t), PcOf(s', t)) && Within(PcOf(s, u), PcOf(s', u));
    }
  }

  /** The steps that begin a use, end an exchange, or write the log. */
  ghost predicate Matters(s: State, step: Step) {
    && step.Locked?
    && (step.l == TakeDecide
        || (PcOf(s, step.t).Releasing? && PcOf(s, step.t).out.Some? && (step.l == RelSet || step.l == RelUnlock)))
  }

  lemma ReaderWithin(s: State, r: ReaderOp)
    requires ReaderEnabled(s, r)
    ensures SameLog(s, ReaderApply(s, r)) && Within(PcOf(s, READER), PcOf(ReaderApply(s, r), READER))
  {
  }

  lemma LockedWithin(s: State, t: Tid, l: LockOp)
    requires LockedEnabled(s, t, l) && !Matters(s, Locked(t, l)) && StatusAt(s, t)
    ensures SameLog(s, LockedApply(s, t, l)) && Within(PcOf(s, t), PcOf(LockedApply(s, t, l), t))
  {
  }

  lemma CallerWithin(s: State, t: Tid, c: CallerOp)
    requires CallerEnabled(s, t, c)
    ensures SameLog(s, CallerApply(s, t, c)) && Within(PcOf(s, t), PcOf(CallerApply(s, t, c), t))
  {
  }

  lemma PairWithin(s: State, step: Step)
    requires (step.Meet? || step.Hand?) && Enabled(s, step)
    ensures SameLog(s, Apply(s, step))
    ensures Within(PcOf(s, step.t), PcOf(Apply(s, step), step.t))
    ensures Within(PcOf(s, READER), PcOf(Apply(s, step), READER))
  {
  }

  lemma StepSame(s: State, step: Step)
    requires Enabled(s, step) && !Matters(s, step) && (step.Locked? ==> StatusAt(s, step.t))
    ensures SameLog(s, Apply(s, step))
  {
    match step
    case Reader(r) => ReaderWithin(s, r);
    case Locked(u, l) => LockedWithin(s, u, l);
    case Caller(u, c) => CallerWithin(s, u, c);
    case Serve(_, _, _) =>
    case _ => PairWithin(s, step);
  }

  lemma StepWithin(s: State, step: Step, t: Tid)
    requires Enabled(s, step) && !Matters(s, step) && (step.Locked? ==> StatusAt(s, step.t))
    ensures Within(PcOf(s, t), PcOf(Apply(s, step), t))
  {
    match step
    case Reader(r) => if t == READER { ReaderWithin(s, r); } else { OthersStay(s, step, t); }
    case Locked(u, l) => if t == u { LockedWithin(s, u, l); } else { OthersStay(s, step, t); }
    case Caller(u, c) => if t == u { CallerWithin(s, u, c); } else { OthersStay(s, step, t); }
    case Serve(_, _, _) =>
    case _ => if t == step.t || t == READER { PairWithin(s, step); } else { OthersStay(s, step, t); }
  }

  lemma PlainStep(s: State, step: Step)
    requires LogInv(s) && Enabled(s, step) && !Matters(s, step) && (step.Locked? ==> StatusAt(s, step.t))
    ensures LogInv(Apply(s, step))
  {
    StepSame(s, step);
    forall t: Tid ensures Within(PcOf(s, t), PcOf(Apply(s, step), t)) {
      StepWithin(s, step, t);
    }
    KeepsLog(s, Apply(s, step));
  }

  /** Two threads are never both inside the connection lock. */
  lemma OneInLock(s: State, t: Tid, u: Tid)
    requires LockInv(s) && InLock(PcOf(s, t)) && InLock(PcOf(s, u))
    ensures t == u
  {
    assert LockAt(s, t) && LockAt(s, u);
  }

  lemma TakeStep(s: State, u: Tid)
    requires LockInv(s) && LogInv(s) && LockedEnabled(s, u, TakeDecide)
    ensures LogInv(LockedApply(s, u, TakeDecide))
  {
    var s' := LockedApply(s, u, TakeDecide);
    forall t: Tid ensures LogAt(s', t) {
      assert LogAt(s, t);
    }
    forall t: Tid, v: Tid ensures ApartAt(s', t, v) {
      assert ApartAt(s, t, v);
      if t == u && v != u && Returning(PcOf(s, v)) {
        OneInLock(s, u, v);
      }
    }
  }

  /** The exchange ends: its number is the highest so far, and `fin` passes it unless the connection is CLOSED. */
  lemma SetStep(s: State, u: Tid)
    requires TokenInv(s) && LogInv(s) && LockedEnabled(s, u, RelSet) && PcOf(s, u).out.Some? && CountAt(s, u)
    ensures LogInv(LockedApply(s, u, RelSet))
  {
    var s' := LockedApply(s, u, RelSet);
    assert LogAt(s, u);
    forall t: Tid ensures LogAt(s', t) {
      assert LogAt(s, t);
    }
    forall t: Tid, v: Tid ensures ApartAt(s', t, v) {
      assert ApartAt(s, t, v) && TokenAt(s, t, u);
    }
  }

  lemma ReturnStep(s: State, u: Tid)
    requires LockInv(s) && LogInv(s) && LockedEnabled(s, u, RelUnlock) && PcOf(s, u).out.Some?
    ensures LogInv(LockedApply(s, u, RelUnlock))
  {
    var s' := LockedApply(s, u, RelUnlock);
    assert LogAt(s, u);
    forall t: Tid ensures LogAt(s', t) {
      assert LogAt(s, t) && ApartAt(s, t, u);
      if t != u && Returning(PcOf(s, t)) {
        OneInLock(s, t, u);
      }
    }
    forall t: Tid, v: Tid ensures ApartAt(s', t, v) {
      assert ApartAt(s, t, v);
    }
  }

  lemma LogStep(s: State, step: Step)
    requires Inv(s) && LogInv(s) && Enabled(s, step)
    ensures LogInv(Apply(s, step))
  {
    if !Matters(s, step) {
      assert step.Locked? ==> StatusAt(s, step.t);
      PlainStep(s, step);
    } else {
      assert CountAt(s, step.t);
      match step.l
      case TakeDecide => TakeStep(s, step.t);
      case RelSet => SetStep(s, step.t);
      case RelUnlock => ReturnStep(s, step.t);
    }
  }

  lemma LogNext(run: seq<State>, j: nat)
    requires IsRun(run) && j + 1 < |run| && LogInv(run[j])
    ensures LogInv(run[j + 1])
  {
    RunInv(run, j);
    assert MovesAt(run, j);
    var step :| Enabled(run[j], step) && run[j + 1] == Apply(run[j], step);
    LogStep(run[j], step);
  }

  lemma InitLog(status: Status)
    ensures LogInv(Init(status))
  {
  }

  lemma {:induction false} RunLog(run: seq<State>, i: nat)
    requires IsRun(run) && i < |run|
    ensures LogInv(run[i])
  {
    if i == 0 {
      InitLog(run[0].c.status);
    } else {
      RunLog(run, i - 1);
      LogNext(run, i - 1);
    }
  }

  /**
   * Two successful ProxyRequests were never the same exchange, whatever ids their requests carry; they
   * returned in the order of their exchanges, and so no reply was delivered twice.
   */
  lemma NoResponseTwice(run: seq<State>, i: nat, a: nat, b: nat)
    requires IsRun(run) && i < |run| && a < b < |run[i].log|
    ensures var d, e := run[i].log[a], run[i].log[b];
            && d.slot < e.slot && 2 * e.slot + 1 < |run[i].w.replies|
            && d.head == run[i].w.replies[2 * d.slot] && d.body == run[i].w.replies[2 * d.slot + 1]
            && e.head == run[i].w.replies[2 * e.slot] && e.body == run[i].w.replies[2 * e.slot + 1]
  {
    RunLog(run, i);
    ResponseCorrelation(run, i, run[i].log[a]);
    ResponseCorrelation(run, i, run[i].log[b]);
  }
}
