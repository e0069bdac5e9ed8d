/**
 * The single-flight refresh of the client's token, client/wspLogin.go: any number of threads in
 * RefreshWspToken, with a step for every operation on the mutex and every access to a shared field.
 */
module TokenRefresh {
  import opened Types

  type Tid = nat

  /** What ZkCloud comes back with: an error somewhere on the way, or an answer. */
  datatype Outcome = Fails | Answers(killed: bool, token: string, clusterId: string)

  /** How a call of RefreshWspToken ends; a skipped call returns nil like a successful one. */
  datatype Result = Skipped | KilledError | Failed | Refreshed

  /** The fields of WspLogin; refreshInProgress is the guard. */
  datatype Fields = Fields(inProgress: bool, killed: bool, token: string, clusterId: string)

  datatype Pc =
    | Out
    | Want                          // before Lock
    | Test                          // lock held, test of refreshInProgress
    | SkipUnlock                    // found it set
    | SetUnlock                     // has set it
    | TestKilled
    | Updating                      // in updateAuthTokenFromZkCloud
    | StoreToken(a: Outcome)
    | StoreCluster(a: Outcome)
    | ClearWant(r: Result)          // back from it, before Lock
    | Clear(r: Result)
    | ClearUnlock(r: Result)

  /**
   * `log` are the results returned so far, `entries` counts the updates begun, and `stored` is the answer
   * whose token was stored last.
   */
  datatype State = State(f: Fields, lock: Option<Tid>, threads: map<Tid, Pc>, log: seq<Result>, entries: nat,
                         stored: Outcome)

  datatype Step = Call(t: Tid) | Go(t: Tid) | Hear(t: Tid, o: Outcome)

  const INIT_FIELDS := Fields(false, false, "", "")

  const INIT := State(INIT_FIELDS, None, map[], [], 0, Answers(false, "", ""))

  function PcOf(s: State, t: Tid): Pc {
    if t in s.threads then s.threads[t] else Out
  }

  predicate Enabled(s: State, step: Step) {
    match step
    case Call(t) => PcOf(s, t) == Out
    case Go(t) =>
      && PcOf(s, t) != Out && PcOf(s, t) != Updating
      && (PcOf(s, t) == Want || PcOf(s, t).ClearWant? ==> s.lock == None)
    case Hear(t, _) => PcOf(s, t) == Updating
  }

  function Move(s: State, t: Tid, pc: Pc): State {
    s.(threads := s.threads[t := pc])
  }

  function Return(s: State, t: Tid, r: Result): State {
    Move(s, t, Out).(log := s.log + [r])
  }

  function Apply(s: State, step: Step): State
    requires Enabled(s, step)
  {
    match step
    case Call(t) => Move(s, t, Want)
    case Hear(t, o) =>
      if o == Fails then Move(s, t, ClearWant(Failed))
      else Move(s, t, StoreToken(o)).(f := s.f.(killed := s.f.killed || o.killed))
    case Go(t) =>
      match PcOf(s, t)
      case Want => Move(s, t, Test).(lock := Some(t))
      case Test =>
        if s.f.inProgress then Move(s, t, SkipUnlock) else Move(s, t, SetUnlock).(f := s.f.(inProgress := true))
      case SkipUnlock => Return(s, t, Skipped).(lock := None)
      case SetUnlock => Move(s, t, TestKilled).(lock := None)
      case TestKilled =>
        if s.f.killed then Return(s, t, KilledError) else Move(s, t, Updating).(entries := s.entries + 1)
      case StoreToken(a) =>
        Move(s, t, StoreCluster(a)).(f := s.f.(token := if a.Answers? then a.token else s.f.token), stored := a)
      case StoreCluster(a) =>
        Move(s, t, ClearWant(Refreshed)).(f := s.f.(clusterId := if a.Answers? then a.clusterId else s.f.clusterId))
      case ClearWant(r) => Move(s, t, Clear(r)).(lock := Some(t))
      case Clear(r) => Move(s, t, ClearUnlock(r)).(f := s.f.(inProgress := false))
      case ClearUnlock(r) => Return(s, t, r).(lock := None)
      case _ => s
  }

  ghost predicate Moves(s: State, s': State) {
    exists step :: Enabled(s, step) && s' == Apply(s, step)
  }

  ghost predicate MovesAt(run: seq<State>, i: int)
    requires 0 <= i < |run| - 1
  {
    Moves(run[i], run[i + 1])
  }

  ghost predicate IsRun(run: seq<State>) {
    && |run| > 0 && run[0] == INIT
    && forall i :: 0 <= i < |run| - 1 ==> MovesAt(run, i)
  }

  // ---- The invariant ----

  ghost predicate InLock(pc: Pc) {
    pc == Test || pc == SkipUnlock || pc == SetUnlock || pc.Clear? || pc.ClearUnlock?
  }

  /** The thread that has set refreshInProgress and not cleared it. */
  ghost predicate Owner(pc: Pc) {
    && pc != Out && pc != Want && pc != Test && pc != SkipUnlock && !pc.ClearUnlock?
  }

  /** Inside updateAuthTokenFromZkCloud. */
  ghost predicate Inside(pc: Pc) { pc == Updating || pc.StoreToken? || pc.StoreCluster? }

  /** The killed error has been returned. */
  ghost predicate Stuck(s: State) { Count(s.log, KilledError) > 0 }

  ghost predicate At(s: State, t: Tid) {
    var pc := PcOf(s, t);
    && (InLock(pc) <==> s.lock == Some(t))
    && (Owner(pc) ==> s.f.inProgress && !Stuck(s))
    && (pc.ClearUnlock? ==> !s.f.inProgress)
    && (pc.ClearWant? || pc.Clear? || pc.ClearUnlock? ==> pc.r == Failed || pc.r == Refreshed)
    && (pc.StoreToken? || pc.StoreCluster? ==> pc.a.Answers? && (pc.a.killed ==> s.f.killed))
  }

  ghost predicate Exclusive(s: State, t: Tid, u: Tid) {
    Owner(PcOf(s, t)) && Owner(PcOf(s, u)) ==> t == u
  }

  ghost predicate Inv(s: State) {
    && (forall t: Tid :: At(s, t))
    && (forall t: Tid, u: Tid :: Exclusive(s, t, u))
    && (s.f.inProgress && !Stuck(s) ==> exists t: Tid :: Owner(PcOf(s, t)))
    && (Stuck(s) ==> s.f.inProgress && s.f.killed)
    && Count(s.log, KilledError) <= 1
  }

  ghost function Actor(step: Step): Tid {
    match step
    case Call(t) => t
    case Go(t) => t
    case Hear(t, _) => t
  }

  /** How often the killed error is returned. */
  lemma KillsStep(s: State, step: Step)
    requires Enabled(s, step) && At(s, Actor(step))
    ensures Count(Apply(s, step).log, KilledError) ==
            Count(s.log, KilledError) + if PcOf(s, Actor(step)) == TestKilled && step.Go? && s.f.killed then 1 else 0
  {
    CountAppend(s.log, KilledError, KilledError);
    CountAppend(s.log, Skipped, KilledError);
    CountAppend(s.log, Failed, KilledError);
    CountAppend(s.log, Refreshed, KilledError);
  }

  lemma AtActor(s: State, step: Step)
    requires Enabled(s, step) && At(s, Actor(step))
    requires Stuck(s) ==> s.f.inProgress
    ensures At(Apply(s, step), Actor(step))
  {
    KillsStep(s, step);
  }

  lemma AtOther(s: State, step: Step, u: Tid)
    requires Enabled(s, step) && u != Actor(step)
    requires At(s, Actor(step)) && At(s, u) && Exclusive(s, Actor(step), u)
    ensures At(Apply(s, step), u)
  {
    KillsStep(s, step);
    assert PcOf(Apply(s, step), u) == PcOf(s, u);
  }

  lemma ExclusiveStep(s: State, step: Step, t: Tid, u: Tid)
    requires Enabled(s, step) && At(s, t) && At(s, u) && Exclusive(s, t, u)
    ensures Exclusive(Apply(s, step), t, u)
  {
  }

  lemma GuardStep(s: State, step: Step)
    requires Inv(s) && Enabled(s, step)
    ensures var s' := Apply(s, step);
            && (s'.f.inProgress && !Stuck(s') ==> exists t: Tid :: Owner(PcOf(s', t)))
            && (Stuck(s') ==> s'.f.inProgress && s'.f.killed)
            && Count(s'.log, KilledError) <= 1
  {
    var s', a := Apply(s, step), Actor(step);
    assert At(s, a);
    KillsStep(s, step);
    if s'.f.inProgress && !Stuck(s') {
      if s.f.inProgress {
        var o: Tid :| Owner(PcOf(s, o));
        assert o != a ==> PcOf(s', o) == PcOf(s, o);
        assert Exclusive(s, o, a);
        assert Owner(PcOf(s', o)) || Owner(PcOf(s', a));
      } else {
        assert Owner(PcOf(s', a));
      }
    }
  }

  lemma StepInv(s: State, step: Step)
    requires Inv(s) && Enabled(s, step)
    ensures Inv(Apply(s, step))
  {
    var a := Actor(step);
    forall u: Tid ensures At(Apply(s, step), u) {
      assert At(s, a) && At(s, u) && Exclusive(s, a, u);
      if u == a {
        AtActor(s, step);
      } else {
        AtOther(s, step, u);
      }
    }
    forall t: Tid, u: Tid ensures Exclusive(Apply(s, step), t, u) {
      assert At(s, t) && At(s, u) && Exclusive(s, t, u);
      ExclusiveStep(s, step, t, u);
    }
    GuardStep(s, step);
  }

  lemma {:induction false} RunInv(run: seq<State>, i: nat)
    requires IsRun(run) && i < |run|
    ensures Inv(run[i])
  {
    if i > 0 {
      RunInv(run, i - 1);
      assert MovesAt(run, i - 1);
      var step :| Enabled(run[i - 1], step) && run[i] == Apply(run[i - 1], step);
      StepInv(run[i - 1], step);
    }
  }

  // ---- What holds of every run ----

  /** Single flight: at most one thread is inside updateAuthTokenFromZkCloud. */
  lemma SingleFlight(run: seq<State>, i: nat, t: Tid, u: Tid)
    requires IsRun(run) && i < |run| && Inside(PcOf(run[i], t)) && Inside(PcOf(run[i], u))
    ensures t == u && run[i].f.inProgress
  {
    RunInv(run, i);
    assert Exclusive(run[i], t, u) && At(run[i], t);
  }

  /** How the two credentials relate to the answer whose token was stored last. */
  ghost predicate Paired(s: State) {
    && s.stored.Answers? && s.f.token == s.stored.token
    && (forall t: Tid :: PcOf(s, t).StoreCluster? ==> PcOf(s, t).a == s.stored)
    && (s.f.clusterId == s.stored.clusterId || exists t: Tid :: PcOf(s, t).StoreCluster?)
  }

  lemma PairedStep(s: State, step: Step)
    requires Inv(s) && Paired(s) && Enabled(s, step)
    ensures Paired(Apply(s, step))
  {
    var s', a := Apply(s, step), Actor(step);
    assert At(s, a);
    forall t: Tid | PcOf(s', t).StoreCluster? ensures PcOf(s', t).a == s'.stored {
      assert t != a ==> PcOf(s', t) == PcOf(s, t);
      assert Exclusive(s, a, t);
    }
    if s'.f.clusterId != s'.stored.clusterId {
      if PcOf(s, a).StoreToken? {
        assert PcOf(s', a).StoreCluster?;
      } else {
        var t: Tid :| PcOf(s, t).StoreCluster?;
        assert PcOf(s', t).StoreCluster?;
      }
    }
  }

  lemma {:induction false} RunPaired(run: seq<State>, i: nat)
    requires IsRun(run) && i < |run|
    ensures Paired(run[i])
  {
    if i > 0 {
      RunPaired(run, i - 1);
      RunInv(run, i - 1);
      assert MovesAt(run, i - 1);
      var step :| Enabled(run[i - 1], step) && run[i] == Apply(run[i - 1], step);
      PairedStep(run[i - 1], step);
    }
  }

  /**
   * Although the two credentials are stored one after the other without a lock, they belong to the same
   * answer whenever no thread is inside the update.
   */
  lemma CredentialsBelongTogether(run: seq<State>, i: nat)
    requires IsRun(run) && i < |run| && forall t: Tid :: !Inside(PcOf(run[i], t))
    ensures run[i].stored.Answers?
    ensures run[i].f.token == run[i].stored.token && run[i].f.clusterId == run[i].stored.clusterId
  {
    RunPaired(run, i);
  }

  lemma KilledStep(s: State, step: Step, t: Tid)
    requires Enabled(s, step) && s.f.killed
    ensures Apply(s, step).f.killed && Apply(s, step).entries == s.entries
    ensures Inside(PcOf(Apply(s, step), t)) ==> Inside(PcOf(s, t))
  {
  }

  /** Once `killed` is set it stays set, and no thread enters updateAuthTokenFromZkCloud any more. */
  lemma {:induction false} NoneEntersAfterKilled(run: seq<State>, i: nat, j: nat, t: Tid)
    requires IsRun(run) && i <= j < |run| && run[i].f.killed
    ensures run[j].f.killed && run[j].entries == run[i].entries
    ensures Inside(PcOf(run[j], t)) ==> Inside(PcOf(run[i], t))
    decreases j
  {
    if i < j {
      NoneEntersAfterKilled(run, i, j - 1, t);
      assert MovesAt(run, j - 1);
      var step :| Enabled(run[j - 1], step) && run[j] == Apply(run[j - 1], step);
      KilledStep(run[j - 1], step, t);
    }
  }

  /**
   * While no thread owns it, the guard is set exactly when the killed error was returned, which happens at
   * most once: that return path leaves refreshInProgress set.
   */
  lemma GuardLeak(run: seq<State>, i: nat)
    requires IsRun(run) && i < |run|
    ensures Count(run[i].log, KilledError) <= 1
    ensures (forall t: Tid :: !Owner(PcOf(run[i], t))) ==> (run[i].f.inProgress <==> KilledError in run[i].log)
  {
    RunInv(run, i);
    CountPositive(run[i].log, KilledError);
  }

  lemma StuckStep(s: State, step: Step)
    requires Inv(s) && Enabled(s, step) && Stuck(s)
    ensures Apply(s, step).log == s.log || Apply(s, step).log == s.log + [Skipped]
  {
    assert At(s, Actor(step));
  }

  lemma StuckNext(run: seq<State>, j: nat)
    requires IsRun(run) && j + 1 < |run| && KilledError in run[j].log
    ensures run[j + 1].log == run[j].log || run[j + 1].log == run[j].log + [Skipped]
  {
    RunInv(run, j);
    CountPositive(run[j].log, KilledError);
    assert MovesAt(run, j);
    var step :| Enabled(run[j], step) && run[j + 1] == Apply(run[j], step);
    StuckStep(run[j], step);
  }

  /** After the killed error was returned once, every call that returns is a skipped one, and returns nil. */
  lemma {:induction false} SkippedForever(run: seq<State>, i: nat, j: nat)
    requires IsRun(run) && i <= j < |run| && KilledError in run[i].log
    ensures run[i].log <= run[j].log
    ensures forall k :: |run[i].log| <= k < |run[j].log| ==> run[j].log[k] == Skipped
    decreases j
  {
    if i < j {
      SkippedForever(run, i, j - 1);
      assert run[j - 1].log[..|run[i].log|] == run[i].log;
      StuckNext(run, j - 1);
    }
  }

  // ---- One call on its own ----

  /** The fields and the result after a call that no other thread interrupts. */
  function Refresh(f: Fields, o: Outcome): (Fields, Result) {
    if f.inProgress then (f, Skipped)
    else if f.killed then (f.(inProgress := true), KilledError)
    else if o == Fails then (f, Failed)
    else (Fields(false, o.killed, o.token, o.clusterId), Refreshed)
  }

  ghost predicate Leads(s: State, steps: seq<Step>, s': State)
    decreases |steps|
  {
    if steps == [] then s == s' else Enabled(s, steps[0]) && Leads(Apply(s, steps[0]), steps[1..], s')
  }

  lemma Prepend(s: State, step: Step, steps: seq<Step>, s': State)
    requires Enabled(s, step) && Leads(Apply(s, step), steps, s')
    ensures Leads(s, [step] + steps, s')
  {
    assert ([step] + steps)[1..] == steps;
  }

  ghost predicate Finished(s: State, t: Tid, s': State, f: Fields, r: Result) {
    && s'.f == f && s'.log == s.log + [r] && s'.lock == None && PcOf(s', t) == Out
    && forall u: Tid :: u != t ==> PcOf(s', u) == PcOf(s, u)
  }

  function NextStep(s: State, t: Tid, o: Outcome): Step {
    if PcOf(s, t) == Updating then Hear(t, o) else Go(t)
  }

  ghost predicate Midway(s: State, t: Tid) {
    PcOf(s, t) != Out && if InLock(PcOf(s, t)) then s.lock == Some(t) else s.lock == None
  }

  /** One step further: the call is over, or it stands before the same ending with fewer steps left. */
  lemma FinishStep(s: State, t: Tid, o: Outcome)
    requires Midway(s, t)
    ensures Enabled(s, NextStep(s, t, o))
    ensures var next := Apply(s, NextStep(s, t, o));
            var (f, r) := Ending(s.f, PcOf(s, t), o);
            if PcOf(next, t) == Out then Finished(s, t, next, f, r)
            else
              && Midway(next, t) && Left(PcOf(next, t)) < Left(PcOf(s, t)) && next.log == s.log
              && Ending(next.f, PcOf(next, t), o) == (f, r)
              && forall u: Tid :: u != t ==> PcOf(next, u) == PcOf(s, u)
  {
  }

  /** From the middle of a call to its end. */
  lemma {:induction false} Finish(s: State, t: Tid, o: Outcome) returns (steps: seq<Step>, s': State)
    requires Midway(s, t)
    ensures Leads(s, steps, s') && Finished(s, t, s', Ending(s.f, PcOf(s, t), o).0, Ending(s.f, PcOf(s, t), o).1)
    decreases Left(PcOf(s, t))
  {
    var step := NextStep(s, t, o);
    FinishStep(s, t, o);
    var next := Apply(s, step);
    if PcOf(next, t) == Out {
      steps, s' := [], next;
    } else {
      steps, s' := Finish(next, t, o);
    }
    Prepend(s, step, steps, s');
    steps := [step] + steps;
  }

  /** An upper bound for the steps left in a call. */
  function Left(pc: Pc): nat {
    match pc
    case Out => 0
    case Want => 10
    case Test => 9
    case SkipUnlock => 1
    case SetUnlock => 8
    case TestKilled => 7
    case Updating => 6
    case StoreToken(_) => 5
    case StoreCluster(_) => 4
    case ClearWant(_) => 3
    case Clear(_) => 2
    case ClearUnlock(_) => 1
  }

  /** The fields and the result at the end of a call that stands at `pc`. */
  function Ending(f: Fields, pc: Pc, o: Outcome): (Fields, Result) {
    match pc
    case Out => (f, Skipped)
    case Want => Refresh(f, o)
    case Test => Refresh(f, o)
    case SkipUnlock => (f, Skipped)
    case SetUnlock => if f.killed then (f, KilledError) else Heard(f, o)
    case TestKilled => if f.killed then (f, KilledError) else Heard(f, o)
    case Updating => Heard(f, o)
    case StoreToken(a) =>
      (f.(inProgress := false, token := if a.Answers? then a.token else f.token,
          clusterId := if a.Answers? then a.clusterId else f.clusterId), Refreshed)
    case StoreCluster(a) =>
      (f.(inProgress := false, clusterId := if a.Answers? then a.clusterId else f.clusterId), Refreshed)
    case ClearWant(r) => (f.(inProgress := false), r)
    case Clear(r) => (f.(inProgress := false), r)
    case ClearUnlock(r) => (f, r)
  }

  function Heard(f: Fields, o: Outcome): (Fields, Result) {
    if o == Fails then (f.(inProgress := false), Failed)
    else (Fields(false, f.killed || o.killed, o.token, o.clusterId), Refreshed)
  }

  /** A call that is not interrupted is a run of the step system from before Lock to its return. */
  lemma Uninterrupted(s: State, t: Tid, o: Outcome) returns (steps: seq<Step>, s': State)
    requires PcOf(s, t) == Out && s.lock == None
    ensures Leads(s, steps, s') && Finished(s, t, s', Refresh(s.f, o).0, Refresh(s.f, o).1)
  {
    steps, s' := Finish(Apply(s, Call(t)), t, o);
    Prepend(s, Call(t), steps, s');
    steps := [Call(t)] + steps;
  }

  // ---- The guard that stays set ----

  lemma {:induction false} LeadsToRun(run: seq<State>, steps: seq<Step>, s': State) returns (longer: seq<State>)
    requires IsRun(run) && Leads(run[|run| - 1], steps, s')
    ensures IsRun(longer) && longer[|longer| - 1] == s'
    decreases |steps|
  {
    longer := run;
    if steps != [] {
      var next := Apply(run[|run| - 1], steps[0]);
      assert Moves(run[|run| - 1], next);
      var more := run + [next];
      forall i | 0 <= i < |more| - 1 ensures MovesAt(more, i) {
        assert i < |run| - 1 ==> MovesAt(run, i);
      }
      longer := LeadsToRun(more, steps[1..], s');
    }
  }

  /**
   * The leak is reachable: one call learns that the cluster is killed, and the next leaves the guard set with
   * nobody in the middle of a call.
   */
  lemma GuardLeaks() returns (run: seq<State>)
    ensures IsRun(run)
    ensures var s := run[|run| - 1];
            && s.f.inProgress && s.log == [Refreshed, KilledError] && forall t: Tid :: PcOf(s, t) == Out
  {
    var steps1, s1 := Uninterrupted(INIT, 0, Answers(true, "", ""));
    run := LeadsToRun([INIT], steps1, s1);
    var steps2, s2 := Uninterrupted(s1, 0, Fails);
    run := LeadsToRun(run, steps2, s2);
  }

  /** Who takes a step. */
  ghost predicate Alone(steps: seq<Step>, t: Tid) {
    forall i :: 0 <= i < |steps| ==> Actor(steps[i]) == t
  }

  /** Is refreshInProgress set when the call that stands at `pc` has returned? */
  ghost predicate GuardAfter(f: Fields, pc: Pc) {
    match pc
    case Out | Want | Test => f.inProgress || f.killed
    case SkipUnlock | ClearUnlock(_) => f.inProgress
    case SetUnlock | TestKilled => f.inProgress && f.killed
    case _ => false
  }

  /** A thread in the middle of a call returns at least once more before it is out again. */
  lemma {:induction false} ReturnsLater(s: State, t: Tid, steps: seq<Step>, s': State)
    requires Leads(s, steps, s') && Alone(steps, t) && PcOf(s', t) == Out
    ensures |s'.log| >= |s.log| + if PcOf(s, t) == Out && steps == [] then 0 else 1
    decreases |steps|
  {
    if steps != [] {
      assert Actor(steps[0]) == t;
      forall i | 0 <= i < |steps[1..]| ensures Actor(steps[1..][i]) == t {
        assert steps[1..][i] == steps[i + 1];
      }
      ReturnsLater(Apply(s, steps[0]), t, steps[1..], s');
    }
  }

  lemma {:induction false} GuardSettles(s: State, t: Tid, steps: seq<Step>, s': State)
    requires PcOf(s, t) != Out && Leads(s, steps, s') && Alone(steps, t)
    requires PcOf(s', t) == Out && |s'.log| == |s.log| + 1
    ensures s'.f.inProgress <==> GuardAfter(s.f, PcOf(s, t))
    decreases |steps|
  {
    var next := Apply(s, steps[0]);
    assert Actor(steps[0]) == t;
    forall i | 0 <= i < |steps[1..]| ensures Actor(steps[1..][i]) == t {
      assert steps[1..][i] == steps[i + 1];
    }
    ReturnsLater(next, t, steps[1..], s');
    if PcOf(next, t) != Out {
      GuardSettles(next, t, steps[1..], s');
    }
  }

  /**
   * A call that no other call overlaps, from a clear guard, leaves the guard set exactly when `killed` was set
   * before the call.
   */
  lemma LeavesGuardIffKilled(s: State, t: Tid, steps: seq<Step>, s': State)
    requires PcOf(s, t) == Out && !s.f.inProgress
    requires Leads(s, steps, s') && Alone(steps, t) && PcOf(s', t) == Out && |s'.log| == |s.log| + 1
    ensures s'.f.inProgress <==> s.f.killed
  {
    assert steps != [] && Actor(steps[0]) == t;
    forall i | 0 <= i < |steps[1..]| ensures Actor(steps[1..][i]) == t {
      assert steps[1..][i] == steps[i + 1];
    }
    GuardSettles(Apply(s, steps[0]), t, steps[1..], s');
  }

  /** The object as the source has it. */
  class WspLogin {
    var refreshInProgress: bool
    var killed: bool
    var authToken: string
    var clusterId: string

    constructor ()
      ensures Now() == INIT_FIELDS
    {
      refreshInProgress, killed := false, false;
      authToken, clusterId := "", "";
    }

    ghost function Now(): Fields
      reads this
    {
      Fields(refreshInProgress, killed, authToken, clusterId)
    }

    method UpdateAuthToken(o: Outcome) returns (ok: bool)
      modifies this`killed, this`authToken, this`clusterId
      ensures ok <==> o.Answers?
      ensures Now() == if ok then Fields(old(refreshInProgress), old(killed) || o.killed, o.token, o.clusterId)
                       else old(Now())
    {
      if o == Fails {
        return false;
      }
      if o.killed {
        killed := true;
      }
      authToken := o.token;
      clusterId := o.clusterId;
      return true;
    }

    method RefreshWspToken(o: Outcome) returns (r: Result)
      modifies this
      ensures (Now(), r) == Refresh(old(Now()), o)
    {
      if refreshInProgress {
        return Skipped;
      }
      refreshInProgress := true;
      if killed {
        return KilledError;
      }
      var ok := UpdateAuthToken(o);
      refreshInProgress := false;
      return if ok then Refreshed else Failed;
    }

    /** CreateWspLogin: the first refresh must have an answer, even if only to say that the cluster is killed. */
    static method Create(o: Outcome) returns (login: Option<WspLogin>)
      ensures login.Some? <==> o.Answers?
      ensures login.Some? ==> fresh(login.value) && login.value.Now() == Fields(false, o.killed, o.token, o.clusterId)
    {
      var h := new WspLogin();
      var r := h.RefreshWspToken(o);
      return if r == KilledError || r == Failed then None else Some(h);
    }
  }
}
