/**
 * The serving end of a websocket, common/readConnection.go: the loop that answers a
 * request (two data messages) with a response (two data messages).
 *
 * `Next` is one fallible operation of the loop; `ReadConnection.Start` is the loop itself,
 * proved to be a sequence of such operations.
 */
module Serving {
  import opened Types

  datatype PeerPc =
    | AwaitRequest             // ws.ReadMessage
    | Decode                   // json.Unmarshal
    | Unserialize              // wsp.UnserializeHTTPRequest
    | AwaitBody                // ws.NextReader
    | Execute                  // httpClient.Do
    | Serialize                // json.Marshal of the response
    | WriteHead                // ws.WriteMessage of the response
    | OpenBody                 // ws.NextWriter
    | CopyBody                 // io.Copy of the response body
    | CloseBody                // bodyWriter.Close, which completes the body message
    | ErrMarshal(again: bool)  // connection.error: `again` when its success is followed by `continue`
    | ErrHead(again: bool)
    | ErrBody(again: bool)
    | Stopped                  // left the loop

  /** consumed/produced count whole data messages; `failed` remembers a failed write. */
  datatype Peer = Peer(pc: PeerPc, consumed: nat, produced: nat, served: nat, failed: bool)

  const INIT := Peer(AwaitRequest, 0, 0, 0, false)

  /** One operation of the loop, which succeeds or fails. */
  function Next(p: Peer, ok: bool): Peer {
    match p.pc
    case AwaitRequest => if ok then p.(pc := Decode, consumed := p.consumed + 1) else p.(pc := Stopped)
    case Decode => p.(pc := if ok then Unserialize else ErrMarshal(false))
    case Unserialize => p.(pc := if ok then AwaitBody else ErrMarshal(false))
    case AwaitBody => if ok then p.(pc := Execute, consumed := p.consumed + 1) else p.(pc := Stopped)
    case Execute => p.(pc := if ok then Serialize else ErrMarshal(true))
    case Serialize => p.(pc := if ok then WriteHead else ErrMarshal(true))
    case WriteHead =>
      if ok then p.(pc := OpenBody, produced := p.produced + 1) else p.(pc := Stopped, failed := true)
    case OpenBody => if ok then p.(pc := CopyBody) else p.(pc := Stopped, failed := true)
    case CopyBody => if ok then p.(pc := CloseBody) else p.(pc := Stopped, failed := true)
    case CloseBody =>
      // An error of Close is logged and the loop goes on.
      p.(pc := AwaitRequest, served := p.served + 1,
         produced := p.produced + (if ok then 1 else 0), failed := p.failed || !ok)
    case ErrMarshal(again) => if ok then p.(pc := ErrHead(again)) else p.(pc := Stopped)
    case ErrHead(again) =>
      if ok then p.(pc := ErrBody(again), produced := p.produced + 1) else p.(pc := Stopped, failed := true)
    case ErrBody(again) =>
      if !ok then p.(pc := Stopped, failed := true)
      else if again then p.(pc := AwaitRequest, produced := p.produced + 1, served := p.served + 1)
      else p.(pc := Stopped, produced := p.produced + 1)
    case Stopped => p
  }

  function Run(p: Peer, outcomes: seq<bool>): Peer
    decreases |outcomes|
  {
    if outcomes == [] then p else Next(Run(p, outcomes[..|outcomes| - 1]), outcomes[|outcomes| - 1])
  }

  /** Where the counters stand at each point of the loop. */
  ghost predicate Balanced(p: Peer) {
    match p.pc
    case AwaitRequest => p.consumed == 2 * p.served && (!p.failed ==> p.produced == 2 * p.served)
    case Decode | Unserialize | AwaitBody =>
      p.consumed == 2 * p.served + 1 && (!p.failed ==> p.produced == 2 * p.served)
    case Execute | Serialize | WriteHead | ErrMarshal(true) | ErrHead(true) =>
      p.consumed == 2 * p.served + 2 && (!p.failed ==> p.produced == 2 * p.served)
    case OpenBody | CopyBody | CloseBody | ErrBody(true) =>
      p.consumed == 2 * p.served + 2 && (!p.failed ==> p.produced == 2 * p.served + 1)
    case ErrMarshal(false) | ErrHead(false) =>
      p.consumed == 2 * p.served + 1 && (!p.failed ==> p.produced == 2 * p.served)
    case ErrBody(false) => p.consumed == 2 * p.served + 1 && (!p.failed ==> p.produced == 2 * p.served + 1)
    case Stopped => true
  }

  lemma NextBalanced(p: Peer, ok: bool)
    requires Balanced(p)
    ensures Balanced(Next(p, ok))
  {
  }

  lemma {:induction false} RunBalanced(outcomes: seq<bool>)
    ensures Balanced(Run(INIT, outcomes))
    decreases |outcomes|
  {
    if outcomes != [] {
      RunBalanced(outcomes[..|outcomes| - 1]);
      NextBalanced(Run(INIT, outcomes[..|outcomes| - 1]), outcomes[|outcomes| - 1]);
    }
  }

  /** At every loop head of every run without a failed write: consumed == produced == 2 * served. */
  lemma LoopHeadDiscipline(outcomes: seq<bool>)
    requires Run(INIT, outcomes).pc == AwaitRequest
    requires !Run(INIT, outcomes).failed
    ensures var p := Run(INIT, outcomes); p.consumed == p.produced == 2 * p.served
  {
    RunBalanced(outcomes);
  }

  /** The outcomes of the operations of one iteration, whichever of them are reached. */
  datatype Round = Round(read: bool, decode: bool, unserialize: bool, body: bool, execute: bool,
                         serialize: bool, head: bool, open: bool, copy: bool, close: bool,
                         errMarshal: bool, errHead: bool, errBody: bool)

  function Outcome(pc: PeerPc, r: Round): bool {
    match pc
    case AwaitRequest => r.read
    case Decode => r.decode
    case Unserialize => r.unserialize
    case AwaitBody => r.body
    case Execute => r.execute
    case Serialize => r.serialize
    case WriteHead => r.head
    case OpenBody => r.open
    case CopyBody => r.copy
    case CloseBody => r.close
    case ErrMarshal(_) => r.errMarshal
    case ErrHead(_) => r.errHead
    case ErrBody(_) => r.errBody
    case Stopped => false
  }

  function Order(pc: PeerPc): nat {
    match pc
    case Decode => 12
    case Unserialize => 11
    case AwaitBody => 10
    case Execute => 9
    case Serialize => 8
    case WriteHead => 7
    case OpenBody => 6
    case CopyBody => 5
    case CloseBody => 4
    case ErrMarshal(_) => 3
    case ErrHead(_) => 2
    case ErrBody(_) => 1
    case AwaitRequest | Stopped => 0
  }

  /** From the middle of an iteration to its end: the loop head again, or out of the loop. */
  function Finish(p: Peer, r: Round): Peer
    decreases Order(p.pc)
  {
    if p.pc == AwaitRequest || p.pc == Stopped then p else Finish(Next(p, Outcome(p.pc, r)), r)
  }

  function Iterate(p: Peer, rounds: seq<Round>): Peer
    decreases |rounds|
  {
    if rounds == [] then p
    else
      var q := Iterate(p, rounds[..|rounds| - 1]);
      if q.pc == Stopped then q else Finish(Next(q, rounds[|rounds| - 1].read), rounds[|rounds| - 1])
  }

  /** From `pc`, do the outcomes lead back to the loop head? */
  predicate Survives(pc: PeerPc, r: Round) {
    match pc
    case AwaitRequest => true
    case Decode => r.decode && r.unserialize && r.body && Answers(r)
    case Unserialize => r.unserialize && r.body && Answers(r)
    case AwaitBody => r.body && Answers(r)
    case Execute => Answers(r)
    case Serialize => if r.serialize then r.head && r.open && r.copy else r.errMarshal && r.errHead && r.errBody
    case WriteHead => r.head && r.open && r.copy
    case OpenBody => r.open && r.copy
    case CopyBody => r.copy
    case CloseBody => true
    case ErrMarshal(again) => again && r.errMarshal && r.errHead && r.errBody
    case ErrHead(again) => again && r.errHead && r.errBody
    case ErrBody(again) => again && r.errBody
    case Stopped => false
  }

  predicate Answers(r: Round) {
    if r.execute && r.serialize then r.head && r.open && r.copy else r.errMarshal && r.errHead && r.errBody
  }

  /** What it takes for an iteration to come back to the loop head. */
  predicate Continues(r: Round) {
    r.read && r.decode && r.unserialize && r.body && Answers(r)
  }

  /** Data messages still to be written from `pc` when nothing fails. */
  function Owed(pc: PeerPc): nat {
    match pc
    case OpenBody | CopyBody | CloseBody | ErrBody(_) => 1
    case AwaitRequest | Stopped => 0
    case _ => 2
  }

  lemma {:induction false} FinishValue(p: Peer, r: Round)
    ensures var q := Finish(p, r);
            && (q.pc == AwaitRequest || q.pc == Stopped)
            && (q.pc == AwaitRequest <==> Survives(p.pc, r))
            && (q.pc == AwaitRequest ==>
                  && q.consumed == p.consumed + (if p.pc in {Decode, Unserialize, AwaitBody} then 1 else 0)
                  && q.served == p.served + (if p.pc == AwaitRequest then 0 else 1)
                  && if q.produced == p.produced + Owed(p.pc) then q.failed == p.failed
                     else q.produced + 1 == p.produced + Owed(p.pc) && q.failed && !r.close)
    decreases Order(p.pc)
  {
    if p.pc != AwaitRequest && p.pc != Stopped {
      FinishValue(Next(p, Outcome(p.pc, r)), r);
    }
  }

  /**
   * A finished iteration is back at the head exactly when it `Continues`; every other path leaves.
   * Back at the head, two messages were consumed and two produced, or the last Close failed.
   */
  lemma IterationEnds(p: Peer, r: Round)
    requires p.pc == AwaitRequest
    ensures var q := Finish(Next(p, r.read), r);
            && (q.pc == AwaitRequest <==> Continues(r))
            && (q.pc == Stopped <==> !Continues(r))
            && (Continues(r) ==>
                  && q.consumed == p.consumed + 2 && q.served == p.served + 1
                  && if q.produced == p.produced + 2 then q.failed == p.failed
                     else q.produced == p.produced + 1 && q.failed && !r.close)
  {
    FinishValue(Next(p, r.read), r);
  }

  /** How many data messages the error reply of a round gets written: none, its header, or both. */
  function Reply527(r: Round): nat {
    if r.errMarshal && r.errHead then (if r.errBody then 2 else 1) else 0
  }

  /** How many data messages an iteration writes, on every path. */
  function Written(r: Round): nat {
    if !r.read then 0
    else if !r.decode || !r.unserialize then Reply527(r)
    else if !r.body then 0
    else if !r.execute || !r.serialize then Reply527(r)
    else if !r.head then 0
    else if r.open && r.copy && r.close then 2
    else 1
  }

  /** How many it reads: none, the header of a request, or both messages of it. */
  function Taken(r: Round): nat {
    if !r.read then 0 else if r.decode && r.unserialize && r.body then 2 else 1
  }

  /** The same from the middle of an iteration. */
  function WrittenFrom(pc: PeerPc, r: Round): nat {
    match pc
    case AwaitRequest | Stopped => 0
    case Decode => Written(r.(read := true))
    case Unserialize => Written(r.(read := true, decode := true))
    case AwaitBody => Written(r.(read := true, decode := true, unserialize := true))
    case Execute => Written(r.(read := true, decode := true, unserialize := true, body := true))
    case Serialize => Written(r.(read := true, decode := true, unserialize := true, body := true, execute := true))
    case WriteHead => if r.head then (if r.open && r.copy && r.close then 2 else 1) else 0
    case OpenBody => if r.open && r.copy && r.close then 1 else 0
    case CopyBody => if r.copy && r.close then 1 else 0
    case CloseBody => if r.close then 1 else 0
    case ErrMarshal(_) => Reply527(r)
    case ErrHead(_) => Reply527(r.(errMarshal := true))
    case ErrBody(_) => if r.errBody then 1 else 0
  }

  function TakenFrom(pc: PeerPc, r: Round): nat {
    match pc
    case Decode => if r.decode && r.unserialize && r.body then 1 else 0
    case Unserialize => if r.unserialize && r.body then 1 else 0
    case AwaitBody => if r.body then 1 else 0
    case _ => 0
  }

  lemma NextWrites(p: Peer, r: Round)
    requires p.pc != AwaitRequest && p.pc != Stopped
    ensures var q := Next(p, Outcome(p.pc, r)); q.produced + WrittenFrom(q.pc, r) == p.produced + WrittenFrom(p.pc, r)
  {
  }

  lemma NextTakes(p: Peer, r: Round)
    requires p.pc != AwaitRequest && p.pc != Stopped
    ensures var q := Next(p, Outcome(p.pc, r)); q.consumed + TakenFrom(q.pc, r) == p.consumed + TakenFrom(p.pc, r)
  {
  }

  lemma {:induction false} FinishWrites(p: Peer, r: Round)
    ensures var q := Finish(p, r);
            && q.produced == p.produced + WrittenFrom(p.pc, r)
            && q.consumed == p.consumed + TakenFrom(p.pc, r)
    decreases Order(p.pc)
  {
    if p.pc != AwaitRequest && p.pc != Stopped {
      var next := Advance(p, r);
      NextWrites(p, r);
      NextTakes(p, r);
      FinishWrites(next, r);
    }
  }

  /**
   * How many messages an iteration reads and writes, whether it comes back to the head or leaves. A request that
   * cannot be decoded is answered by the two messages of the error reply before the loop is left.
   */
  lemma IterationMessages(p: Peer, r: Round)
    requires p.pc == AwaitRequest
    ensures var q := Finish(Next(p, r.read), r);
            && q.consumed == p.consumed + Taken(r) && q.produced == p.produced + Written(r)
            && (r.read && !r.decode && r.errMarshal && r.errHead && r.errBody ==>
                  q.pc == Stopped && q.consumed == p.consumed + 1 && q.produced == p.produced + 2)
  {
    FinishWrites(Next(p, r.read), r);
    FinishValue(Next(p, r.read), r);
  }

  /** One operation further into an iteration. */
  ghost function Advance(p: Peer, r: Round): (q: Peer)
    requires p.pc != AwaitRequest && p.pc != Stopped
    ensures q == Next(p, Outcome(p.pc, r)) && Finish(p, r) == Finish(q, r)
  {
    Next(p, Outcome(p.pc, r))
  }

  lemma {:induction false} StoppedStays(rounds: seq<Round>, i: nat)
    requires i <= |rounds| && Iterate(INIT, rounds[..i]).pc == Stopped
    ensures Iterate(INIT, rounds) == Iterate(INIT, rounds[..i])
    decreases |rounds| - i
  {
    if i < |rounds| {
      assert rounds[..i + 1][..i] == rounds[..i];
      StoppedStays(rounds, i + 1);
    } else {
      assert rounds[..i] == rounds;
    }
  }

  /** An iteration is a run of single operations, so what holds of runs holds at every loop head. */
  lemma {:induction false} FinishIsRun(p: Peer, r: Round, before: seq<bool>) returns (after: seq<bool>)
    requires p == Run(INIT, before)
    ensures Finish(p, r) == Run(INIT, after)
    decreases Order(p.pc)
  {
    after := before;
    if p.pc != AwaitRequest && p.pc != Stopped {
      var ok := Outcome(p.pc, r);
      assert (before + [ok])[..|before + [ok]| - 1] == before;
      after := FinishIsRun(Next(p, ok), r, before + [ok]);
    }
  }

  lemma {:induction false} IterateIsRun(rounds: seq<Round>) returns (outcomes: seq<bool>)
    ensures Iterate(INIT, rounds) == Run(INIT, outcomes)
    decreases |rounds|
  {
    outcomes := [];
    if rounds != [] {
      outcomes := IterateIsRun(rounds[..|rounds| - 1]);
      var q := Iterate(INIT, rounds[..|rounds| - 1]);
      if q.pc != Stopped {
        var ok := rounds[|rounds| - 1].read;
        IterateAtEnds(rounds[..|rounds| - 1]);
        assert (outcomes + [ok])[..|outcomes + [ok]| - 1] == outcomes;
        outcomes := FinishIsRun(Next(q, ok), rounds[|rounds| - 1], outcomes + [ok]);
      }
    }
  }

  lemma {:induction false} IterateAtEnds(rounds: seq<Round>)
    ensures var q := Iterate(INIT, rounds); q.pc == AwaitRequest || q.pc == Stopped
    decreases |rounds|
  {
    if rounds != [] {
      IterateAtEnds(rounds[..|rounds| - 1]);
      FinishValue(Next(Iterate(INIT, rounds[..|rounds| - 1]), rounds[|rounds| - 1].read), rounds[|rounds| - 1]);
    }
  }

  /** The serving end as the source has it: a record whose loop updates `status` in place. */
  class ReadConnection {
    const pool: object                     // the pool that created it
    const idleSince: int := ZERO_TIME      // no assignment to this field anywhere in the source
    var status: Status
    var wsClosed: bool
    // How the websocket traffic of the loop is counted.
    var consumed: nat
    var produced: nat
    var served: nat
    var failed: bool

    constructor (pool: object, initial: Status)
      ensures this.pool == pool && status == initial && !wsClosed
      ensures consumed == produced == served == 0 && !failed
    {
      this.pool := pool;
      status := initial;
      wsClosed := false;
      consumed, produced, served, failed := 0, 0, 0, false;
    }

    /** The counters as a state of the loop at `pc`. */
    ghost function At(pc: PeerPc): Peer
      reads this
    {
      Peer(pc, consumed, produced, served, failed)
    }

    /**
     * `connection.error`: answers a request with a 527 header and a message.
     * `again` is what the caller does after success.
     */
    method SendError(r: Round, ghost again: bool) returns (ok: bool)
      modifies this`produced, this`failed
      ensures ok == (r.errMarshal && r.errHead && r.errBody)
      ensures produced == old(produced) + (if r.errMarshal && r.errHead then (if r.errBody then 2 else 1) else 0)
      ensures failed == (old(failed) || (r.errMarshal && !(r.errHead && r.errBody)))
      ensures Finish(old(At(ErrMarshal(again))), r) ==
              At(if ok && again then AwaitRequest else Stopped).(served := served + if ok && again then 1 else 0)
    {
      ghost var p := Advance(At(ErrMarshal(again)), r);
      if !r.errMarshal {
        return false;
      }
      p := Advance(p, r);
      if !r.errHead {
        failed := true;
        return false;
      }
      produced := produced + 1;
      p := Advance(p, r);
      if !r.errBody {
        failed := true;
        return false;
      }
      produced := produced + 1;
      return true;
    }

    /** Decodes the request and waits for its body; `stop` tells that it ended in `break`. */
    method Receive(r: Round) returns (stop: bool)
      modifies this`consumed, this`produced, this`failed
      ensures stop <==> !(r.decode && r.unserialize && r.body)
      ensures Finish(old(At(Decode)), r) == if stop then At(Stopped) else Finish(At(PeerPc.Execute), r)
    {
      ghost var p := At(Decode);
      p := Advance(p, r);
      if !r.decode {
        var _ := SendError(r, false);
        return true;
      }
      p := Advance(p, r);
      if !r.unserialize {
        var _ := SendError(r, false);
        return true;
      }
      p := Advance(p, r);
      if !r.body {
        return true;
      }
      consumed := consumed + 1;
      return false;
    }

    /** One iteration of the loop; `stop` tells that it ended in `break`. */
    method ServeOne(r: Round) returns (stop: bool)
      requires status == Idle
      modifies this`status, this`consumed, this`produced, this`served, this`failed
      ensures stop <==> !Continues(r)
      ensures At(if stop then Stopped else AwaitRequest) == Finish(Next(old(At(AwaitRequest)), r.read), r)
      ensures status != Closed && (!stop ==> served == old(served) + 1)
    {
      if !r.read {
        return true;
      }
      consumed := consumed + 1;
      status := Busy;
      stop := Receive(r);
      if !stop {
        stop := Execute(r);
      }
    }

    /** Executes the request and answers it, if need be with an error response. */
    method Execute(r: Round) returns (stop: bool)
      modifies this`produced, this`served, this`failed
      ensures stop <==> !Answers(r)
      ensures At(if stop then Stopped else AwaitRequest) == Finish(old(At(PeerPc.Execute)), r)
      ensures !stop ==> served == old(served) + 1
    {
      ghost var p := Advance(At(PeerPc.Execute), r);
      if !r.execute {
        var ok := SendError(r, true);
        if ok {
          served := served + 1;
        }
        return !ok;
      }
      p := Advance(p, r);
      if !r.serialize {
        var ok := SendError(r, true);
        if ok {
          served := served + 1;
        }
        return !ok;
      }
      p := Advance(p, r);
      stop := Answer(r);
    }

    /** The response and its body; `stop` tells that a write failed before the body was complete. */
    method Answer(r: Round) returns (stop: bool)
      modifies this`produced, this`served, this`failed
      ensures stop <==> !(r.head && r.open && r.copy)
      ensures At(if stop then Stopped else AwaitRequest) == Finish(old(At(WriteHead)), r)
      ensures !stop ==> served == old(served) + 1
    {
      ghost var p := At(WriteHead);
      p := Advance(p, r);
      if !r.head {
        failed := true;
        return true;
      }
      produced := produced + 1;
      p := Advance(p, r);
      if !r.open {
        failed := true;
        return true;
      }
      p := Advance(p, r);
      if !r.copy {
        failed := true;
        return true;
      }
      p := Advance(p, r);
      if r.close {
        produced := produced + 1;
      } else {
        failed := true;
      }
      served := served + 1;
      return false;
    }

    method Close()
      modifies this`status, this`wsClosed
      ensures status == Closed
      ensures wsClosed == (old(wsClosed) || old(status) != Closed)
    {
      if status == Closed {
        return;
      }
      wsClosed := true;
      status := Closed;
    }

    /** Sets the status at the loop head, and does one iteration. */
    method Turn(r: Round, ghost before: seq<Round>) returns (stop: bool)
      requires status == Idle && At(AwaitRequest) == Iterate(INIT, before)
      modifies this`status, this`consumed, this`produced, this`served, this`failed
      ensures stop <==> !Continues(r)
      ensures At(if stop then Stopped else AwaitRequest) == Iterate(INIT, before + [r])
      ensures if stop then status != Closed else status == Idle && served == old(served) + 1
    {
      assert Iterate(INIT, before + [r]) == Finish(Next(At(AwaitRequest), r.read), r) by {
        assert (before + [r])[..|before|] == before;
      }
      stop := ServeOne(r);
      if !stop {
        status := Idle;
      }
    }

    /** The main loop over the iterations `rounds`; n of them came back to its head. */
    method Loop(rounds: seq<Round>) returns (stopped: bool, n: nat)
      requires consumed == produced == served == 0 && !failed
      modifies this
      ensures n <= |rounds| && (stopped <==> n < |rounds|)
      ensures (forall i :: 0 <= i < n ==> Continues(rounds[i])) && (stopped ==> !Continues(rounds[n]))
      ensures At(if stopped then Stopped else AwaitRequest) == Iterate(INIT, rounds)
      ensures wsClosed == old(wsClosed)
      ensures if stopped then status != Closed else status == Idle && served == |rounds|
    {
      status := Idle;
      n := 0;
      ghost var before: seq<Round> := [];
      stopped := false;
      while n < |rounds| && !stopped
        invariant n <= |rounds| && (stopped ==> n < |rounds| && !Continues(rounds[n]))
        invariant forall i :: 0 <= i < n ==> Continues(rounds[i])
        invariant before == rounds[..if stopped then n + 1 else n]
        invariant At(if stopped then Stopped else AwaitRequest) == Iterate(INIT, before)
        invariant if stopped then status != Closed else status == Idle && served == n
        invariant wsClosed == old(wsClosed)
        decreases |rounds| - n, !stopped
      {
        stopped := Turn(rounds[n], before);
        before := before + [rounds[n]];
        if !stopped {
          n := n + 1;
        }
      }
      assert Iterate(INIT, rounds) == Iterate(INIT, before) by {
        if stopped {
          StoppedStays(rounds, n + 1);
        } else {
          assert before == rounds;
        }
      }
    }

    /**
     * Start, with the iterations of its loop; `stopped` is false when the loop is still blocked in
     * ReadMessage. On leaving the loop the connection is closed.
     */
    method Start(rounds: seq<Round>) returns (stopped: bool)
      requires consumed == produced == served == 0 && !failed
      modifies this
      ensures At(if stopped then Stopped else AwaitRequest) == Iterate(INIT, rounds)
      ensures stopped <==> exists i :: 0 <= i < |rounds| && !Continues(rounds[i])
      ensures stopped ==> status == Closed && wsClosed
      ensures !stopped ==> status == Idle && wsClosed == old(wsClosed)
      ensures !stopped && !failed ==> consumed == produced == 2 * served && served == |rounds|
    {
      var n;
      stopped, n := Loop(rounds);
      if stopped {
        Close();
      } else {
        assert Balanced(At(AwaitRequest)) by {
          var outcomes := IterateIsRun(rounds);
          RunBalanced(outcomes);
        }
      }
    }
  }
}
