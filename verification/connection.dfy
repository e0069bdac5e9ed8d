/**
 * The write connection as the source has it, a record updated in place under its lock
 * (common/writeConnection.go), and the wait for an entry of the idle queue (common/utils.go).
 */
module Connections {
  import opened Types
  import opened Serving

  /** What became of a Release: a send on a full idle channel blocks with the connection lock held. */
  datatype Released = Offered | WasClosed | Blocked

  class WriteConnection {
    const pool: object       // the pool that created it
    var status: Status
    var idleSince: int
    var wsClosed: bool
    var closes: nat          // how often close(nextResponse) has been executed; twice would panic

    constructor (pool: object, initial: Status)
      ensures this.pool == pool && status == initial && idleSince == ZERO_TIME && !wsClosed
      ensures initial != Closed ==> Valid()
    {
      this.pool := pool;
      status := initial;
      idleSince := ZERO_TIME;
      wsClosed := false;
      closes := 0;
    }

    /** nextResponse is closed, once, exactly when the status is CLOSED. */
    ghost predicate Valid()
      reads this
    {
      closes == if status == Closed then 1 else 0
    }

    method Take() returns (ok: bool)
      modifies this`status
      ensures old(Valid()) ==> Valid()
      ensures (status, ok) == TakeResult(old(status))
      ensures ok <==> old(status) == Idle || old(status) == Connecting
    {
      if status == Closed {
        return false;
      }
      if status == Busy {
        return false;
      }
      status := Busy;
      return true;
    }

    /** Release, with the number of queued entries and the capacity of the idle channel of its pool. */
    method Release(now: int, queued: nat, capacity: nat) returns (r: Released)
      modifies this`status, this`idleSince
      ensures old(Valid()) ==> Valid()
      ensures r == WasClosed <==> old(status) == Closed
      ensures r == WasClosed ==> status == Closed && idleSince == old(idleSince)
      ensures r != WasClosed ==> status == Idle && idleSince == now
      ensures r == Offered <==> old(status) != Closed && queued < capacity
    {
      if status == Closed {
        return WasClosed;
      }
      idleSince := now;
      status := Idle;
      if queued < capacity {
        return Offered;
      }
      return Blocked;
    }

    /** nextResponse is closed by the first call and never again. */
    method CloseWithOutLock()
      modifies this`status, this`wsClosed, this`closes
      ensures old(Valid()) ==> Valid()
      ensures status == Closed
      ensures wsClosed == (old(wsClosed) || old(status) != Closed)
    {
      if status == Closed {
        return;
      }
      closes := closes + 1;
      wsClosed := true;
      status := Closed;
    }
  }

  /** The interface common.Connection. */
  datatype Connection = OfRead(r: ReadConnection) | OfWrite(w: WriteConnection) {
    function Status(): Status
      reads if OfRead? then {r} else {w}
    {
      if OfRead? then r.status else w.status
    }

    function IdleSince(): int
      reads if OfRead? then {r} else {w}
    {
      if OfRead? then r.idleSince else w.idleSince
    }
  }

  // ---- GetValueWithTimeout ----

  /**
   * One call of getValueWithTimeoutInternal: how long the select blocked, what passed until time.Since was
   * read, and whether it was the timer that fired.
   */
  datatype Wait = Wait(blocked: int, gap: int, timedOut: bool)

  /** Time since the start after the first n waits. */
  function Elapsed(waits: seq<Wait>, n: nat): int
    requires n <= |waits|
  {
    if n == 0 then 0 else Elapsed(waits, n - 1) + waits[n - 1].blocked + waits[n - 1].gap
  }

  /** The variable `timeout` before wait number n: the time since the start is subtracted again and again. */
  function Remaining(timeout: int, waits: seq<Wait>, n: nat): int
    requires n <= |waits|
  {
    if n == 0 then timeout else Remaining(timeout, waits, n - 1) - Elapsed(waits, n)
  }

  /** Total time spent blocked in the first n selects. */
  function TotalBlocked(waits: seq<Wait>, n: nat): int
    requires n <= |waits|
  {
    if n == 0 then 0 else TotalBlocked(waits, n - 1) + waits[n - 1].blocked
  }

  /** Select number i returns within max(0, timeout); time does not run backwards. */
  ghost predicate WaitOk(timeout: int, waits: seq<Wait>, i: int) {
    && 0 <= i < |waits|
    && 0 <= waits[i].blocked <= Max(0, Remaining(timeout, waits, i))
    && 0 <= waits[i].gap
  }

  ghost predicate ClockOk(timeout: int, waits: seq<Wait>) {
    forall i :: 0 <= i < |waits| ==> WaitOk(timeout, waits, i)
  }

  lemma {:induction false} RemainingBound(timeout: int, waits: seq<Wait>, n: nat)
    requires ClockOk(timeout, waits) && n <= |waits|
    ensures 0 <= TotalBlocked(waits, n) <= Elapsed(waits, n)
    ensures Remaining(timeout, waits, n) <= timeout - Elapsed(waits, n)
  {
    if n > 0 {
      assert WaitOk(timeout, waits, n - 1);
      RemainingBound(timeout, waits, n - 1);
    }
  }

  /** Bounded wait: all selects together block no longer than the original timeout. */
  lemma {:induction false} BoundedWait(timeout: int, waits: seq<Wait>, n: nat)
    requires ClockOk(timeout, waits) && n <= |waits|
    ensures TotalBlocked(waits, n) <= Max(0, timeout)
  {
    if n > 0 {
      assert WaitOk(timeout, waits, n - 1);
      BoundedWait(timeout, waits, n - 1);
      RemainingBound(timeout, waits, n - 1);
    }
  }

  /**
   * After n selects the timeout is what is left of the original one exactly when no time had passed when the
   * last of them began: any time before that is subtracted more than once.
   */
  lemma RemainingIsExactIff(timeout: int, waits: seq<Wait>, n: nat)
    requires ClockOk(timeout, waits) && 0 < n <= |waits|
    ensures Remaining(timeout, waits, n) == timeout - Elapsed(waits, n) <==> Elapsed(waits, n - 1) == 0
  {
    RemainingBound(timeout, waits, n - 1);
    if Elapsed(waits, n - 1) == 0 {
      RemainingUntouched(timeout, waits, n - 1);
    }
  }

  lemma {:induction false} RemainingUntouched(timeout: int, waits: seq<Wait>, n: nat)
    requires ClockOk(timeout, waits) && n <= |waits| && Elapsed(waits, n) == 0
    ensures Remaining(timeout, waits, n) == timeout
  {
    if n > 0 {
      assert WaitOk(timeout, waits, n - 1);
      RemainingBound(timeout, waits, n - 1);
      RemainingUntouched(timeout, waits, n - 1);
    }
  }

  /** A timer fires only after its full duration. */
  ghost predicate TimersOk(timeout: int, waits: seq<Wait>) {
    forall i :: 0 <= i < |waits| && waits[i].timedOut ==> waits[i].blocked >= Remaining(timeout, waits, i)
  }

  /** The time from the start to the end of select number n - 1. */
  function Spent(waits: seq<Wait>, n: nat): int
    requires 0 < n <= |waits|
  {
    Elapsed(waits, n - 1) + waits[n - 1].blocked
  }

  /**
   * Dropping n - 1 entries and then timing out ends before the original timeout exactly when time had passed
   * when the wait for the last of them began, and the timeout was not over when that one was dropped.
   */
  ghost predicate Early(timeout: int, waits: seq<Wait>, n: nat)
    requires 0 < n <= |waits|
  {
    n >= 2 && Elapsed(waits, n - 2) > 0 && Elapsed(waits, n - 1) < timeout
  }

  lemma GivesUpEarlyIff(timeout: int, waits: seq<Wait>, n: nat)
    requires ClockOk(timeout, waits) && TimersOk(timeout, waits) && 0 < n <= |waits| && waits[n - 1].timedOut
    ensures Spent(waits, n) < timeout <==> Early(timeout, waits, n)
    ensures n <= 2 ==> Spent(waits, n) >= timeout
  {
    var left, since := Remaining(timeout, waits, n - 1), Elapsed(waits, n - 1);
    assert waits[n - 1].blocked == Max(0, left) by {
      assert WaitOk(timeout, waits, n - 1);
    }
    RemainingBound(timeout, waits, n - 1);
    if n >= 2 {
      assert left == timeout - since <==> Elapsed(waits, n - 2) == 0 by {
        RemainingIsExactIff(timeout, waits, n - 1);
      }
      assert Elapsed(waits, n - 2) >= 0 by {
        RemainingBound(timeout, waits, n - 2);
      }
    }
  }

  /** Timeout 10: with an entry dropped after 6 and another at once, the wait ends after 6. */
  lemma GivesUpEarlyWitness() returns (waits: seq<Wait>)
    ensures ClockOk(10, waits) && TimersOk(10, waits) && |waits| == 3
    ensures !waits[0].timedOut && !waits[1].timedOut && waits[2].timedOut
    ensures Spent(waits, 3) == 6 && Remaining(10, waits, 2) == -2
  {
    waits := [Wait(0, 6, false), Wait(0, 0, false), Wait(0, 0, true)];
    assert Elapsed(waits, 1) == 6 && Elapsed(waits, 2) == 6;
    assert Remaining(10, waits, 1) == 4 && Remaining(10, waits, 2) == -2;
    forall i | 0 <= i < 3 ensures WaitOk(10, waits, i) {
    }
  }

  /** Enough waits for a queue of n entries: when there are no more entries, the timer fires. */
  ghost predicate WaitsFor(timeout: int, waits: seq<Wait>, n: nat) {
    |waits| > n && waits[n].timedOut && ClockOk(timeout, waits)
  }

  /**
   * Takes entries off the queue until one is IDLE or the timer fires. `entries` are those the selects can
   * receive, queued now or offered meanwhile; when there are no more, the timer fires. n counts the selects.
   * It gives up before the original timeout exactly when it is `Early`, never after dropping one entry only.
   */
  method GetValueWithTimeout(entries: seq<WriteConnection>, timeout: int, waits: seq<Wait>)
      returns (conn: Option<WriteConnection>, n: nat)
    requires WaitsFor(timeout, waits, |entries|)
    ensures 1 <= n <= |entries| + 1
    ensures forall i :: 0 <= i < n - 1 ==> !waits[i].timedOut && entries[i].status != Idle
    ensures conn.Some? ==> n <= |entries| && conn.value == entries[n - 1] && conn.value.status == Idle
    ensures conn == None <==> waits[n - 1].timedOut
    ensures TotalBlocked(waits, n) <= Max(0, timeout)
    ensures conn == None && TimersOk(timeout, waits) ==>
              && (Spent(waits, n) < timeout <==> Early(timeout, waits, n))
              && (n <= 2 ==> Spent(waits, n) >= timeout)
  {
    n := 0;
    var left := timeout;
    var since := 0;
    while true
      invariant 0 <= n <= |entries|
      invariant left == Remaining(timeout, waits, n) && since == Elapsed(waits, n)
      invariant forall i :: 0 <= i < n ==> !waits[i].timedOut && entries[i].status != Idle
      decreases |entries| - n
    {
      var w := waits[n];
      n := n + 1;
      BoundedWait(timeout, waits, n);
      if w.timedOut {
        if TimersOk(timeout, waits) {
          GivesUpEarlyIff(timeout, waits, n);
        }
        return None, n;
      }
      if entries[n - 1].status == Idle {
        return Some(entries[n - 1]), n;
      }
      since := since + w.blocked + w.gap;
      left := left - since;
    }
  }

  // ---- GetIdleWriteConnection, and the use of the connection it returns ----

  /** How a request fared; `entry` is the queue position of the connection it used. */
  datatype Proxied = NoConnection | Answered(entry: nat) | Failed(entry: nat)

  /** Entry k of the queue is the first IDLE one. */
  predicate FirstIdle(statuses: seq<Status>, k: nat) {
    k < |statuses| && statuses[k] == Idle && forall i :: 0 <= i < k ==> statuses[i] != Idle
  }

  /** The first IDLE entry is number k, and no timer fires before it is received. */
  ghost predicate Reached(st: seq<Status>, waits: seq<Wait>, k: nat) {
    FirstIdle(st, k) && k < |waits| && forall i :: 0 <= i <= k ==> !waits[i].timedOut
  }

  /** There is an IDLE entry in the queue, and no timer fires before it is received. */
  ghost predicate Gets(st: seq<Status>, waits: seq<Wait>) {
    exists k :: Reached(st, waits, k)
  }

  /** The timer of wait number m fires, after as many entries were received, none of them IDLE. */
  ghost predicate GivesUp(st: seq<Status>, waits: seq<Wait>, m: nat) {
    m <= |st| && m < |waits| && waits[m].timedOut && forall i :: 0 <= i < m ==> !waits[i].timedOut && st[i] != Idle
  }

  ghost function ReadStatuses(cs: seq<ReadConnection>): (st: seq<Status>)
    reads cs
    ensures |st| == |cs| && forall i :: 0 <= i < |cs| ==> st[i] == cs[i].status
  {
    seq(|cs|, i requires 0 <= i < |cs| reads cs => cs[i].status)
  }

  ghost function Statuses(cs: seq<WriteConnection>): (st: seq<Status>)
    reads cs
    ensures |st| == |cs| && forall i :: 0 <= i < |cs| ==> st[i] == cs[i].status
  {
    seq(|cs|, i requires 0 <= i < |cs| reads cs => cs[i].status)
  }

  /** Of the entries `was`, which had the statuses st, only number k may have another one now. */
  ghost predicate OthersKept(was: seq<WriteConnection>, st: seq<Status>, k: int)
    requires |st| == |was|
    reads was
  {
    forall i :: 0 <= i < |was| && (k < 0 || k >= |was| || was[i] != was[k]) ==> was[i].status == st[i]
  }

  /**
   * Nothing was found in the queue `was`, with statuses st: the entries received before the timer fired, none
   * of them IDLE, were dropped from its front, `rest` remains.
   */
  ghost predicate Drained(was: seq<WriteConnection>, st: seq<Status>, waits: seq<Wait>, rest: seq<WriteConnection>)
    requires |st| == |was|
    reads was
  {
    && |rest| <= |was| && rest == was[|was| - |rest|..]
    && GivesUp(st, waits, |was| - |rest|)
    && OthersKept(was, st, -1)
  }

  /**
   * What GetIdleWriteConnection does to the queue `was`, with statuses st, when nothing is offered meanwhile:
   * it drops entries that are not IDLE up to the first IDLE one, which it takes. `rest` remains.
   */
  ghost predicate Dequeued(was: seq<WriteConnection>, st: seq<Status>, waits: seq<Wait>, rest: seq<WriteConnection>,
                           conn: Option<WriteConnection>)
    requires |st| == |was|
    reads was
  {
    if conn == None then Drained(was, st, waits, rest)
    else
      && |rest| < |was|
      && (var k := |was| - |rest| - 1;
          && Reached(st, waits, k) && rest == was[k + 1..]
          && conn.value == was[k] && conn.value.status == Busy
          && OthersKept(was, st, k))
  }

  method Dequeue(idle: seq<WriteConnection>, timeout: int, waits: seq<Wait>)
      returns (conn: Option<WriteConnection>, rest: seq<WriteConnection>)
    requires WaitsFor(timeout, waits, |idle|)
    modifies idle`status
    ensures Dequeued(idle, old(Statuses(idle)), waits, rest, conn)
    ensures conn.Some? <==> Gets(old(Statuses(idle)), waits)
  {
    ghost var st := Statuses(idle);
    var found, n := GetValueWithTimeout(idle, timeout, waits);
    if found.Some? {
      assert Reached(st, waits, n - 1);
      var ok := found.value.Take();
      conn := if ok then found else None;
      rest := idle[n..];
    } else {
      assert GivesUp(st, waits, n - 1);
      conn := None;
      rest := idle[n - 1..];
    }
  }

  /**
   * From GetIdleWriteConnection to the end of the exchange, which succeeded or not, at the time given. The
   * connection used is the first IDLE entry: IDLE again and at the end of the queue after a success, else
   * CLOSED.
   */
  ghost predicate Used(was: seq<WriteConnection>, st: seq<Status>, waits: seq<Wait>, rest: seq<WriteConnection>,
                       r: Proxied, ok: bool, now: int)
    requires |st| == |was|
    reads was
  {
    match r
    case NoConnection => Drained(was, st, waits, rest)
    case Answered(k) =>
      && ok && Reached(st, waits, k) && rest == was[k + 1..] + [was[k]]
      && was[k].status == Idle && was[k].idleSince == now
      && OthersKept(was, st, k)
    case Failed(k) =>
      && !ok && Reached(st, waits, k) && rest == was[k + 1..]
      && was[k].status == Closed
      && OthersKept(was, st, k)
  }

  /** The queue after getConnectionStatus: no status has changed, and an IDLE entry found is at its end. */
  ghost predicate Asked(was: seq<WriteConnection>, st: seq<Status>, waits: seq<Wait>, rest: seq<WriteConnection>)
    requires |st| == |was|
    reads was
  {
    && OthersKept(was, st, -1) && |rest| <= |was|
    && if Gets(st, waits) then
         var k := |was| - |rest|; Reached(st, waits, k) && rest == was[k + 1..] + [was[k]]
       else Drained(was, st, waits, rest)
  }

  /** The list of write connections after a request: a failed connection is off it. */
  function ListAfter(ws: seq<WriteConnection>, was: seq<WriteConnection>, r: Proxied): seq<WriteConnection> {
    if r.Failed? && r.entry < |was| then Without(ws, was[r.entry]) else ws
  }

  /**
   * The exchange on a connection just taken, number k of the queue `was`: ProxyRequest releases it on success,
   * and its caller closes it on an error.
   */
  method Exchange(ghost was: seq<WriteConnection>, ghost st: seq<Status>, ghost waits: seq<Wait>, k: nat,
                  conn: WriteConnection, queue: seq<WriteConnection>, capacity: nat, ok: bool, now: int)
      returns (r: Proxied, rest: seq<WriteConnection>)
    requires |st| == |was| <= capacity && Dequeued(was, st, waits, queue, Some(conn)) && k == |was| - |queue| - 1
    modifies conn
    ensures Used(was, st, waits, rest, r, ok, now) && r == (if ok then Answered(k) else Failed(k))
  {
    if ok {
      var _ := conn.Release(now, |queue|, capacity);
      return Answered(k), queue + [conn];
    }
    conn.CloseWithOutLock();
    return Failed(k), queue;
  }

  /** The queue gets no new member and does not grow. */
  lemma UsedMembers(was: seq<WriteConnection>, st: seq<Status>, waits: seq<Wait>, rest: seq<WriteConnection>,
                    r: Proxied, ok: bool, now: int)
    requires |st| == |was| && Used(was, st, waits, rest, r, ok, now)
    ensures |rest| <= |was| && forall w :: w in rest ==> w in was
    ensures r.Failed? ==> r.entry < |was|
  {
  }

  lemma AnsweredIsAsked(was: seq<WriteConnection>, st: seq<Status>, waits: seq<Wait>, rest: seq<WriteConnection>,
                        k: nat, now: int)
    requires |st| == |was| && Used(was, st, waits, rest, Answered(k), true, now)
    requires forall i :: 0 <= i < |was| && was[i] == was[k] ==> st[i] == st[k]
    ensures Asked(was, st, waits, rest)
  {
    assert |was| - |rest| == k;
  }
}
