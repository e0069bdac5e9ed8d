/** The client and its pool, client/client.go, client/pool.go and client/utils.go. */
module ClientPool {
  import opened Types
  import opened Serving
  import opened Connections
  import opened PoolSizes
  import Backoff

  // ---- How many connections to create ----

  /** The connections that count as idle for the client's pool size: the IDLE and the CONNECTING ones. */
  function Spares(st: seq<Status>): nat { Count(st, Idle) + Count(st, Connecting) }

  lemma {:induction false} SparesBound(st: seq<Status>)
    ensures Spares(st) <= |st|
  {
    if st != [] {
      SparesBound(st[1..]);
    }
  }

  lemma SparesAppend(st: seq<Status>, i: nat)
    requires i < |st|
    ensures Spares(st[..i + 1]) == Spares(st[..i]) + if st[i] == Idle || st[i] == Connecting then 1 else 0
  {
    assert st[..i + 1] == st[..i] + [st[i]];
    CountAppend(st[..i], st[i], Idle);
    CountAppend(st[..i], st[i], Connecting);
  }

  /** b is a and then only connections that are CONNECTING. */
  ghost predicate Grown(a: seq<Status>, b: seq<Status>) {
    |a| <= |b| && b[..|a|] == a && forall i :: |a| <= i < |b| ==> b[i] == Connecting
  }

  lemma {:induction false} GrownSpares(a: seq<Status>, b: seq<Status>, n: nat)
    requires Grown(a, b) && |a| <= n <= |b|
    ensures Spares(b[..n]) == Spares(a) + n - |a|
  {
    if n > |a| {
      GrownSpares(a, b, n - 1);
      SparesAppend(b, n - 1);
    }
  }

  // ---- Connect ----

  const INVALID_CLUSTER_KEY := 526

  /** The response to the dial, if any, with its status; whether dialing failed; whether the greeting did. */
  datatype Dial = Dial(status: Option<int>, failed: bool, greetingFails: bool)

  datatype ConnectError = InvalidClusterKey | Ordinary

  function Connect(d: Dial): Option<ConnectError> {
    if d.status == Some(INVALID_CLUSTER_KEY) then Some(InvalidClusterKey)
    else if d.failed || d.greetingFails then Some(Ordinary)
    else None
  }

  /** How many of the n connections to create are made before the first failure. */
  function Made(dials: nat -> Dial, n: nat): (made: nat)
    ensures made <= n
    ensures forall i :: 0 <= i < made ==> Connect(dials(i)) == None
    ensures made < n ==> Connect(dials(made)) != None
  {
    if n == 0 then 0
    else
      var before := Made(dials, n - 1);
      if before == n - 1 && Connect(dials(n - 1)) == None then n else before
  }

  /** The error of the loop, if one of its connections fails. */
  function ErrorOf(dials: nat -> Dial, n: nat): Option<ConnectError> {
    if Made(dials, n) == n then None else Connect(dials(Made(dials, n)))
  }

  /** What becomes of the dials of one connector: the i-th read connection, the i-th write connection. */
  datatype Dials = Dials(read: nat -> Dial, write: nat -> Dial)

  // ---- The client ----

  class Client {
    var killed: bool
    var ready: bool
    constructor ()
      ensures !killed && !ready
    {
      killed, ready := false, false;
    }
  }

  class Pool {
    const client: Client
    const poolIdleSize: int
    const poolMaxSize: nat
    const defaultRetry: int
    const maxRetry: int
    var readConnections: seq<ReadConnection>
    var writeConnections: seq<WriteConnection>
    var idle: seq<WriteConnection>
    var done: bool
    var retryInterval: int
    ghost var history: seq<bool>    // the results of the connector that set the retry interval

    constructor (client: Client, poolIdleSize: int, poolMaxSize: nat, defaultRetry: int, maxRetry: int)
      ensures this.client == client && this.poolIdleSize == poolIdleSize && this.poolMaxSize == poolMaxSize
      ensures this.defaultRetry == defaultRetry && this.maxRetry == maxRetry
      ensures Valid() && readConnections == [] && writeConnections == [] && idle == [] && !done && history == []
    {
      this.client := client;
      this.poolIdleSize := poolIdleSize;
      this.poolMaxSize := poolMaxSize;
      this.defaultRetry := defaultRetry;
      this.maxRetry := maxRetry;
      readConnections, writeConnections, idle := [], [], [];
      done := false;
      retryInterval := defaultRetry;
      history := [];
    }

    ghost predicate Valid()
      reads this
    {
      && NoDup(readConnections) && NoDup(writeConnections)
      && |idle| <= poolMaxSize
      && (SizesFit(poolIdleSize, poolMaxSize) ==>
            |readConnections| <= poolMaxSize && |writeConnections| <= poolMaxSize)
      && retryInterval == Backoff.IntervalAfter(defaultRetry, maxRetry, history)
    }

    ghost function ReadStatuses(): (st: seq<Status>)
      reads this`readConnections, readConnections
      ensures |st| == |readConnections| && forall i :: 0 <= i < |st| ==> st[i] == readConnections[i].status
    {
      Connections.ReadStatuses(readConnections)
    }

    ghost function WriteStatuses(): (st: seq<Status>)
      reads this`writeConnections, writeConnections
      ensures |st| == |writeConnections| && forall i :: 0 <= i < |st| ==> st[i] == writeConnections[i].status
    {
      Statuses(writeConnections)
    }

    method RemoveWithoutLock(conn: Connection)
      modifies this`readConnections, this`writeConnections
      ensures old(Valid()) ==> Valid()
      ensures readConnections == if conn.OfRead? then Without(old(readConnections), conn.r) else old(readConnections)
      ensures writeConnections ==
              if conn.OfWrite? then Without(old(writeConnections), conn.w) else old(writeConnections)
    {
      match conn
      case OfRead(c) =>
        WithoutKeeps(readConnections, c);
        readConnections := Filtered(readConnections, c);
      case OfWrite(c) =>
        WithoutKeeps(writeConnections, c);
        writeConnections := Filtered(writeConnections, c);
    }

    /** How many connections of each list count as idle: those that are IDLE or CONNECTING. */
    method Size() returns (read: nat, write: nat)
      ensures read == Count(ReadStatuses(), Idle) + Count(ReadStatuses(), Connecting)
      ensures write == Count(WriteStatuses(), Idle) + Count(WriteStatuses(), Connecting)
    {
      read, write := 0, 0;
      for i := 0 to |readConnections|
        invariant read == Spares(ReadStatuses()[..i])
      {
        SparesAppend(ReadStatuses(), i);
        if readConnections[i].status == Idle || readConnections[i].status == Connecting {
          read := read + 1;
        }
      }
      for i := 0 to |writeConnections|
        invariant write == Spares(WriteStatuses()[..i])
      {
        SparesAppend(WriteStatuses(), i);
        if writeConnections[i].status == Idle || writeConnections[i].status == Connecting {
          write := write + 1;
        }
      }
      assert ReadStatuses()[..|readConnections|] == ReadStatuses();
      assert WriteStatuses()[..|writeConnections|] == WriteStatuses();
    }

    /** One turn of createConnections for a read connection: on failure the list is what it was. */
    method CreateRead(dial: Dial) returns (err: Option<ConnectError>)
      requires NoDup(readConnections)
      modifies this`readConnections, this`writeConnections
      ensures NoDup(readConnections) && writeConnections == old(writeConnections)
      ensures err == Some(InvalidClusterKey) <==> dial.status == Some(526)
      ensures err == None <==> dial.status != Some(526) && !dial.failed && !dial.greetingFails
      ensures err == Connect(dial)
      ensures err.Some? ==> readConnections == old(readConnections)
      ensures err == None ==>
                && |readConnections| == |old(readConnections)| + 1
                && readConnections[..|old(readConnections)|] == old(readConnections)
                && fresh(readConnections[|old(readConnections)|])
                && readConnections[|old(readConnections)|].status == Connecting
    {
      var conn := new ReadConnection(this, Connecting);
      ghost var was := readConnections;
      readConnections := readConnections + [conn];
      err := Connect(dial);
      if err.Some? {
        conn.Close();
        RemoveWithoutLock(OfRead(conn));
        WithoutMiddle(was, conn, []);
        assert was + [conn] + [] == was + [conn] && was + [] == was;
      }
    }

    method CreateWrite(dial: Dial) returns (err: Option<ConnectError>)
      requires NoDup(writeConnections)
      modifies this`readConnections, this`writeConnections
      ensures NoDup(writeConnections) && readConnections == old(readConnections)
      ensures err == Some(InvalidClusterKey) <==> dial.status == Some(526)
      ensures err == None <==> dial.status != Some(526) && !dial.failed && !dial.greetingFails
      ensures err == Connect(dial)
      ensures err.Some? ==> writeConnections == old(writeConnections)
      ensures err == None ==>
                && |writeConnections| == |old(writeConnections)| + 1
                && writeConnections[..|old(writeConnections)|] == old(writeConnections)
                && fresh(writeConnections[|old(writeConnections)|])
                && writeConnections[|old(writeConnections)|].status == Connecting
    {
      var conn := new WriteConnection(this, Connecting);
      ghost var was := writeConnections;
      writeConnections := writeConnections + [conn];
      err := Connect(dial);
      if err.Some? {
        conn.CloseWithOutLock();
        RemoveWithoutLock(OfWrite(conn));
        WithoutMiddle(was, conn, []);
        assert was + [conn] + [] == was + [conn] && was + [] == was;
      }
    }

    /** createConnections for reads: precisely the connections made before the first failure are kept. */
    method CreateReads(toCreate: int, dials: nat -> Dial) returns (err: Option<ConnectError>)
      requires NoDup(readConnections)
      modifies this`readConnections, this`writeConnections
      ensures NoDup(readConnections) && writeConnections == old(writeConnections)
      ensures err == ErrorOf(dials, NonNegative(toCreate))
      ensures |readConnections| == |old(readConnections)| + Made(dials, NonNegative(toCreate))
      ensures Grown(old(ReadStatuses()), ReadStatuses())
      ensures readConnections[..|old(readConnections)|] == old(readConnections)
      ensures forall k :: |old(readConnections)| <= k < |readConnections| ==> fresh(readConnections[k])
    {
      var i := 0;
      while i < toCreate
        invariant 0 <= i <= NonNegative(toCreate) && Made(dials, i) == i
        invariant NoDup(readConnections) && writeConnections == old(writeConnections)
        invariant |readConnections| == |old(readConnections)| + i
        invariant readConnections[..|old(readConnections)|] == old(readConnections)
        invariant forall k :: |old(readConnections)| <= k < |readConnections| ==>
                    fresh(readConnections[k]) && readConnections[k].status == Connecting
      {
        err := CreateRead(dials(i));
        if err.Some? {
          MadeStops(dials, i, toCreate);
          return;
        }
        i := i + 1;
      }
      err := None;
    }

    method CreateWrites(toCreate: int, dials: nat -> Dial) returns (err: Option<ConnectError>)
      requires NoDup(writeConnections)
      modifies this`readConnections, this`writeConnections
      ensures NoDup(writeConnections) && readConnections == old(readConnections)
      ensures err == ErrorOf(dials, NonNegative(toCreate))
      ensures |writeConnections| == |old(writeConnections)| + Made(dials, NonNegative(toCreate))
      ensures Grown(old(WriteStatuses()), WriteStatuses())
      ensures writeConnections[..|old(writeConnections)|] == old(writeConnections)
      ensures forall k :: |old(writeConnections)| <= k < |writeConnections| ==> fresh(writeConnections[k])
    {
      var i := 0;
      while i < toCreate
        invariant 0 <= i <= NonNegative(toCreate) && Made(dials, i) == i
        invariant NoDup(writeConnections) && readConnections == old(readConnections)
        invariant |writeConnections| == |old(writeConnections)| + i
        invariant writeConnections[..|old(writeConnections)|] == old(writeConnections)
        invariant forall k :: |old(writeConnections)| <= k < |writeConnections| ==>
                    fresh(writeConnections[k]) && writeConnections[k].status == Connecting
      {
        err := CreateWrite(dials(i));
        if err.Some? {
          MadeStops(dials, i, toCreate);
          return;
        }
        i := i + 1;
      }
      err := None;
    }

    /** How many connections the connector sets out to create in each list. */
    ghost function ReadGap(): nat
      reads this, readConnections
    {
      NonNegative(ToCreate(poolIdleSize, poolMaxSize, Spares(ReadStatuses()), |readConnections|))
    }

    ghost function WriteGap(): nat
      reads this, writeConnections
    {
      NonNegative(ToCreate(poolIdleSize, poolMaxSize, Spares(WriteStatuses()), |writeConnections|))
    }

    method FillReads(spares: nat, dials: nat -> Dial) returns (err: Option<ConnectError>)
      requires NoDup(readConnections) && spares == Spares(ReadStatuses())
      modifies this`readConnections, this`writeConnections
      ensures NoDup(readConnections) && writeConnections == old(writeConnections)
      ensures err == ErrorOf(dials, old(ReadGap()))
      ensures Filled(old(ReadStatuses()), ReadStatuses(), poolIdleSize, poolMaxSize, dials)
      ensures readConnections[..|old(readConnections)|] == old(readConnections)
      ensures forall k :: |old(readConnections)| <= k < |readConnections| ==> fresh(readConnections[k])
    {
      ghost var st := ReadStatuses();
      err := CreateReads(ToCreate(poolIdleSize, poolMaxSize, spares, |readConnections|), dials);
      GapFills(poolIdleSize, poolMaxSize, st, ReadStatuses(), dials);
    }

    method FillWrites(spares: nat, dials: nat -> Dial) returns (err: Option<ConnectError>)
      requires NoDup(writeConnections) && spares == Spares(WriteStatuses())
      modifies this`readConnections, this`writeConnections
      ensures NoDup(writeConnections) && readConnections == old(readConnections)
      ensures err == ErrorOf(dials, old(WriteGap()))
      ensures Filled(old(WriteStatuses()), WriteStatuses(), poolIdleSize, poolMaxSize, dials)
      ensures writeConnections[..|old(writeConnections)|] == old(writeConnections)
      ensures forall k :: |old(writeConnections)| <= k < |writeConnections| ==> fresh(writeConnections[k])
    {
      ghost var st := WriteStatuses();
      err := CreateWrites(ToCreate(poolIdleSize, poolMaxSize, spares, |writeConnections|), dials);
      GapFills(poolIdleSize, poolMaxSize, st, WriteStatuses(), dials);
    }

    /**
     * The connector. After a success both lists are filled; after a failure precisely the connections made
     * before it are there, which are no write connections when a read connection failed.
     */
    method Connector(dials: Dials) returns (err: Option<ConnectError>)
      requires Valid()
      modifies this`readConnections, this`writeConnections
      ensures Valid()
      ensures var readErr := ErrorOf(dials.read, old(ReadGap()));
              && err == (if readErr.Some? then readErr else ErrorOf(dials.write, old(WriteGap())))
              && Filled(old(ReadStatuses()), ReadStatuses(), poolIdleSize, poolMaxSize, dials.read)
              && if readErr.Some? then writeConnections == old(writeConnections)
                 else Filled(old(WriteStatuses()), WriteStatuses(), poolIdleSize, poolMaxSize, dials.write)
      ensures old(readConnections) <= readConnections && old(writeConnections) <= writeConnections
      ensures forall k :: |old(readConnections)| <= k < |readConnections| ==> fresh(readConnections[k])
      ensures forall k :: |old(writeConnections)| <= k < |writeConnections| ==> fresh(writeConnections[k])
    {
      ghost var st := WriteStatuses();
      var read, write := Size();
      err := FillReads(read, dials.read);
      if err == None {
        ghost var filled := ReadStatuses();
        assert WriteStatuses() == st;
        err := FillWrites(write, dials.write);
        assert ReadStatuses() == filled;
      }
    }

    /**
     * Closes every connection and empties the lists. Done twice it panics before anything else, closing the
     * channel `done` again.
     */
    method Shutdown() returns (panicked: bool)
      requires Valid()
      modifies this`done, this`readConnections, this`writeConnections, readConnections, writeConnections
      ensures Valid() && done && (panicked <==> old(done))
      ensures panicked ==>
                && readConnections == old(readConnections) && writeConnections == old(writeConnections)
                && ReadStatuses() == old(ReadStatuses()) && WriteStatuses() == old(WriteStatuses())
      ensures !panicked ==>
                && readConnections == [] && writeConnections == []
                && (forall r :: r in old(readConnections) ==> r.status == Closed)
                && (forall w :: w in old(writeConnections) ==> w.status == Closed)
    {
      if done {
        return true;
      }
      done := true;
      CloseAll();
      readConnections, writeConnections := [], [];
      return false;
    }

    /** The two loops of Shutdown. */
    method CloseAll()
      modifies readConnections, writeConnections
      ensures forall r :: r in readConnections ==> r.status == Closed
      ensures forall w :: w in writeConnections ==> w.status == Closed
    {
      for i := 0 to |readConnections|
        invariant forall j :: 0 <= j < i ==> readConnections[j].status == Closed
      {
        readConnections[i].Close();
      }
      for i := 0 to |writeConnections|
        invariant forall r :: r in readConnections ==> r.status == Closed
        invariant forall j :: 0 <= j < i ==> writeConnections[j].status == Closed
      {
        writeConnections[i].CloseWithOutLock();
      }
    }

    /** What startInternal does when the cluster key is invalid; a panic of Shutdown ends it. */
    method Kill() returns (panicked: bool)
      requires Valid()
      modifies this`done, this`readConnections, this`writeConnections, readConnections, writeConnections, client
      ensures Valid() && done && (panicked <==> old(done))
      ensures panicked ==> client.killed == old(client.killed) && client.ready == old(client.ready)
      ensures panicked ==>
                && readConnections == old(readConnections) && writeConnections == old(writeConnections)
                && ReadStatuses() == old(ReadStatuses()) && WriteStatuses() == old(WriteStatuses())
      ensures !panicked ==>
                && client.killed && client.ready
                && readConnections == [] && writeConnections == []
                && (forall r :: r in old(readConnections) ==> r.status == Closed)
                && (forall w :: w in old(writeConnections) ==> w.status == Closed)
    {
      panicked := Shutdown();
      if !panicked {
        client.killed := true;
        client.ready := true;
      }
    }

    /** What startInternal does after every other result of the connector. */
    method Reschedule(ok: bool)
      requires Valid()
      modifies this`history, this`retryInterval, client`ready
      ensures Valid() && history == old(history) + [ok]
      ensures client.ready == (old(client.ready) || |idle| == poolIdleSize)
    {
      assert (history + [ok])[..|history|] == history;
      history := history + [ok];
      if !ok {
        retryInterval := Backoff.NextInterval(retryInterval, maxRetry);
      } else {
        retryInterval := defaultRetry;
      }
      if !client.ready && |idle| == poolIdleSize {
        client.ready := true;
      }
    }

    /** What startInternal does with the result of the connector. */
    method Finish(err: Option<ConnectError>) returns (panicked: bool)
      requires Valid()
      modifies this`done, this`readConnections, this`writeConnections, this`history, this`retryInterval
      modifies readConnections, writeConnections, client
      ensures Valid() && (panicked <==> err == Some(InvalidClusterKey) && old(done))
      ensures if err == Some(InvalidClusterKey) && !panicked then
                && client.killed && client.ready && readConnections == [] && writeConnections == []
                && (forall r :: r in old(readConnections) ==> r.status == Closed)
                && (forall w :: w in old(writeConnections) ==> w.status == Closed)
              else
                && client.killed == old(client.killed)
                && readConnections == old(readConnections) && ReadStatuses() == old(ReadStatuses())
                && writeConnections == old(writeConnections) && WriteStatuses() == old(WriteStatuses())
      ensures if err == Some(InvalidClusterKey) then
                done && history == old(history) && (panicked ==> client.ready == old(client.ready))
              else
                && done == old(done) && history == old(history) + [err == None]
                && client.ready == (old(client.ready) || |idle| == poolIdleSize)
    {
      panicked := false;
      if err == Some(InvalidClusterKey) {
        panicked := Kill();
      } else {
        Reschedule(err == None);
      }
    }

    /**
     * One tick, which the ticker's select may still choose after a shutdown. An invalid cluster key shuts the
     * client down for good and leaves the interval alone, or panics if it was shut down before; any other
     * result sets the next interval. Ready means that the idle channel once held PoolIdleSize entries, or that
     * the client was killed. rs and ws are the lists as the connector leaves them; unless this tick shuts the
     * client down, which closes every member, they stay.
     */
    method StartInternal(dials: Dials)
        returns (err: Option<ConnectError>, panicked: bool,
                 ghost rs: seq<ReadConnection>, ghost ws: seq<WriteConnection>)
      requires Valid()
      modifies this, client, readConnections, writeConnections
      ensures Valid() && idle == old(idle)
      ensures var readErr := ErrorOf(dials.read, old(ReadGap()));
              && err == (if readErr.Some? then readErr else ErrorOf(dials.write, old(WriteGap())))
              && Extends(old(readConnections), rs, Made(dials.read, old(ReadGap())))
              && Extends(old(writeConnections), ws, if readErr.Some? then 0 else Made(dials.write, old(WriteGap())))
      ensures forall k :: |old(readConnections)| <= k < |rs| ==> fresh(rs[k])
      ensures forall k :: |old(writeConnections)| <= k < |ws| ==> fresh(ws[k])
      ensures panicked <==> err == Some(InvalidClusterKey) && old(done)
      ensures if err == Some(InvalidClusterKey) && !panicked then
                && client.killed && client.ready && readConnections == [] && writeConnections == []
                && (forall r :: r in rs ==> r.status == Closed)
                && (forall w :: w in ws ==> w.status == Closed)
              else
                && client.killed == old(client.killed) && readConnections == rs && writeConnections == ws
                && Filled(old(ReadStatuses()), ReadStatuses(), poolIdleSize, poolMaxSize, dials.read)
                && (if ErrorOf(dials.read, old(ReadGap())).Some? then WriteStatuses() == old(WriteStatuses())
                    else Filled(old(WriteStatuses()), WriteStatuses(), poolIdleSize, poolMaxSize, dials.write))
      ensures if err == Some(InvalidClusterKey) then
                done && history == old(history) && (panicked ==> client.ready == old(client.ready))
              else
                && done == old(done) && history == old(history) + [err == None]
                && client.ready == (old(client.ready) || |idle| == poolIdleSize)
    {
      ghost var st := WriteStatuses();
      err := Connector(dials);
      rs, ws := readConnections, writeConnections;
      assert ws == old(writeConnections) ==> WriteStatuses() == st;
      panicked := Finish(err);
    }

    /** Pops entries until one is IDLE, and takes it, with the pool locked. */
    method GetIdleWriteConnection(timeout: int, waits: seq<Wait>) returns (conn: Option<WriteConnection>)
      requires WaitsFor(timeout, waits, |idle|)
      modifies this`idle, idle`status
      ensures Dequeued(old(idle), old(Statuses(idle)), waits, idle, conn)
      ensures conn.Some? <==> Gets(old(Statuses(idle)), waits)
    {
      conn, idle := Dequeue(idle, timeout, waits);
    }

    /** From GetIdleWriteConnection to the end of the exchange, which succeeds or not. */
    method Proxy(timeout: int, waits: seq<Wait>, ok: bool, now: int) returns (r: Proxied)
      requires Valid() && WaitsFor(timeout, waits, |idle|)
      modifies this`idle, this`readConnections, this`writeConnections, idle
      ensures Valid() && Used(old(idle), old(Statuses(idle)), waits, idle, r, ok, now)
      ensures r != NoConnection <==> Gets(old(Statuses(idle)), waits)
      ensures readConnections == old(readConnections)
      ensures writeConnections == ListAfter(old(writeConnections), old(idle), r)
    {
      ghost var was, st := idle, Statuses(idle);
      var queued := |idle|;
      var conn := GetIdleWriteConnection(timeout, waits);
      if conn == None {
        return NoConnection;
      }
      r, idle := Exchange(was, st, waits, queued - |idle| - 1, conn.value, idle, poolMaxSize, ok, now);
      assert Valid() && (!ok ==> r.entry < |was|) by {
        UsedMembers(was, st, waits, idle, r, ok, now);
      }
      if !ok {
        RemoveWithoutLock(OfWrite(conn.value));
      }
    }

    /**
     * Client.Request, with the outcome of the exchange: the status code of the response, or None for an
     * error. A killed client answers without looking for a connection. Exactly the responses 401 and 419 start
     * a refresh of the token.
     */
    method Request(timeout: int, waits: seq<Wait>, response: Option<int>, now: int) returns (r: Reply)
      requires Valid() && WaitsFor(timeout, waits, |idle|)
      modifies this`idle, this`readConnections, this`writeConnections, idle
      ensures Valid() && readConnections == old(readConnections)
      ensures r == Killed <==> client.killed
      ensures r == Killed ==>
                && idle == old(idle) && writeConnections == old(writeConnections)
                && OthersKept(old(idle), old(Statuses(idle)), -1)
      ensures r.Through? ==>
                && Used(old(idle), old(Statuses(idle)), waits, idle, r.proxied, response.Some?, now)
                && (r.proxied != NoConnection <==> Gets(old(Statuses(idle)), waits))
                && writeConnections == ListAfter(old(writeConnections), old(idle), r.proxied)
                && (r.refresh <==> r.proxied.Answered? && (response == Some(401) || response == Some(419)))
    {
      if client.killed {
        return Killed;
      }
      var proxied := Proxy(timeout, waits, response.Some?, now);
      return Through(proxied, proxied.Answered? && (response == Some(401) || response == Some(419)));
    }
  }

  /** The list gained so many members at its end. */
  ghost predicate Extends<T>(was: seq<T>, now: seq<T>, made: nat) {
    was <= now && |now| == |was| + made
  }

  /** How a request ends at the client; refresh: RefreshWspToken was started. */
  datatype Reply = Killed | Through(proxied: Proxied, refresh: bool)

  /**
   * The retry interval of a pool: after k ordinary failures since the start or the last success it is
   * min(default * 2^k, max), when twice the maximum and twice the default fit in int64 nanoseconds.
   */
  lemma RetryInterval(p: Pool, before: seq<bool>, k: nat)
    requires p.Valid() && p.history == before + Backoff.Failures(k) && k > 0
    requires before == [] || before[|before| - 1]
    requires 0 < p.defaultRetry && 0 < p.maxRetry
    requires 2 * p.defaultRetry <= MAX_INT64 && 2 * p.maxRetry <= MAX_INT64
    ensures p.retryInterval == Min(p.defaultRetry * Backoff.Pow2(k), p.maxRetry)
  {
    Backoff.SinceLastSuccess(p.defaultRetry, p.maxRetry, before, k);
    Backoff.NoOverflow(p.defaultRetry, p.maxRetry, k);
  }

  lemma {:induction false} MadeStops(dials: nat -> Dial, i: nat, n: nat)
    requires Made(dials, i) == i < n && Connect(dials(i)) != None
    ensures Made(dials, n) == i
  {
    if n > i + 1 {
      MadeStops(dials, i, n - 1);
    }
  }

  /** As many connections as wanted are IDLE or CONNECTING, or there is no place for another one. */
  ghost predicate Enough(st: seq<Status>, idleSize: int, maxSize: nat) {
    Count(st, Idle) + Count(st, Connecting) >= idleSize || |st| == maxSize
  }

  /**
   * One list through the connector: the connections made before the first failure are added, CONNECTING. It
   * stays within maxSize; when nothing failed there are enough of them; when there were before, none is made.
   */
  ghost predicate Filled(was: seq<Status>, now: seq<Status>, idleSize: int, maxSize: nat, dials: nat -> Dial) {
    var gap := NonNegative(ToCreate(idleSize, maxSize, Spares(was), |was|));
    && Grown(was, now) && |now| == |was| + Made(dials, gap)
    && (SizesFit(idleSize, maxSize) && |was| <= maxSize ==>
          && |now| <= maxSize
          && (ErrorOf(dials, gap) == None ==> Enough(now, idleSize, maxSize))
          && (Enough(was, idleSize, maxSize) ==> now == was && ErrorOf(dials, gap) == None))
  }

  lemma GapFills(idleSize: int, maxSize: nat, was: seq<Status>, now: seq<Status>, dials: nat -> Dial)
    requires Grown(was, now)
    requires |now| == |was| + Made(dials, NonNegative(ToCreate(idleSize, maxSize, Spares(was), |was|)))
    ensures Filled(was, now, idleSize, maxSize, dials)
  {
    if SizesFit(idleSize, maxSize) && |was| <= maxSize {
      SparesBound(was);
      CreatesMissing(idleSize, maxSize, Spares(was), |was|);
      GrownSpares(was, now, |now|);
      assert now[..|now|] == now;
    }
  }
}
