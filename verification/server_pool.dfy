/** The server's pool of connections to one client, server/pool.go. */
module ServerPool {
  import opened Types
  import opened Serving
  import opened Connections

  // ---- What Clean does, as a filter over what it sees ----

  const SECOND: int := 1_000_000_000

  /** time.Time.Sub saturates. */
  function Sub(now: int, since: int): int {
    var d := now - since;
    if d > MAX_INT64 then MAX_INT64 else if d < MIN_INT64 then MIN_INT64 else d
  }

  /** int(d.Seconds()): truncation towards zero. */
  function WholeSeconds(d: int): int {
    if d < 0 then -(-d / SECOND) else d / SECOND
  }

  /** A connection as CleanConnection sees it: is it IDLE, since when, and what does the clock say? */
  datatype Seen = Seen(idle: bool, since: int, now: int)

  /** The readings of the clock during one Clean: the i-th visit of a read or of a write connection. */
  datatype Clock = Clock(read: seq<int>, write: seq<int>)

  function Reading(readings: seq<int>, i: nat): (now: int)
    ensures i < |readings| ==> now == readings[i]
  {
    if i < |readings| then readings[i] else 0
  }

  /** The test of CleanConnection, with its saturation and its truncation. */
  predicate TooLong(now: int, since: int, timeout: int) { WholeSeconds(Sub(now, since)) > timeout }

  /**
   * What the test comes to, in nanoseconds: idle for a whole second more than the timeout. The range of a
   * Duration matters only for timeouts of 292 years, and the truncation only for a negative timeout.
   */
  predicate LongIdle(now: int, since: int, timeout: int) {
    if timeout >= 0 then now - since >= (timeout + 1) * 1_000_000_000 && timeout < 9223372036
    else now - since > timeout * 1_000_000_000 || timeout < -9223372036
  }

  lemma TooLongIff(now: int, since: int, timeout: int)
    ensures TooLong(now, since, timeout) <==> LongIdle(now, since, timeout)
    ensures 0 <= now - since <= MAX_INT64 && timeout >= 0 ==>
              (TooLong(now, since, timeout) <==> now - since >= (timeout + 1) * 1_000_000_000)
  {
  }

  /** How many of the first n are IDLE. */
  function IdleCount(seen: seq<Seen>, n: nat): nat
    requires n <= |seen|
  {
    if n == 0 then 0 else IdleCount(seen, n - 1) + if seen[n - 1].idle then 1 else 0
  }

  /** Connection i is closed and removed: IDLE, beyond `idleSize` among the IDLE ones, and IDLE for too long. */
  predicate Expired(seen: seq<Seen>, i: int, idleSize: int, timeout: int)
    requires 0 <= i < |seen|
  {
    seen[i].idle && IdleCount(seen, i + 1) > idleSize && TooLong(seen[i].now, seen[i].since, timeout)
  }

  /** For each of the first n, is it expired? */
  function Fates(seen: seq<Seen>, idleSize: int, timeout: int, n: nat): (dead: seq<bool>)
    requires n <= |seen|
    ensures |dead| == n
  {
    if n == 0 then [] else Fates(seen, idleSize, timeout, n - 1) + [Expired(seen, n - 1, idleSize, timeout)]
  }

  lemma {:induction false} FateIs(seen: seq<Seen>, idleSize: int, timeout: int, n: nat, i: nat)
    requires i < n <= |seen|
    ensures Fates(seen, idleSize, timeout, n)[i] == Expired(seen, i, idleSize, timeout)
  {
    if i < n - 1 {
      FateIs(seen, idleSize, timeout, n - 1, i);
    }
  }

  /** The first n elements without the dead ones, in their order. */
  function Survivors<T>(cs: seq<T>, dead: seq<bool>, n: nat): seq<T>
    requires n <= |cs| == |dead|
  {
    if n == 0 then [] else Survivors(cs, dead, n - 1) + if dead[n - 1] then [] else [cs[n - 1]]
  }

  lemma {:induction false} SurvivorsAre<T>(cs: seq<T>, dead: seq<bool>, n: nat)
    requires n <= |cs| == |dead| && NoDup(cs)
    ensures forall i :: 0 <= i < |cs| ==> (cs[i] in Survivors(cs, dead, n) <==> i < n && !dead[i])
    ensures forall x :: x in Survivors(cs, dead, n) ==> x in cs
  {
    if n > 0 {
      SurvivorsAre(cs, dead, n - 1);
    }
  }

  lemma {:induction false} SurvivorsFrom<T>(cs: seq<T>, dead: seq<bool>, n: nat)
    requires n <= |cs| == |dead|
    ensures forall x :: x in Survivors(cs, dead, n) <==> exists i :: 0 <= i < n && cs[i] == x && !dead[i]
  {
    if n > 0 {
      SurvivorsFrom(cs, dead, n - 1);
    }
  }

  /** The list after n visits, each of which removes its connection from the list or leaves the list alone. */
  ghost function Visited<T>(cs: seq<T>, dead: seq<bool>, n: nat): seq<T>
    requires n <= |cs| == |dead|
  {
    if n == 0 then cs
    else if dead[n - 1] then Without(Visited(cs, dead, n - 1), cs[n - 1])
    else Visited(cs, dead, n - 1)
  }

  lemma RemoveNext<T>(cs: seq<T>, done: seq<T>, i: nat)
    requires NoDup(cs) && i < |cs| && cs[i] !in done
    ensures done + cs[i..] == done + [cs[i]] + cs[i + 1..]
    ensures Without(done + cs[i..], cs[i]) == done + cs[i + 1..]
  {
    assert cs[i..] == [cs[i]] + cs[i + 1..];
    assert done + cs[i..] == done + [cs[i]] + cs[i + 1..];
    WithoutMiddle(done, cs[i], cs[i + 1..]);
  }

  /** Removing connections from a duplicate-free list while a snapshot of it is visited is the filter. */
  lemma {:induction false} VisitingFilters<T>(cs: seq<T>, dead: seq<bool>, n: nat)
    requires n <= |cs| == |dead| && NoDup(cs)
    ensures Visited(cs, dead, n) == Survivors(cs, dead, n) + cs[n..]
  {
    if n > 0 {
      VisitingFilters(cs, dead, n - 1);
      var done := Survivors(cs, dead, n - 1);
      assert cs[n - 1] !in done by {
        SurvivorsAre(cs, dead, n - 1);
      }
      RemoveNext(cs, done, n - 1);
      if dead[n - 1] {
        assert Survivors(cs, dead, n) == done + [] == done;
      } else {
        assert Survivors(cs, dead, n) == done + [cs[n - 1]];
      }
    }
  }

  lemma {:induction false} VisitedNoDup<T>(cs: seq<T>, dead: seq<bool>, n: nat)
    requires n <= |cs| == |dead| && NoDup(cs)
    ensures NoDup(Visited(cs, dead, n))
  {
    if n > 0 {
      VisitedNoDup(cs, dead, n - 1);
      WithoutNoDup(Visited(cs, dead, n - 1), cs[n - 1]);
    }
  }

  /** After all visits: the filtered list, without duplicates, and exactly the dead are gone. */
  lemma AllVisited<T>(cs: seq<T>, dead: seq<bool>)
    requires |cs| == |dead| && NoDup(cs)
    ensures Visited(cs, dead, |cs|) == Survivors(cs, dead, |cs|)
    ensures NoDup(Survivors(cs, dead, |cs|))
    ensures forall i :: 0 <= i < |cs| ==> (cs[i] in Survivors(cs, dead, |cs|) <==> !dead[i])
    ensures forall x :: x in Survivors(cs, dead, |cs|) ==> x in cs
  {
    VisitingFilters(cs, dead, |cs|);
    VisitedNoDup(cs, dead, |cs|);
    SurvivorsAre(cs, dead, |cs|);
  }

  /** How many of the first n are IDLE and not expired. */
  function IdleSurvivors(seen: seq<Seen>, idleSize: int, timeout: int, n: nat): nat
    requires n <= |seen|
  {
    if n == 0 then 0
    else IdleSurvivors(seen, idleSize, timeout, n - 1)
         + if seen[n - 1].idle && !Expired(seen, n - 1, idleSize, timeout) then 1 else 0
  }

  /** At least min(idleSize, IDLE before) of the survivors are IDLE. */
  lemma {:induction false} EnoughIdleSurvive(seen: seq<Seen>, idleSize: int, timeout: int, n: nat)
    requires n <= |seen|
    ensures IdleSurvivors(seen, idleSize, timeout, n) >= Min(idleSize, IdleCount(seen, n))
    ensures IdleSurvivors(seen, idleSize, timeout, n) <= IdleCount(seen, n)
  {
    if n > 0 {
      EnoughIdleSurvive(seen, idleSize, timeout, n - 1);
    }
  }

  /** The IDLE survivors, counted in the statuses that the connections had. */
  lemma {:induction false} IdleSurvivorsCount(was: seq<Status>, seen: seq<Seen>, idleSize: int, timeout: int, n: nat)
    requires n <= |seen| == |was|
    requires forall i :: 0 <= i < |was| ==> (seen[i].idle <==> was[i] == Idle)
    ensures var dead := Fates(seen, idleSize, timeout, |seen|);
            Count(Survivors(was, dead, n), Idle) == IdleSurvivors(seen, idleSize, timeout, n)
    ensures Count(was[..n], Idle) == IdleCount(seen, n)
  {
    if n > 0 {
      var dead := Fates(seen, idleSize, timeout, |seen|);
      assert |dead| == |was|;
      IdleSurvivorsCount(was, seen, idleSize, timeout, n - 1);
      FateIs(seen, idleSize, timeout, |seen|, n - 1);
      CountAppend(Survivors(was, dead, n - 1), was[n - 1], Idle);
      CountAppend(was[..n - 1], was[n - 1], Idle);
      assert was[..n] == was[..n - 1] + [was[n - 1]];
      if dead[n - 1] {
        assert Survivors(was, dead, n) == Survivors(was, dead, n - 1);
      } else {
        assert Survivors(was, dead, n) == Survivors(was, dead, n - 1) + [was[n - 1]];
      }
    }
  }

  /** So a list that keeps exactly the survivors keeps at least min(idleSize, IDLE before) IDLE connections. */
  lemma EnoughIdleLeft(was: seq<Status>, seen: seq<Seen>, idleSize: int, timeout: int)
    requires |seen| == |was|
    requires forall i :: 0 <= i < |was| ==> (seen[i].idle <==> was[i] == Idle)
    ensures Count(Survivors(was, Fates(seen, idleSize, timeout, |seen|), |was|), Idle) >=
            Min(idleSize, Count(was, Idle))
  {
    IdleSurvivorsCount(was, seen, idleSize, timeout, |was|);
    EnoughIdleSurvive(seen, idleSize, timeout, |was|);
    assert was[..|was|] == was;
  }

  /** What holds of the elements of two lists holds of what survives of them. */
  lemma {:induction false} SurvivorsMatch(cs: seq<WriteConnection>, st: seq<Status>, dead: seq<bool>, n: nat)
    requires n <= |cs| == |st| == |dead|
    requires forall i :: 0 <= i < |cs| && !dead[i] ==> cs[i].status == st[i]
    ensures Statuses(Survivors(cs, dead, n)) == Survivors(st, dead, n)
  {
    if n > 0 {
      SurvivorsMatch(cs, st, dead, n - 1);
    }
  }

  lemma {:induction false} ReadSurvivorsMatch(cs: seq<ReadConnection>, st: seq<Status>, dead: seq<bool>, n: nat)
    requires n <= |cs| == |st| == |dead|
    requires forall i :: 0 <= i < |cs| && !dead[i] ==> cs[i].status == st[i]
    ensures ReadStatuses(Survivors(cs, dead, n)) == Survivors(st, dead, n)
  {
    if n > 0 {
      ReadSurvivorsMatch(cs, st, dead, n - 1);
    }
  }

  /** A connection with the zero idle time has, since 1970, always been idle for 9223372036 seconds. */
  lemma ZeroTimeIsLongAgo(now: int, timeout: int)
    requires now >= 0
    ensures TooLong(now, ZERO_TIME, timeout) <==> timeout < 9223372036
  {
  }

  ghost function SeenRead(cs: seq<ReadConnection>, clock: seq<int>): (s: seq<Seen>)
    reads cs
    ensures |s| == |cs|
    ensures forall i :: 0 <= i < |cs| ==>
              s[i] == Seen(cs[i].status == Idle, cs[i].idleSince, Reading(clock, i))
  {
    seq(|cs|, i requires 0 <= i < |cs| reads cs => Seen(cs[i].status == Idle, cs[i].idleSince, Reading(clock, i)))
  }

  ghost function SeenWrite(cs: seq<WriteConnection>, clock: seq<int>): (s: seq<Seen>)
    reads cs
    ensures |s| == |cs|
    ensures forall i :: 0 <= i < |cs| ==>
              s[i] == Seen(cs[i].status == Idle, cs[i].idleSince, Reading(clock, i))
  {
    seq(|cs|, i requires 0 <= i < |cs| reads cs => Seen(cs[i].status == Idle, cs[i].idleSince, Reading(clock, i)))
  }

  function SeenAs(st: seq<Status>, since: seq<int>, clock: seq<int>): (s: seq<Seen>)
    requires |st| == |since|
    ensures |s| == |st|
    ensures forall i :: 0 <= i < |s| ==> s[i] == Seen(st[i] == Idle, since[i], Reading(clock, i))
  {
    seq(|st|, i requires 0 <= i < |st| => Seen(st[i] == Idle, since[i], Reading(clock, i)))
  }

  ghost function Sinces(cs: seq<WriteConnection>): (s: seq<int>)
    reads cs
    ensures |s| == |cs| && forall i :: 0 <= i < |cs| ==> s[i] == cs[i].idleSince
  {
    seq(|cs|, i requires 0 <= i < |cs| reads cs => cs[i].idleSince)
  }

  /** The id under which a client is known; the server reads it from the validated key. */
  datatype ClientId = ClientId(name: string)

  /**
   * Clean of the list `was`, whose statuses were st and are st' now: the list keeps the connections that are
   * not `dead`, in their order; those it drops are CLOSED, and no other has a new status.
   */
  ghost predicate ListCleaned<T>(was: seq<T>, st: seq<Status>, dead: seq<bool>, now: seq<T>, st': seq<Status>) {
    && |st| == |dead| == |st'| == |was|
    && now == Survivors(was, dead, |was|)
    && forall i :: 0 <= i < |was| ==> st'[i] == if dead[i] then Closed else st[i]
  }

  /** A pool as Clean finds it: its lists with their statuses and idle times, the queue, and what decides. */
  datatype Plan = Plan(rs: seq<ReadConnection>, rst: seq<Status>, ws: seq<WriteConnection>, wst: seq<Status>,
                       since: seq<int>, idle: seq<WriteConnection>, idleSize: int, timeout: int, clock: Clock) {
    ghost predicate Ok() {
      |rst| == |rs| && |wst| == |since| == |ws|
    }

    /** Which connections of each list are expired. */
    function ReadDead(): (dead: seq<bool>)
      requires |rst| == |rs|
      ensures |dead| == |rs|
    {
      Fates(SeenAs(rst, seq(|rs|, i => ZERO_TIME), clock.read), idleSize, timeout, |rs|)
    }

    function WriteDead(): (dead: seq<bool>)
      requires |wst| == |since| == |ws|
      ensures |dead| == |ws|
    {
      Fates(SeenAs(wst, since, clock.write), idleSize, timeout, |ws|)
    }

    /** The lists that Clean leaves. */
    function Reads(): seq<ReadConnection>
      requires |rst| == |rs|
    {
      Survivors(rs, ReadDead(), |rs|)
    }

    function Writes(): seq<WriteConnection>
      requires |wst| == |since| == |ws|
    {
      Survivors(ws, WriteDead(), |ws|)
    }
  }

  /** What Clean makes of the lists of a pool; rst and wst are the new statuses of the old members. */
  ghost predicate Pruned(plan: Plan, rs: seq<ReadConnection>, rst: seq<Status>, ws: seq<WriteConnection>,
                         wst: seq<Status>)
    requires plan.Ok()
  {
    && ListCleaned(plan.rs, plan.rst, plan.ReadDead(), rs, rst)
    && ListCleaned(plan.ws, plan.wst, plan.WriteDead(), ws, wst)
  }

  lemma PrunedLists(plan: Plan, rs: seq<ReadConnection>, rst: seq<Status>, ws: seq<WriteConnection>, wst: seq<Status>)
    requires plan.Ok() && Pruned(plan, rs, rst, ws, wst) && NoDup(plan.rs) && NoDup(plan.ws)
    ensures NoDup(rs) && NoDup(ws)
    ensures forall r :: r in rs ==> r in plan.rs
    ensures forall w :: w in ws ==> w in plan.ws
  {
    AllVisited(plan.rs, plan.ReadDead());
    AllVisited(plan.ws, plan.WriteDead());
  }

  /** Of each list at least min(idleSize, IDLE before) connections are IDLE and not expired. */
  ghost predicate SparesEnough(plan: Plan)
    requires plan.Ok()
  {
    && Count(Survivors(plan.rst, plan.ReadDead(), |plan.rs|), Idle) >= Min(plan.idleSize, Count(plan.rst, Idle))
    && Count(Survivors(plan.wst, plan.WriteDead(), |plan.ws|), Idle) >= Min(plan.idleSize, Count(plan.wst, Idle))
  }

  /** Clean leaves them IDLE. */
  lemma IdleRemain(plan: Plan, rs: seq<ReadConnection>, ws: seq<WriteConnection>)
    requires plan.Ok() && SparesEnough(plan)
    requires Pruned(plan, rs, ReadStatuses(plan.rs), ws, Statuses(plan.ws))
    ensures Count(ReadStatuses(rs), Idle) >= Min(plan.idleSize, Count(plan.rst, Idle))
    ensures Count(Statuses(ws), Idle) >= Min(plan.idleSize, Count(plan.wst, Idle))
  {
    ReadSurvivorsMatch(plan.rs, plan.rst, plan.ReadDead(), |plan.rs|);
    SurvivorsMatch(plan.ws, plan.wst, plan.WriteDead(), |plan.ws|);
  }

  /**
   * Of the read connections cs, with statuses st, the list `now` lacks exactly those that are IDLE beyond the
   * first idleSize IDLE ones, or none at all when the timeout is beyond what a Duration can be.
   */
  ghost predicate ByRank(cs: seq<ReadConnection>, st: seq<Status>, now: seq<ReadConnection>, idleSize: int,
                         timeout: int)
    requires |st| == |cs|
  {
    forall i :: 0 <= i < |cs| ==>
      (cs[i] !in now <==> timeout < 9223372036 && st[i] == Idle && Count(st[..i + 1], Idle) > idleSize)
  }

  lemma DeadByRank(cs: seq<ReadConnection>, st: seq<Status>, dead: seq<bool>, idleSize: int, timeout: int)
    requires |st| == |dead| == |cs| && NoDup(cs)
    requires forall i :: 0 <= i < |cs| ==>
               (dead[i] <==> timeout < 9223372036 && st[i] == Idle && Count(st[..i + 1], Idle) > idleSize)
    ensures ByRank(cs, st, Survivors(cs, dead, |cs|), idleSize, timeout)
  {
    SurvivorsAre(cs, dead, |cs|);
  }

  /**
   * Of the connections cs, with statuses st, IDLE since the times given, the list `now` lacks exactly those that
   * are IDLE beyond the first idleSize IDLE ones and have been so for too long when their turn comes.
   */
  ghost predicate ByAge(cs: seq<WriteConnection>, st: seq<Status>, since: seq<int>, readings: seq<int>,
                        now: seq<WriteConnection>, idleSize: int, timeout: int)
    requires |st| == |since| == |cs|
  {
    forall i :: 0 <= i < |cs| ==>
      (cs[i] !in now <==>
        st[i] == Idle && Count(st[..i + 1], Idle) > idleSize && LongIdle(Reading(readings, i), since[i], timeout))
  }

  lemma FateIff(st: seq<Status>, since: seq<int>, readings: seq<int>, idleSize: int, timeout: int, i: nat)
    requires |st| == |since| && i < |st|
    ensures Fates(SeenAs(st, since, readings), idleSize, timeout, |st|)[i] <==>
            st[i] == Idle && Count(st[..i + 1], Idle) > idleSize && LongIdle(Reading(readings, i), since[i], timeout)
  {
    var seen := SeenAs(st, since, readings);
    FateIs(seen, idleSize, timeout, |st|, i);
    IdleSurvivorsCount(st, seen, idleSize, timeout, i + 1);
    TooLongIff(Reading(readings, i), since[i], timeout);
  }

  /** Which connections of a pool Clean finds expired, from their statuses and idle times alone. */
  lemma ExpiredIff(plan: Plan)
    requires plan.Ok()
    ensures forall i :: 0 <= i < |plan.rs| ==>
              (plan.ReadDead()[i] <==>
                && plan.rst[i] == Idle && Count(plan.rst[..i + 1], Idle) > plan.idleSize
                && LongIdle(Reading(plan.clock.read, i), ZERO_TIME, plan.timeout))
    ensures forall i :: 0 <= i < |plan.ws| ==>
              (plan.WriteDead()[i] <==>
                && plan.wst[i] == Idle && Count(plan.wst[..i + 1], Idle) > plan.idleSize
                && LongIdle(Reading(plan.clock.write, i), plan.since[i], plan.timeout))
    ensures NoDup(plan.ws) ==>
              ByAge(plan.ws, plan.wst, plan.since, plan.clock.write, plan.Writes(), plan.idleSize, plan.timeout)
  {
    forall i | 0 <= i < |plan.rs|
      ensures plan.ReadDead()[i] <==>
                && plan.rst[i] == Idle && Count(plan.rst[..i + 1], Idle) > plan.idleSize
                && LongIdle(Reading(plan.clock.read, i), ZERO_TIME, plan.timeout)
    {
      FateIff(plan.rst, seq(|plan.rs|, j => ZERO_TIME), plan.clock.read, plan.idleSize, plan.timeout, i);
    }
    forall i | 0 <= i < |plan.ws|
      ensures plan.WriteDead()[i] <==>
                && plan.wst[i] == Idle && Count(plan.wst[..i + 1], Idle) > plan.idleSize
                && LongIdle(Reading(plan.clock.write, i), plan.since[i], plan.timeout)
    {
      FateIff(plan.wst, plan.since, plan.clock.write, plan.idleSize, plan.timeout, i);
    }
    if NoDup(plan.ws) {
      SurvivorsAre(plan.ws, plan.WriteDead(), |plan.ws|);
    }
  }

  class Pool {
    const clientId: ClientId
    const idleTimeout: int
    const capacity: nat
    var idleSize: int
    var readConnections: seq<ReadConnection>
    var writeConnections: seq<WriteConnection>
    var idle: seq<WriteConnection>
    var done: bool

    /** Lists and queue hold connections of this pool only. */
    ghost predicate Owns()
      reads this
    {
      && (forall r :: r in readConnections ==> r.pool == this)
      && (forall w :: w in writeConnections ==> w.pool == this)
      && (forall w :: w in idle ==> w.pool == this)
    }

    ghost predicate Valid()
      reads this
    {
      NoDup(readConnections) && NoDup(writeConnections) && |idle| <= capacity && Owns()
    }

    constructor (clientId: ClientId, idleTimeout: int, capacity: nat)
      ensures this.clientId == clientId && this.idleTimeout == idleTimeout && this.capacity == capacity
      ensures Valid() && readConnections == [] && writeConnections == [] && idle == [] && idleSize == 0 && !done
    {
      this.clientId := clientId;
      this.idleTimeout := idleTimeout;
      this.capacity := capacity;
      idleSize := 0;
      readConnections, writeConnections, idle := [], [], [];
      done := false;
    }

    /** A pool that was shut down takes no connection, and an unknown type is logged and ignored. */
    method AddConnection(connectionType: int)
      requires Valid()
      modifies this`readConnections, this`writeConnections
      ensures Valid()
      ensures if !done && connectionType == 0
              then |readConnections| == |old(readConnections)| + 1
                   && readConnections[..|old(readConnections)|] == old(readConnections)
                   && fresh(readConnections[|old(readConnections)|])
                   && readConnections[|old(readConnections)|].status == Idle
              else readConnections == old(readConnections)
      ensures if !done && connectionType == 1
              then |writeConnections| == |old(writeConnections)| + 1
                   && writeConnections[..|old(writeConnections)|] == old(writeConnections)
                   && fresh(writeConnections[|old(writeConnections)|])
                   && writeConnections[|old(writeConnections)|].status == Idle
              else writeConnections == old(writeConnections)
    {
      if done {
        return;
      }
      if connectionType == 0 {
        var c := new ReadConnection(this, Idle);
        readConnections := readConnections + [c];
      } else if connectionType == 1 {
        var c := new WriteConnection(this, Idle);
        writeConnections := writeConnections + [c];
      }
    }

    method RemoveWithoutLock(conn: Connection)
      modifies this`readConnections, this`writeConnections
      ensures old(Valid()) ==> Valid()
      ensures readConnections == if conn.OfRead? then Without(old(readConnections), conn.r) else old(readConnections)
      ensures writeConnections ==
              if conn.OfWrite? then Without(old(writeConnections), conn.w) else old(writeConnections)
    {
      match conn
      case OfRead(c) =>
        WithoutKeeps(readConnections, c);
        readConnections := Filtered(readConnections, c);
      case OfWrite(c) =>
        WithoutKeeps(writeConnections, c);
        writeConnections := Filtered(writeConnections, c);
    }

    /** One visit of Clean: closes and removes the connection if it is expired, and counts the IDLE ones. */
    method CleanConnection(conn: Connection, idle: int, now: int) returns (n: int)
      modifies this`readConnections, this`writeConnections, if conn.OfRead? then {conn.r} else {conn.w}
      ensures n == idle + if old(conn.Status()) == Idle then 1 else 0
      ensures var gone :=
                old(conn.Status()) == Idle && n > idleSize && LongIdle(now, old(conn.IdleSince()), idleTimeout);
              && conn.Status() == (if gone then Closed else old(conn.Status()))
              && (readConnections ==
                    if gone && conn.OfRead? then Without(old(readConnections), conn.r) else old(readConnections))
              && (writeConnections ==
                    if gone && conn.OfWrite? then Without(old(writeConnections), conn.w) else old(writeConnections))
      ensures conn.IdleSince() == old(conn.IdleSince())
    {
      n := idle;
      TooLongIff(now, conn.IdleSince(), idleTimeout);
      if conn.Status() == Idle {
        n := n + 1;
        if n > idleSize {
          if TooLong(now, conn.IdleSince(), idleTimeout) {
            match conn {
              case OfRead(r) => r.Close();
              case OfWrite(w) => w.CloseWithOutLock();
            }
            RemoveWithoutLock(conn);
          }
        }
      }
    }

    /** Which connections of each list Clean finds expired. */
    ghost function ReadFates(clock: seq<int>): (dead: seq<bool>)
      reads this`readConnections, this`idleSize, readConnections
      ensures |dead| == |readConnections|
    {
      Fates(SeenRead(readConnections, clock), idleSize, idleTimeout, |readConnections|)
    }

    ghost function WriteFates(clock: seq<int>): (dead: seq<bool>)
      reads this`writeConnections, this`idleSize, writeConnections
      ensures |dead| == |writeConnections|
    {
      Fates(SeenWrite(writeConnections, clock), idleSize, idleTimeout, |writeConnections|)
    }

    /** After n visits of the snapshot cs, whose statuses were `was`: who is gone and who is untouched. */
    ghost predicate ReadProgress(cs: seq<ReadConnection>, seen: seq<Seen>, dead: seq<bool>, was: seq<Status>, n: nat)
      requires n <= |cs| == |seen| == |dead| == |was|
      reads this`readConnections, cs
    {
      && readConnections == Visited(cs, dead, n)
      && (forall j :: 0 <= j < |cs| ==>
            && cs[j].idleSince == seen[j].since && (was[j] == Idle <==> seen[j].idle)
            && cs[j].status == (if j < n && dead[j] then Closed else was[j]))
    }

    method VisitRead(cs: seq<ReadConnection>, i: nat, idle: nat, now: int,
                     ghost seen: seq<Seen>, ghost dead: seq<bool>, ghost was: seq<Status>) returns (n: nat)
      requires i < |cs| == |seen| == |dead| == |was| && NoDup(cs)
      requires ReadProgress(cs, seen, dead, was, i) && idle == IdleCount(seen, i)
      requires seen[i].now == now && dead[i] == Expired(seen, i, idleSize, idleTimeout)
      modifies this`readConnections, this`writeConnections, cs[i]
      ensures ReadProgress(cs, seen, dead, was, i + 1) && n == IdleCount(seen, i + 1)
      ensures writeConnections == old(writeConnections)
    {
      n := CleanConnection(OfRead(cs[i]), idle, now);
    }

    /** The loop over a snapshot of the read connections, while the field is replaced under it. */
    method CleanRead(clock: seq<int>, ghost seen: seq<Seen>, ghost dead: seq<bool>, ghost was: seq<Status>)
      requires NoDup(readConnections) && |seen| == |dead| == |was| == |readConnections|
      requires ReadProgress(readConnections, seen, dead, was, 0)
      requires forall i :: 0 <= i < |seen| ==> seen[i].now == Reading(clock, i)
      requires dead == Fates(seen, idleSize, idleTimeout, |seen|)
      modifies this`readConnections, this`writeConnections, readConnections
      ensures ReadProgress(old(readConnections), seen, dead, was, |dead|)
      ensures writeConnections == old(writeConnections)
    {
      var snapshot := readConnections;
      var idle := 0;
      for i := 0 to |snapshot|
        invariant ReadProgress(snapshot, seen, dead, was, i) && idle == IdleCount(seen, i)
        invariant writeConnections == old(writeConnections)
      {
        FateIs(seen, idleSize, idleTimeout, |snapshot|, i);
        idle := VisitRead(snapshot, i, idle, Reading(clock, i), seen, dead, was);
      }
    }

    /** After n visits of the snapshot cs, whose statuses were `was`: who is gone and who is untouched. */
    ghost predicate WriteProgress(cs: seq<WriteConnection>, seen: seq<Seen>, dead: seq<bool>, was: seq<Status>, n: nat)
      requires n <= |cs| == |seen| == |dead| == |was|
      reads this`writeConnections, cs
    {
      && writeConnections == Visited(cs, dead, n)
      && (forall j :: 0 <= j < |cs| ==>
            && cs[j].idleSince == seen[j].since && (was[j] == Idle <==> seen[j].idle)
            && cs[j].status == (if j < n && dead[j] then Closed else was[j]))
    }

    method VisitWrite(cs: seq<WriteConnection>, i: nat, idle: nat, now: int,
                     ghost seen: seq<Seen>, ghost dead: seq<bool>, ghost was: seq<Status>) returns (n: nat)
      requires i < |cs| == |seen| == |dead| == |was| && NoDup(cs)
      requires WriteProgress(cs, seen, dead, was, i) && idle == IdleCount(seen, i)
      requires seen[i].now == now && dead[i] == Expired(seen, i, idleSize, idleTimeout)
      modifies this`readConnections, this`writeConnections, cs[i]
      ensures WriteProgress(cs, seen, dead, was, i + 1) && n == IdleCount(seen, i + 1)
      ensures readConnections == old(readConnections)
    {
      n := CleanConnection(OfWrite(cs[i]), idle, now);
    }

    /** The loop over a snapshot of the write connections, while the field is replaced under it. */
    method CleanWrite(clock: seq<int>, ghost seen: seq<Seen>, ghost dead: seq<bool>, ghost was: seq<Status>)
      requires NoDup(writeConnections) && |seen| == |dead| == |was| == |writeConnections|
      requires WriteProgress(writeConnections, seen, dead, was, 0)
      requires forall i :: 0 <= i < |seen| ==> seen[i].now == Reading(clock, i)
      requires dead == Fates(seen, idleSize, idleTimeout, |seen|)
      modifies this`readConnections, this`writeConnections, writeConnections
      ensures WriteProgress(old(writeConnections), seen, dead, was, |dead|)
      ensures readConnections == old(readConnections)
    {
      var snapshot := writeConnections;
      var idle := 0;
      for i := 0 to |snapshot|
        invariant WriteProgress(snapshot, seen, dead, was, i) && idle == IdleCount(seen, i)
        invariant readConnections == old(readConnections)
      {
        FateIs(seen, idleSize, idleTimeout, |snapshot|, i);
        idle := VisitWrite(snapshot, i, idle, Reading(clock, i), seen, dead, was);
      }
    }

    method CleanReadList(clock: seq<int>)
      requires NoDup(readConnections)
      modifies this`readConnections, this`writeConnections, readConnections
      ensures writeConnections == old(writeConnections)
      ensures ListCleaned(old(readConnections), old(ReadStatuses(readConnections)), old(ReadFates(clock)),
                          readConnections, ReadStatuses(old(readConnections)))
    {
      ghost var cs, dead, was := readConnections, ReadFates(clock), ReadStatuses(readConnections);
      AllVisited(cs, dead);
      CleanRead(clock, SeenRead(cs, clock), dead, was);
    }

    method CleanWriteList(clock: seq<int>)
      requires NoDup(writeConnections)
      modifies this`readConnections, this`writeConnections, writeConnections
      ensures readConnections == old(readConnections)
      ensures ListCleaned(old(writeConnections), old(Statuses(writeConnections)), old(WriteFates(clock)),
                          writeConnections, Statuses(old(writeConnections)))
      ensures Sinces(old(writeConnections)) == old(Sinces(writeConnections))
    {
      ghost var cs, dead, was := writeConnections, WriteFates(clock), Statuses(writeConnections);
      AllVisited(cs, dead);
      CleanWrite(clock, SeenWrite(cs, clock), dead, was);
    }

    /**
     * A read connection's idleSince is never set, so IdleTimeout does not tell the read connections of a pool
     * apart: below 9223372036 seconds exactly those are expired that are IDLE beyond the first idleSize IDLE
     * ones, from there on none is.
     */
    lemma ReadTimeoutIsInert(clock: seq<int>)
      requires NoDup(readConnections) && forall i :: 0 <= i < |clock| ==> clock[i] >= 0
      ensures forall i :: 0 <= i < |readConnections| ==>
                (ReadFates(clock)[i] <==>
                  && idleTimeout < 9223372036
                  && readConnections[i].status == Idle
                  && Count(ReadStatuses(readConnections)[..i + 1], Idle) > idleSize)
      ensures ByRank(readConnections, ReadStatuses(readConnections),
                     Survivors(readConnections, ReadFates(clock), |readConnections|), idleSize, idleTimeout)
    {
      var cs, st, dead := readConnections, ReadStatuses(readConnections), ReadFates(clock);
      var seen := SeenRead(cs, clock);
      forall i | 0 <= i < |cs|
        ensures dead[i] <==> idleTimeout < 9223372036 && st[i] == Idle && Count(st[..i + 1], Idle) > idleSize
      {
        FateIs(seen, idleSize, idleTimeout, |cs|, i);
        IdleSurvivorsCount(st, seen, idleSize, idleTimeout, i + 1);
        ZeroTimeIsLongAgo(Reading(clock, i), idleTimeout);
      }
      DeadByRank(cs, st, dead, idleSize, idleTimeout);
    }

    ghost function PlanOf(clock: Clock): (plan: Plan)
      reads this, readConnections, writeConnections
      ensures plan.Ok()
    {
      Plan(readConnections, ReadStatuses(readConnections), writeConnections, Statuses(writeConnections),
           Sinces(writeConnections), idle, idleSize, idleTimeout, clock)
    }

    lemma PlanFates(clock: Clock)
      ensures PlanOf(clock).ReadDead() == ReadFates(clock.read) && PlanOf(clock).WriteDead() == WriteFates(clock.write)
    {
      var plan := PlanOf(clock);
      assert SeenAs(plan.rst, seq(|plan.rs|, i => ZERO_TIME), clock.read) == SeenRead(plan.rs, clock.read);
      assert SeenAs(plan.wst, plan.since, clock.write) == SeenWrite(plan.ws, clock.write);
    }

    lemma PlanSparesEnough(clock: Clock)
      ensures SparesEnough(PlanOf(clock))
    {
      var plan := PlanOf(clock);
      PlanFates(clock);
      EnoughIdleLeft(plan.rst, SeenRead(plan.rs, clock.read), idleSize, idleTimeout);
      EnoughIdleLeft(plan.wst, SeenWrite(plan.ws, clock.write), idleSize, idleTimeout);
    }

    /** The two loops of Clean, one after the other. */
    method CleanLists(clock: Clock)
      requires NoDup(readConnections) && NoDup(writeConnections)
      modifies this`readConnections, this`writeConnections, readConnections, writeConnections
      ensures Pruned(old(PlanOf(clock)), readConnections, ReadStatuses(old(readConnections)),
                     writeConnections, Statuses(old(writeConnections)))
      ensures Sinces(old(writeConnections)) == old(Sinces(writeConnections))
    {
      ghost var plan := PlanOf(clock);
      assert plan.ReadDead() == ReadFates(clock.read) && plan.WriteDead() == WriteFates(clock.write) by {
        PlanFates(clock);
      }
      CleanReadList(clock.read);
      assert Statuses(writeConnections) == plan.wst && WriteFates(clock.write) == plan.WriteDead();
      assert Sinces(writeConnections) == plan.since;
      ghost var rst := ReadStatuses(plan.rs);
      CleanWriteList(clock.write);
      assert ReadStatuses(plan.rs) == rst;
    }

    method CleanBoth(clock: Clock)
      requires Valid()
      modifies this`readConnections, this`writeConnections, readConnections, writeConnections
      ensures Valid()
      ensures Pruned(old(PlanOf(clock)), readConnections, ReadStatuses(old(readConnections)),
                     writeConnections, Statuses(old(writeConnections)))
      ensures Sinces(old(writeConnections)) == old(Sinces(writeConnections))
    {
      ghost var plan := PlanOf(clock);
      CleanLists(clock);
      assert Valid() by {
        PrunedLists(plan, readConnections, ReadStatuses(plan.rs), writeConnections, Statuses(plan.ws));
        ValidWithin(plan.rs, plan.ws);
      }
    }

    /**
     * Clean keeps, in each list, exactly the connections that are not expired, and so at least
     * min(idleSize, IDLE before) connections that are IDLE. Of the read connections it removes exactly the
     * IDLE ones beyond idleSize, unless the timeout is longer than a Duration can be; of the write connections
     * those of them that have been IDLE for too long.
     */
    method Clean(clock: Clock)
      requires Valid()
      modifies this`readConnections, this`writeConnections, readConnections, writeConnections
      ensures Valid()
      ensures Pruned(old(PlanOf(clock)), readConnections, ReadStatuses(old(readConnections)),
                     writeConnections, Statuses(old(writeConnections)))
      ensures Sinces(old(writeConnections)) == old(Sinces(writeConnections))
      ensures (forall i :: 0 <= i < |clock.read| ==> clock.read[i] >= 0) ==>
                ByRank(old(readConnections), old(ReadStatuses(readConnections)), readConnections, idleSize, idleTimeout)
      ensures ByAge(old(writeConnections), old(Statuses(writeConnections)), old(Sinces(writeConnections)), clock.write,
                    writeConnections, idleSize, idleTimeout)
      ensures Count(ReadStatuses(readConnections), Idle) >=
              Min(idleSize, old(Count(ReadStatuses(readConnections), Idle)))
      ensures Count(Statuses(writeConnections), Idle) >= Min(idleSize, old(Count(Statuses(writeConnections), Idle)))
    {
      ghost var plan, timeout := PlanOf(clock), idleTimeout;
      ghost var left := Survivors(plan.rs, plan.ReadDead(), |plan.rs|);
      ghost var inert := ByRank(plan.rs, plan.rst, left, plan.idleSize, timeout);
      assert (forall i :: 0 <= i < |clock.read| ==> clock.read[i] >= 0) ==> inert by {
        if forall i :: 0 <= i < |clock.read| ==> clock.read[i] >= 0 {
          PlanFates(clock);
          ReadTimeoutIsInert(clock.read);
        }
      }
      assert SparesEnough(plan) by {
        PlanSparesEnough(clock);
      }
      assert ByAge(plan.ws, plan.wst, plan.since, clock.write, plan.Writes(), plan.idleSize, timeout) by {
        ExpiredIff(plan);
      }
      CleanBoth(clock);
      assert Count(ReadStatuses(readConnections), Idle) >= Min(plan.idleSize, Count(plan.rst, Idle))
             && Count(Statuses(writeConnections), Idle) >= Min(plan.idleSize, Count(plan.wst, Idle)) by {
        IdleRemain(plan, readConnections, writeConnections);
      }
    }

    /** Shorter lists of connections of this pool are as good. */
    lemma ValidWithin(rs: seq<ReadConnection>, ws: seq<WriteConnection>)
      requires NoDup(readConnections) && NoDup(writeConnections) && |idle| <= capacity
      requires (forall r :: r in readConnections ==> r in rs) && (forall w :: w in writeConnections ==> w in ws)
      requires (forall r :: r in rs ==> r.pool == this) && (forall w :: w in ws ==> w.pool == this)
      requires forall w :: w in idle ==> w.pool == this
      ensures Valid()
    {
    }

    /** Cleans the pool and tells whether nothing is left. */
    method IsEmpty(clock: Clock) returns (empty: bool)
      requires Valid()
      modifies this`readConnections, this`writeConnections, readConnections, writeConnections
      ensures Valid()
      ensures Pruned(old(PlanOf(clock)), readConnections, ReadStatuses(old(readConnections)),
                     writeConnections, Statuses(old(writeConnections)))
      ensures Sinces(old(writeConnections)) == old(Sinces(writeConnections))
      ensures empty <==> readConnections == [] && writeConnections == []
    {
      Clean(clock);
      empty := |writeConnections| == 0 && |readConnections| == 0;
    }

    /** Closes every connection and empties the lists; the pool takes no connection any more. */
    method Shutdown()
      requires Valid()
      modifies this`done, this`readConnections, this`writeConnections, readConnections, writeConnections
      ensures Valid() && done && readConnections == [] && writeConnections == []
      ensures forall r :: r in old(readConnections) ==> r.status == Closed
      ensures forall w :: w in old(writeConnections) ==> w.status == Closed
    {
      done := true;
      for i := 0 to |writeConnections|
        invariant writeConnections == old(writeConnections) && readConnections == old(readConnections) && done
        invariant forall j :: 0 <= j < i ==> writeConnections[j].status == Closed
      {
        writeConnections[i].CloseWithOutLock();
      }
      for i := 0 to |readConnections|
        invariant writeConnections == old(writeConnections) && readConnections == old(readConnections) && done
        invariant forall w :: w in writeConnections ==> w.status == Closed
        invariant forall j :: 0 <= j < i ==> readConnections[j].status == Closed
      {
        readConnections[i].Close();
      }
      readConnections, writeConnections := [], [];
    }

    /** The BUSY write connections, in the order of the list. */
    method GetAllBusyWriteConnections() returns (busy: seq<WriteConnection>)
      ensures busy == Survivors(writeConnections, NotBusy(), |writeConnections|)
      ensures forall w :: w in busy <==> w in writeConnections && w.status == Busy
    {
      busy := [];
      for i := 0 to |writeConnections|
        invariant busy == Survivors(writeConnections, NotBusy(), i)
      {
        if writeConnections[i].status == Busy {
          busy := busy + [writeConnections[i]];
        }
      }
      SurvivorsFrom(writeConnections, NotBusy(), |writeConnections|);
    }

    ghost function NotBusy(): (skip: seq<bool>)
      reads this`writeConnections, writeConnections
      ensures |skip| == |writeConnections|
      ensures forall i :: 0 <= i < |skip| ==> skip[i] == (writeConnections[i].status != Busy)
    {
      var ws := writeConnections;
      seq(|ws|, i requires 0 <= i < |ws| reads ws => ws[i].status != Busy)
    }

    /** Pops entries until one is IDLE, and takes it. */
    method GetIdleWriteConnection(timeout: int, waits: seq<Wait>) returns (conn: Option<WriteConnection>)
      requires WaitsFor(timeout, waits, |idle|)
      modifies this`idle, idle`status
      ensures Dequeued(old(idle), old(Statuses(idle)), waits, idle, conn)
      ensures conn.Some? <==> Gets(old(Statuses(idle)), waits)
    {
      conn, idle := Dequeue(idle, timeout, waits);
    }

    /** From GetIdleWriteConnection to the end of the exchange, which succeeds or not. */
    method Proxy(timeout: int, waits: seq<Wait>, ok: bool, now: int) returns (r: Proxied)
      requires Valid() && WaitsFor(timeout, waits, |idle|)
      modifies this`idle, this`readConnections, this`writeConnections, idle
      ensures Valid() && Used(old(idle), old(Statuses(idle)), waits, idle, r, ok, now)
      ensures r != NoConnection <==> Gets(old(Statuses(idle)), waits)
      ensures readConnections == old(readConnections)
      ensures writeConnections == ListAfter(old(writeConnections), old(idle), r)
    {
      ghost var was, st := idle, Statuses(idle);
      var queued := |idle|;
      var conn := GetIdleWriteConnection(timeout, waits);
      if conn == None {
        return NoConnection;
      }
      r, idle := Exchange(was, st, waits, queued - |idle| - 1, conn.value, idle, capacity, ok, now);
      assert Valid() && (!ok ==> r.entry < |was|) by {
        UsedMembers(was, st, waits, idle, r, ok, now);
      }
      if !ok {
        RemoveWithoutLock(OfWrite(conn.value));
      }
    }

    /**
     * The pool's part of getConnectionStatus, with the outcome of the ping. If an IDLE entry is found in time
     * the answer is that of the ping, and the entry goes to the end of the queue; otherwise it says whether some
     * write connection is BUSY. Every queued connection keeps the status it had.
     */
    method Reachable(timeout: int, waits: seq<Wait>, pong: bool, now: int) returns (connected: bool)
      requires Valid() && WaitsFor(timeout, waits, |idle|)
      modifies this`idle, idle
      ensures Valid() && Asked(old(idle), old(Statuses(idle)), waits, idle)
      ensures connected <==> if Gets(old(Statuses(idle)), waits) then pong
                             else exists w :: w in writeConnections && old(w.status) == Busy
    {
      var busy := GetAllBusyWriteConnections();
      assert |busy| > 0 ==> busy[0] in busy;
      var found := Probe(timeout, waits, now);
      return if found then pong else |busy| > 0;
    }

    /** Takes an IDLE connection, if there is one in time, to ping it. */
    method Probe(timeout: int, waits: seq<Wait>, now: int) returns (found: bool)
      requires Valid() && WaitsFor(timeout, waits, |idle|)
      modifies this`idle, idle
      ensures Valid() && Asked(old(idle), old(Statuses(idle)), waits, idle)
      ensures found <==> Gets(old(Statuses(idle)), waits)
    {
      ghost var was, st := idle, Statuses(idle);
      var queued := |idle|;
      var conn := GetIdleWriteConnection(timeout, waits);
      if conn == None {
        return false;
      }
      Ping(was, st, waits, queued - |idle| - 1, conn.value, now);
      return true;
    }

    /** SendPingMessage releases the connection whatever became of the ping: IDLE, at the end of the queue. */
    method Ping(ghost was: seq<WriteConnection>, ghost st: seq<Status>, ghost waits: seq<Wait>, k: nat,
                conn: WriteConnection, now: int)
      requires |st| == |was| <= capacity && Dequeued(was, st, waits, idle, Some(conn)) && k == |was| - |idle| - 1
      requires forall i, j :: 0 <= i < |was| && 0 <= j < |was| && was[i] == was[j] ==> st[i] == st[j]
      modifies this`idle, conn
      ensures idle == was[k + 1..] + [was[k]] && conn.status == Idle && conn.idleSince == now
      ensures Asked(was, st, waits, idle) && forall w :: w in idle ==> w in was
    {
      var r, rest := Exchange(was, st, waits, k, conn, idle, capacity, true, now);
      UsedMembers(was, st, waits, rest, r, true, now);
      AnsweredIsAsked(was, st, waits, rest, k, now);
      idle := rest;
    }
  }
}
