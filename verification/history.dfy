/**
 * What the server's operations do to the lists of the registered pools, and how long a connection that has
 * been registered is found by later requests.
 */
module History {
  import opened Types
  import opened Serving
  import opened Connections
  import opened ServerPool

  /** The two lists of a pool. */
  datatype Members = Members(rs: seq<ReadConnection>, ws: seq<WriteConnection>)

  /** The registry: the lists of every client that has a pool. */
  type View = map<ClientId, Members>

  const NOBODY := Members([], [])

  /** What a request for the client finds. */
  function Of(v: View, id: ClientId): Members {
    if id in v then v[id] else NOBODY
  }

  predicate Listed(v: View, id: ClientId, c: Connection) {
    match c
    case OfRead(r) => r in Of(v, id).rs
    case OfWrite(w) => w in Of(v, id).ws
  }

  /** Who in the two lists of a pool is expired. */
  datatype Dead = Dead(rs: seq<bool>, ws: seq<bool>)

  datatype Op =
    | Nothing
    | Joined(id: ClientId, rs: seq<ReadConnection>, ws: seq<WriteConnection>)   // Register
    | Swept(dead: map<ClientId, Dead>)                                          // clean
    | Served(id: ClientId, failed: Option<WriteConnection>)                     // Request
    | Left(id: ClientId, conn: Connection)                                      // Remove, as a connection ends

  ghost predicate DeadFits(v: View, dead: map<ClientId, Dead>) {
    && dead.Keys == v.Keys
    && forall id :: id in v ==> |dead[id].rs| == |v[id].rs| && |dead[id].ws| == |v[id].ws|
  }

  function Spared(m: Members, d: Dead): Members
    requires |d.rs| == |m.rs| && |d.ws| == |m.ws|
  {
    Members(Survivors(m.rs, d.rs, |m.rs|), Survivors(m.ws, d.ws, |m.ws|))
  }

  function Drop(m: Members, c: Connection): Members {
    match c
    case OfRead(r) => m.(rs := Without(m.rs, r))
    case OfWrite(w) => m.(ws := Without(m.ws, w))
  }

  /** An operation takes the registry from v to v'. */
  ghost predicate Effect(v: View, op: Op, v': View) {
    match op
    case Nothing => v' == v
    case Joined(id, rs, ws) => v' == v[id := Members(Of(v, id).rs + rs, Of(v, id).ws + ws)]
    case Swept(dead) =>
      && DeadFits(v, dead)
      && (forall id :: id in v' ==> id in v)
      && (forall id :: id in v ==> (id in v' <==> Spared(v[id], dead[id]) != NOBODY))
      && (forall id :: id in v' ==> v'[id] == Spared(v[id], dead[id]))
    case Served(id, failed) =>
      if id in v && failed.Some? then v' == v[id := Drop(v[id], OfWrite(failed.value))] else v' == v
    case Left(id, conn) => if id in v then v' == v[id := Drop(v[id], conn)] else v' == v
  }

  /** What ends the membership of c: it is expired at a clean, its own exchange fails, or it leaves. */
  ghost predicate Ends(v: View, op: Op, id: ClientId, c: Connection)
    requires op.Swept? ==> DeadFits(v, op.dead)
  {
    match op
    case Nothing => false
    case Joined(_, _, _) => false
    case Swept(dead) =>
      id in v &&
      (match c
       case OfRead(r) => forall i :: 0 <= i < |v[id].rs| && v[id].rs[i] == r ==> dead[id].rs[i]
       case OfWrite(w) => forall i :: 0 <= i < |v[id].ws| && v[id].ws[i] == w ==> dead[id].ws[i])
    case Served(k, failed) => k == id && c.OfWrite? && failed == Some(c.w)
    case Left(k, conn) => k == id && conn == c
  }

  lemma DropMembers(m: Members, c: Connection, d: Connection)
    ensures match d
            case OfRead(r) => r in Drop(m, c).rs <==> r in m.rs && c != d
            case OfWrite(w) => w in Drop(m, c).ws <==> w in m.ws && c != d
  {
    match c
    case OfRead(r) => WithoutMembers(m.rs, r);
    case OfWrite(w) => WithoutMembers(m.ws, w);
  }

  lemma SpareMembers(m: Members, d: Dead)
    requires |d.rs| == |m.rs| && |d.ws| == |m.ws|
    ensures forall r :: r in Spared(m, d).rs <==> exists i :: 0 <= i < |m.rs| && m.rs[i] == r && !d.rs[i]
    ensures forall w :: w in Spared(m, d).ws <==> exists i :: 0 <= i < |m.ws| && m.ws[i] == w && !d.ws[i]
  {
    SurvivorsFrom(m.rs, d.rs, |m.rs|);
    SurvivorsFrom(m.ws, d.ws, |m.ws|);
  }

  /** One operation: a listed connection stays listed exactly when the operation does not end it. */
  lemma KeptOrEnded(v: View, op: Op, v': View, id: ClientId, c: Connection)
    requires Effect(v, op, v') && Listed(v, id, c)
    ensures Listed(v', id, c) <==> !Ends(v, op, id, c)
  {
    match op
    case Nothing =>
    case Joined(_, _, _) =>
    case Swept(dead) => SpareMembers(v[id], dead[id]);
    case Served(k, failed) =>
      if k == id && failed.Some? {
        DropMembers(v[id], OfWrite(failed.value), c);
      }
    case Left(k, conn) =>
      if k == id {
        DropMembers(v[id], conn, c);
      }
  }

  ghost predicate Joins(op: Op, c: Connection) {
    op.Joined? && match c case OfRead(r) => r in op.rs case OfWrite(w) => w in op.ws
  }

  lemma OnlyJoined(v: View, op: Op, v': View, id: ClientId, c: Connection)
    requires Effect(v, op, v') && !Listed(v, id, c) && !Joins(op, c)
    ensures !Listed(v', id, c)
  {
    match op
    case Nothing =>
    case Joined(_, _, _) =>
    case Swept(dead) =>
      if id in v {
        SpareMembers(v[id], dead[id]);
      }
    case Served(k, failed) =>
      if id in v && k == id && failed.Some? {
        DropMembers(v[id], OfWrite(failed.value), c);
      }
    case Left(k, conn) =>
      if id in v && k == id {
        DropMembers(v[id], conn, c);
      }
  }

  ghost predicate StepAt(views: seq<View>, ops: seq<Op>, i: int)
    requires 0 <= i < |ops| && |views| == |ops| + 1
  {
    && Effect(views[i], ops[i], views[i + 1])
    && (ops[i].Joined? ==>
          forall k, id :: 0 <= k <= i ==>
            && (forall r :: r in ops[i].rs ==> r !in Of(views[k], id).rs)
            && (forall w :: w in ops[i].ws ==> w !in Of(views[k], id).ws))
  }

  /** Any sequence of operations; a connection that joins is a new one. */
  ghost predicate IsHistory(views: seq<View>, ops: seq<Op>) {
    |views| == |ops| + 1 && forall i :: 0 <= i < |ops| ==> StepAt(views, ops, i)
  }

  ghost predicate EndsAt(views: seq<View>, ops: seq<Op>, id: ClientId, c: Connection, k: int)
    requires IsHistory(views, ops) && 0 <= k < |ops|
  {
    assert StepAt(views, ops, k);
    Ends(views[k], ops[k], id, c)
  }

  /**
   * Over any history, a connection that is listed at some time is listed later exactly when no operation in
   * between ended it: it was never expired at a clean, its own exchanges did not fail, and it did not leave.
   */
  lemma {:induction false} ListedUntilEnded(views: seq<View>, ops: seq<Op>, i: nat, j: nat, id: ClientId, c: Connection)
    requires IsHistory(views, ops) && i <= j < |views| && Listed(views[i], id, c)
    ensures Listed(views[j], id, c) <==> forall k :: i <= k < j ==> !EndsAt(views, ops, id, c, k)
    decreases j
  {
    if i < j {
      ListedUntilEnded(views, ops, i, j - 1, id, c);
      assert StepAt(views, ops, j - 1);
      if Listed(views[j - 1], id, c) {
        KeptOrEnded(views[j - 1], ops[j - 1], views[j], id, c);
        assert EndsAt(views, ops, id, c, j - 1) <==> !Listed(views[j], id, c);
      } else {
        OnlyJoined(views[j - 1], ops[j - 1], views[j], id, c);
      }
    }
  }

  /** A completed registration is found by every later request, until an operation ends it. */
  lemma RegisteredIsFound(views: seq<View>, ops: seq<Op>, i: nat, j: nat, c: Connection)
    requires IsHistory(views, ops) && i < |ops| && i < j < |views|
    requires ops[i].Joined? && Joins(ops[i], c)
    ensures Listed(views[j], ops[i].id, c) <==> forall k :: i < k < j ==> !EndsAt(views, ops, ops[i].id, c, k)
  {
    assert StepAt(views, ops, i);
    ListedUntilEnded(views, ops, i + 1, j, ops[i].id, c);
  }
}
