/** Values and sequence functions shared by the whole model. */
module Types {

  datatype Option<+T> = None | Some(value: T)

  /** Status of a connection, common/types.go. */
  datatype Status = Connecting | Idle | Busy | Closed

  /** The two roles a connection can have. */
  datatype Kind = Read | Write

  /** Times are nanoseconds since the Unix epoch; this is the zero value of Go's time.Time, year 1. */
  const ZERO_TIME: int := -62135596800_000000000

  /** The range of Go's int and of a Duration in nanoseconds. */
  const MAX_INT64: int := 0x7fff_ffff_ffff_ffff
  const MIN_INT64: int := -MAX_INT64 - 1

  predicate IsInt64(x: int) { MIN_INT64 <= x <= MAX_INT64 }

  function Min(a: int, b: int): int { if a < b then a else b }

  function Max(a: int, b: int): int { if a < b then b else a }

  /** `Take` under the connection lock: the new status and whether the connection was taken. */
  function TakeResult(status: Status): (Status, bool) {
    if status == Closed || status == Busy then (status, false) else (Busy, true)
  }

  /** The sequence without any occurrence of x, in the same order. */
  function Without<T(==)>(s: seq<T>, x: T): seq<T> {
    if s == [] then [] else (if s[0] == x then [] else [s[0]]) + Without(s[1..], x)
  }

  /** How often x occurs in s. */
  function Count<T(==)>(s: seq<T>, x: T): nat {
    if s == [] then 0 else (if s[0] == x then 1 else 0) + Count(s[1..], x)
  }

  ghost predicate NoDup<T>(s: seq<T>) {
    forall i, j :: 0 <= i < j < |s| ==> s[i] != s[j]
  }

  lemma {:induction false} CountAppend<T>(s: seq<T>, y: T, x: T)
    ensures Count(s + [y], x) == Count(s, x) + if x == y then 1 else 0
  {
    if s == [] {
      assert s + [y] == [y];
    } else {
      assert (s + [y])[1..] == s[1..] + [y];
      CountAppend(s[1..], y, x);
    }
  }

  lemma {:induction false} CountPositive<T>(s: seq<T>, x: T)
    ensures x in s <==> Count(s, x) > 0
  {
    if s != [] {
      CountPositive(s[1..], x);
      assert x in s <==> x == s[0] || x in s[1..];
    }
  }

  lemma {:induction false} CountAtMostOneIsNoDup<T>(s: seq<T>)
    requires forall x :: x in s ==> Count(s, x) <= 1
    ensures NoDup(s)
  {
    if s != [] {
      forall x | x in s[1..] ensures Count(s[1..], x) <= 1 {
        assert x in s;
      }
      CountAtMostOneIsNoDup(s[1..]);
      CountPositive(s[1..], s[0]);
      assert s[0] in s && Count(s, s[0]) <= 1;
      forall i, j | 0 <= i < j < |s| ensures s[i] != s[j] {
        assert s[j] == s[1..][j - 1];
        if i > 0 {
          assert s[i] == s[1..][i - 1];
        }
      }
    }
  }

  /** `Without` is the order-preserving filter: it keeps what differs from x and loses only x. */
  lemma {:induction false} WithoutMembers<T>(s: seq<T>, x: T)
    ensures forall y :: y in Without(s, x) <==> y in s && y != x
    ensures |Without(s, x)| == |s| - Count(s, x)
  {
    if s != [] {
      WithoutMembers(s[1..], x);
      assert forall y :: y in s <==> y == s[0] || y in s[1..];
    }
  }

  lemma {:induction false} WithoutAppend<T>(a: seq<T>, b: seq<T>, x: T)
    ensures Without(a + b, x) == Without(a, x) + Without(b, x)
  {
    if a == [] {
      assert a + b == b;
    } else {
      assert (a + b)[1..] == a[1..] + b;
      WithoutAppend(a[1..], b, x);
    }
  }

  /** The loop of both RemoveWithoutLock methods. */
  method Filtered<T(==)>(s: seq<T>, x: T) returns (filtered: seq<T>)
    ensures filtered == Without(s, x)
  {
    filtered := [];
    for i := 0 to |s|
      invariant filtered == Without(s[..i], x)
    {
      WithoutAppend(s[..i], [s[i]], x);
      assert s[..i + 1] == s[..i] + [s[i]];
      if x != s[i] {
        filtered := filtered + [s[i]];
      }
    }
    assert s[..|s|] == s;
  }

  lemma {:induction false} WithoutAbsent<T>(s: seq<T>, x: T)
    requires x !in s
    ensures Without(s, x) == s
  {
    if s != [] {
      WithoutAbsent(s[1..], x);
    }
  }

  lemma {:induction false} WithoutNoDup<T>(s: seq<T>, x: T)
    requires NoDup(s)
    ensures NoDup(Without(s, x))
  {
    if s != [] {
      forall i, j | 0 <= i < j < |s[1..]| ensures s[1..][i] != s[1..][j] {
        assert s[i + 1] != s[j + 1];
      }
      WithoutNoDup(s[1..], x);
      WithoutMembers(s[1..], x);
      var rest := Without(s[1..], x);
      assert s[0] !in rest;
      var r := Without(s, x);
      forall i, j | 0 <= i < j < |r| ensures r[i] != r[j] {
        if s[0] != x {
          assert r[j] == rest[j - 1] && (i > 0 ==> r[i] == rest[i - 1]);
          assert rest[j - 1] in rest;
        }
      }
    }
  }

  /** A filtered list is no longer, has no new member, and is free of duplicates if it was before. */
  lemma WithoutKeeps<T>(s: seq<T>, x: T)
    ensures |Without(s, x)| <= |s| && forall y :: y in Without(s, x) ==> y in s
    ensures NoDup(s) ==> NoDup(Without(s, x))
  {
    WithoutMembers(s, x);
    if NoDup(s) {
      WithoutNoDup(s, x);
    }
  }

  /** Removing one occurrence from the middle of a duplicate-free sequence. */
  lemma WithoutMiddle<T>(a: seq<T>, x: T, b: seq<T>)
    requires x !in a && x !in b
    ensures Without(a + [x] + b, x) == a + b
  {
    WithoutAppend(a + [x], b, x);
    WithoutAppend(a, [x], x);
    WithoutAbsent(a, x);
    WithoutAbsent(b, x);
    assert [x][1..] == [] && Without([x], x) == [];
    assert Without(a + [x], x) == a + [] == a;
  }

  /** Pigeonhole: a duplicate-free sequence drawn from another one is no longer than it. */
  lemma {:induction false} Pigeonhole<T>(s: seq<T>, t: seq<T>)
    requires NoDup(s)
    requires forall x :: x in s ==> x in t
    ensures |s| <= |t|
  {
    if s != [] {
      var x := s[0];
      forall y | y in s[1..] ensures y in Without(t, x) {
        WithoutMembers(t, x);
        var j :| 0 <= j < |s[1..]| && s[1..][j] == y;
        assert s[0] != s[j + 1];
      }
      forall i, j | 0 <= i < j < |s[1..]| ensures s[1..][i] != s[1..][j] {
        assert s[i + 1] != s[j + 1];
      }
      Pigeonhole(s[1..], Without(t, x));
      WithoutMembers(t, x);
      CountPositive(t, x);
    }
  }

  /** Above finitely many numbers there is another one. */
  lemma {:induction false} Above(used: set<nat>) returns (n: nat)
    ensures forall u :: u in used ==> u < n
    decreases |used|
  {
    if used == {} {
      n := 0;
    } else {
      var u :| u in used;
      var r := Above(used - {u});
      n := if r <= u then u + 1 else r;
      forall w | w in used ensures w < n {
        assert w == u || w in used - {u};
      }
    }
  }
}
