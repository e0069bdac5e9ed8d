/** The retry interval of the client pool's ticker, client/pool.go, in int64 nanoseconds. */
module Backoff {
  import opened Types

  const MODULUS: int := 0x1_0000_0000_0000_0000

  /** Two's complement wrap-around of int64. */
  function Wrap64(x: int): int {
    var r := x % MODULUS;
    if r > MAX_INT64 then r - MODULUS else r
  }

  /** After an ordinary failure: doubled, then capped. */
  function NextInterval(interval: int, max: int): int {
    var doubled := Wrap64(interval * 2);
    if doubled > max then max else doubled
  }

  /** The interval after a history of connector results, true for success. */
  function IntervalAfter(initial: int, max: int, history: seq<bool>): int {
    if history == [] then initial
    else if history[|history| - 1] then initial
    else NextInterval(IntervalAfter(initial, max, history[..|history| - 1]), max)
  }

  function Pow2(k: nat): nat { if k == 0 then 1 else 2 * Pow2(k - 1) }

  function Failures(k: nat): seq<bool> { seq(k, i => false) }

  /** Only the failures since the start or the last success count. */
  lemma {:induction false} SinceLastSuccess(initial: int, max: int, before: seq<bool>, k: nat)
    requires before == [] || before[|before| - 1]
    ensures IntervalAfter(initial, max, before + Failures(k)) == IntervalAfter(initial, max, Failures(k))
  {
    if k == 0 {
      assert before + Failures(0) == before;
    } else {
      SinceLastSuccess(initial, max, before, k - 1);
      assert (before + Failures(k))[..|before| + k - 1] == before + Failures(k - 1);
      assert Failures(k)[..k - 1] == Failures(k - 1);
    }
  }

  lemma FailureStep(initial: int, max: int, k: nat)
    requires k > 0
    ensures IntervalAfter(initial, max, Failures(k)) == NextInterval(IntervalAfter(initial, max, Failures(k - 1)), max)
  {
    assert Failures(k)[..k - 1] == Failures(k - 1);
  }

  /** k failures in a row give the exponential interval up to the maximum. */
  ghost predicate Exponential(initial: int, max: int, k: nat) {
    IntervalAfter(initial, max, Failures(k)) == Min(initial * Pow2(k), max)
  }

  lemma NextFits(interval: int, max: int)
    requires 0 < interval && 2 * interval <= MAX_INT64
    ensures NextInterval(interval, max) == Min(2 * interval, max)
  {
    assert interval * 2 % MODULUS == interval * 2;
  }

  lemma NextOverflows(interval: int, max: int)
    requires interval <= MAX_INT64 < 2 * interval && 0 < max
    ensures NextInterval(interval, max) < 0
  {
    assert interval * 2 % MODULUS == interval * 2;
  }

  lemma Doubled(initial: int, k: nat)
    requires k > 0
    ensures initial * Pow2(k) == 2 * (initial * Pow2(k - 1))
  {
    var p := Pow2(k - 1);
    assert Pow2(k) == 2 * p;
    assert initial * (2 * p) == 2 * (initial * p);
  }

  lemma AtLeastOne(initial: int, k: nat)
    requires initial > 0
    ensures initial * Pow2(k) > k
  {
    Pow2Large(k);
    Positive(initial, Pow2(k));
  }

  lemma {:induction false} NoOverflow(initial: int, max: int, k: nat)
    requires 0 < initial && 0 < max && 2 * initial <= MAX_INT64 && 2 * max <= MAX_INT64 && k > 0
    ensures Exponential(initial, max, k)
  {
    FailureStep(initial, max, k);
    Doubled(initial, k);
    AtLeastOne(initial, k - 1);
    var before := IntervalAfter(initial, max, Failures(k - 1));
    if k == 1 {
      assert before == initial && initial * Pow2(0) == initial;
    } else {
      NoOverflow(initial, max, k - 1);
    }
    NextFits(before, max);
  }

  lemma Positive(a: int, b: int)
    requires a > 0 && b > 0
    ensures a * b >= b
  {
  }

  lemma {:induction false} Pow2Large(k: nat)
    ensures Pow2(k) > k
  {
    if k > 0 {
      Pow2Large(k - 1);
    }
  }

  /** When doubling one of the two overflows, some number of failures gives a negative interval. */
  lemma Overflows(initial: int, max: int) returns (k: nat)
    requires 0 < initial <= MAX_INT64 && 0 < max <= MAX_INT64
    requires 2 * initial > MAX_INT64 || 2 * max > MAX_INT64
    ensures k > 0 && !Exponential(initial, max, k)
  {
    if 2 * initial > MAX_INT64 {
      k := 1;
      assert IntervalAfter(initial, max, Failures(0)) == initial;
      NextOverflows(initial, max);
    } else if Exponential(initial, max, max) {
      AtLeastOne(initial, max);
      k := max + 1;
      NextOverflows(max, max);
    } else {
      k := max;
      return;
    }
    FailureStep(initial, max, k);
    AtLeastOne(initial, k);
  }

  /**
   * The interval is min(initial * 2^k, max) after every number k of failures exactly when neither twice the
   * initial interval nor twice the maximum overflows.
   */
  lemma BackoffIsExponential(initial: int, max: int)
    requires 0 < initial <= MAX_INT64 && 0 < max <= MAX_INT64
    ensures (forall k: nat :: k > 0 ==> Exponential(initial, max, k))
            <==> 2 * initial <= MAX_INT64 && 2 * max <= MAX_INT64
  {
    if 2 * initial <= MAX_INT64 && 2 * max <= MAX_INT64 {
      forall k: nat | k > 0 ensures Exponential(initial, max, k) {
        NoOverflow(initial, max, k);
      }
    } else {
      var k := Overflows(initial, max);
    }
  }
}
