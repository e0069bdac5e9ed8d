/** How many connections the client's connector creates, client/pool.go, connectionsToCreate. */
module PoolSizes {
  import opened Types
  import Backoff

  /** In int64 arithmetic; nothing is created when the result is not positive. */
  function ToCreate(idleSize: int, maxSize: int, idle: int, total: int): int {
    var wanted := Backoff.Wrap64(idleSize - idle);
    if Backoff.Wrap64(total + wanted) > maxSize then maxSize - total else wanted
  }

  function NonNegative(n: int): nat { if n < 0 then 0 else n }

  /** No sum or difference of the configured sizes overflows int64. */
  predicate SizesFit(idleSize: int, maxSize: int) {
    idleSize + maxSize <= MAX_INT64 && MIN_INT64 <= idleSize - maxSize
  }

  ghost predicate StaysWithin(idleSize: int, maxSize: int, idle: int, total: int) {
    total + NonNegative(ToCreate(idleSize, maxSize, idle, total)) <= maxSize
  }

  lemma WrapFits(x: int)
    requires IsInt64(x)
    ensures Backoff.Wrap64(x) == x
  {
    if x >= 0 {
      assert x % Backoff.MODULUS == x;
    } else {
      assert x % Backoff.MODULUS == x + Backoff.MODULUS;
    }
  }

  lemma WrapHigh(x: int)
    requires MAX_INT64 < x <= 2 * MAX_INT64
    ensures Backoff.Wrap64(x) == x - Backoff.MODULUS < 0
  {
    assert x % Backoff.MODULUS == x;
  }

  lemma WrapLow(x: int)
    requires 2 * MIN_INT64 < x < MIN_INT64
    ensures Backoff.Wrap64(x) == x + Backoff.MODULUS > 0
  {
    assert x % Backoff.MODULUS == x + Backoff.MODULUS;
  }

  /** What is created: enough to have idleSize idle connections, but never more than maxSize connections. */
  lemma CreatesMissing(idleSize: int, maxSize: int, idle: int, total: int)
    requires SizesFit(idleSize, maxSize) && 0 <= idle <= total <= maxSize
    ensures ToCreate(idleSize, maxSize, idle, total) == Min(idleSize - idle, maxSize - total)
  {
    WrapFits(idleSize - idle);
    WrapFits(total + (idleSize - idle));
  }

  /** The list stays within maxSize, whatever the counts, exactly when the configured sizes do not overflow. */
  lemma BoundHoldsIff(idleSize: int, maxSize: int)
    requires IsInt64(idleSize) && 0 <= maxSize <= MAX_INT64
    ensures (forall idle, total :: 0 <= idle <= total <= maxSize ==> StaysWithin(idleSize, maxSize, idle, total))
            <==> SizesFit(idleSize, maxSize)
  {
    if SizesFit(idleSize, maxSize) {
      forall idle, total | 0 <= idle <= total <= maxSize ensures StaysWithin(idleSize, maxSize, idle, total) {
        CreatesMissing(idleSize, maxSize, idle, total);
      }
    } else if idleSize + maxSize > MAX_INT64 {
      WrapFits(idleSize);
      WrapHigh(maxSize + idleSize);
      assert !StaysWithin(idleSize, maxSize, 0, maxSize);
    } else {
      WrapLow(idleSize - maxSize);
      WrapFits(idleSize);
      assert !StaysWithin(idleSize, maxSize, maxSize, maxSize);
    }
  }
}
