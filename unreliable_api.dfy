/** `UnreliableAPI`, the fault injector behind the scan tasks: every call
    counts itself, and every `failingEvery`-th call since the last failure
    throws. */
module UnreliableApi {
  import opened Common

  /** Whether the call made while `counter` holds `counter` throws: the
      raised counter is a multiple of `failingEvery` (Swift's `%`). */
  predicate Throws(counter: int, failingEvery: int)
    requires failingEvery != 0
  {
    SwiftRem(counter + 1, failingEvery) == 0
  }

  /** The counter after one call: raised by one, or back to 0 by a throw. */
  function Next(counter: int, failingEvery: int): int
    requires failingEvery != 0
  {
    if Throws(counter, failingEvery) then 0 else counter + 1
  }

  /** The counter after `calls` calls made with the same `failingEvery`,
      starting from the static initial value 0. */
  function CounterAfter(failingEvery: int, calls: nat): int
    requires failingEvery != 0
  {
    if calls == 0 then 0 else Next(CounterAfter(failingEvery, calls - 1), failingEvery)
  }

  /** The static storage of `UnreliableAPI`: its `counter`. */
  class UnreliableAPI {
    var counter: int

    constructor ()
      ensures counter == 0
    {
      counter := 0;
    }

    /** `action(failingEvery:)`. The counter goes up by one and is tested;
        a multiple of `failingEvery` resets it to 0 and throws
        `UnreliableAPI.Error`. `failingEvery == 0` would trap on `%`. */
    method Action(failingEvery: int) returns (r: Result<()>)
      requires failingEvery != 0
      modifies this
      ensures counter == Next(old(counter), failingEvery)
      ensures r.Err? <==> Throws(old(counter), failingEvery)
      ensures r.Err? ==> r.error == TaskFailure && counter == 0
      ensures r.Ok? ==> counter == old(counter) + 1
    {
      counter := counter + 1;
      if SwiftRem(counter, failingEvery) == 0 {
        counter := 0;
        return Err(TaskFailure);
      }
      r := Ok(());
    }
  }

  /** Between calls the counter holds the number of calls since the last
      failure: before call `n` it counts up from 0, and call `n` is the
      first that throws. */
  lemma {:induction false} CounterCountsUp(n: int, k: nat)
    requires n >= 1 && k < n
    ensures CounterAfter(n, k) == k
  {
    if k > 0 {
      CounterCountsUp(n, k - 1);
      RemainderOfSmall(k, n);
    }
  }

  /** Call number `k + 1` throws exactly when the counter reads `n - 1`, and
      the counter always stays in `0 ..< n`. */
  lemma {:induction false} CounterBounded(n: int, k: nat)
    requires n >= 1
    ensures 0 <= CounterAfter(n, k) < n
    ensures Throws(CounterAfter(n, k), n) <==> CounterAfter(n, k) == n - 1
  {
    if k > 0 {
      CounterBounded(n, k - 1);
    }
    RemainderOfSmall(CounterAfter(n, k) + 1, n);
  }

  /** The calls fail in a fixed period of `n`: the counter after `k + n`
      calls is the counter after `k` calls. With `CounterCountsUp` and
      `CounterBounded` this says calls `n`, `2n`, ... throw and all others
      return; with `n == 1` every call throws. */
  lemma {:induction false} CounterPeriodic(n: int, k: nat)
    requires n >= 1
    ensures CounterAfter(n, k + n) == CounterAfter(n, k)
  {
    if k == 0 {
      CounterCountsUp(n, n - 1);
      CounterBounded(n, n - 1);
    } else {
      CounterPeriodic(n, k - 1);
      assert k + n - 1 == (k - 1) + n;
    }
  }

  /** Call number `k + 1` throws exactly when `k + 1` is a multiple of `n`:
      calls `n`, `2n`, ... throw and all others return. */
  lemma {:induction false} CallThrows(n: int, k: nat)
    requires n >= 1
    ensures Throws(CounterAfter(n, k), n) <==> (k + 1) % n == 0
    decreases k
  {
    CounterBounded(n, k);
    if k < n {
      CounterCountsUp(n, k);
      RemainderOfSmall(k + 1, n);
    } else {
      CallThrows(n, k - n);
      CounterPeriodic(n, k - n);
      assert k - n + n == k;
      ShiftRemainder(k + 1 - n, n);
    }
  }

  lemma ShiftRemainder(x: int, n: int)
    requires n >= 1
    ensures (x + n) % n == x % n
  {
    var q, r := x / n, x % n;
    assert x == n * q + r;
    assert x + n == n * (q + 1) + r;
    RemainderUnique(x + n, n, q + 1, r);
  }

  /** Euclidean division leaves one remainder in `0 ..< n`. */
  lemma RemainderUnique(a: int, n: int, q: int, r: int)
    requires n >= 1 && 0 <= r < n && a == n * q + r
    ensures a % n == r
  {
    var q', r' := a / n, a % n;
    assert a == n * q' + r';
    assert n * (q - q') == r' - r;
    if q > q' {
      assert n * (q - q') >= n by { MulGrows(n, q - q'); }
    } else if q < q' {
      assert n * (q' - q) >= n by { MulGrows(n, q' - q); }
    }
  }

  lemma MulGrows(n: int, d: int)
    requires n >= 1 && d >= 1
    ensures n * d >= n
  {
  }

  lemma RemainderOfSmall(x: int, n: int)
    requires 0 < x <= n
    ensures SwiftRem(x, n) == if x == n then 0 else x
  {
    if x < n {
      assert x % n == x;
    } else {
      assert n % n == 0;
    }
  }
}
