/** What the four `ScanModel` schedulers share: the events that drive a task
    group, the bookkeeping of in-flight workers, and the integer rate update of
    `onTaskCompleted`. */
module Scheduling {
  import opened Common

  /** One worker of the task group settles: `slot` picks it among the workers
      in flight (modulo their number), `ok` says whether its scan succeeded,
      and `now` is the wall-clock second, rounded, at which it settled. */
  datatype Settle = Settle(slot: nat, ok: bool, now: int)

  function Max(a: int, b: int): (m: int)
    ensures m >= a && m >= b && (m == a || m == b)
  {
    if a >= b then a else b
  }

  /** How many times `x` occurs in `s`. */
  function Count<T(==)>(s: seq<T>, x: T): (n: nat)
    ensures n <= |s|
  {
    if s == [] then 0 else Count(s[..|s| - 1], x) + (if s[|s| - 1] == x then 1 else 0)
  }

  /** Occurrences add up over a concatenation. */
  lemma {:induction false} CountConcat<T>(s: seq<T>, t: seq<T>, x: T)
    ensures Count(s + t, x) == Count(s, x) + Count(t, x)
    decreases |t|
  {
    if t != [] {
      assert (s + t)[..|s + t| - 1] == s + t[..|t| - 1];
      CountConcat(s, t[..|t| - 1], x);
    } else {
      assert s + t == s;
    }
  }

  /** Appending `a` adds one occurrence of `a` and none of anything else. */
  lemma CountSnoc<T>(s: seq<T>, a: T, x: T)
    ensures Count(s + [a], x) == Count(s, x) + (if a == x then 1 else 0)
  {
    assert (s + [a])[..|s|] == s;
  }

  /** The sequence without its element at `k`; the others keep their order. */
  function RemoveAt<T>(s: seq<T>, k: nat): (r: seq<T>)
    requires k < |s|
    ensures |r| == |s| - 1
  {
    s[..k] + s[k + 1..]
  }

  /** Removing the element at `k` removes one occurrence of it and leaves the
      other values' counts alone. */
  lemma RemoveAtCount<T>(s: seq<T>, k: nat, x: T)
    requires k < |s|
    ensures Count(RemoveAt(s, k), x) + (if s[k] == x then 1 else 0) == Count(s, x)
  {
    var front, upTo, back := s[..k], s[..k + 1], s[k + 1..];
    CountSplit(s, k + 1, x);
    CountSplit(upTo, k, x);
    assert upTo[..k] == front;
    CountOne(upTo[k..], x);
    CountConcat(front, back, x);
  }

  /** Occurrences add up over a split at `i`. */
  lemma CountSplit<T>(s: seq<T>, i: nat, x: T)
    requires i <= |s|
    ensures Count(s, x) == Count(s[..i], x) + Count(s[i..], x)
  {
    assert s == s[..i] + s[i..];
    CountConcat(s[..i], s[i..], x);
  }

  lemma CountOne<T>(s: seq<T>, x: T)
    requires |s| == 1
    ensures Count(s, x) == if s[0] == x then 1 else 0
  {
    assert s[..0] == [];
  }

  /** The progress figures `onTaskCompleted` keeps: tasks counted since the
      last rate update, the second of that update, and the published rate. */
  datatype Rate = Rate(counted: int, lastSec: int, perSecond: int)

  /** One `onTaskCompleted` as far as the rate is concerned: `counted` goes up
      by one; only when the second has changed is the rate recomputed, as
      `counted / (now - lastSec)` with Swift's truncating division, after
      which `counted` restarts at 0 and `lastSec` becomes `now`. The guard
      keeps the divisor non-zero. */
  function RateUpdate(r: Rate, now: int): (u: Rate)
    ensures now == r.lastSec ==> u == r.(counted := r.counted + 1)
    ensures now != r.lastSec ==> u.counted == 0 && u.lastSec == now
    ensures now > r.lastSec && r.counted >= 0 ==> 0 <= u.perSecond <= r.counted + 1
  {
    var counted := r.counted + 1;
    if r.lastSec != now then
      var q := SwiftDiv(counted, now - r.lastSec);
      DivBound(counted, now - r.lastSec);
      Rate(0, now, q)
    else r.(counted := counted)
  }

  /** Truncating division by a positive number never yields more than the
      dividend. */
  lemma DivBound(a: int, b: int)
    requires b != 0
    ensures a >= 0 && b >= 1 ==> 0 <= SwiftDiv(a, b) <= a
  {
    if a >= 0 && b >= 1 {
      var q, r := a / b, a % b;
      assert a == b * q + r && 0 <= r;
      MulAtLeast(b, q);
    }
  }

  lemma {:induction false} MulAtLeast(b: int, q: int)
    requires b >= 1 && q >= 0
    ensures b * q >= q
  {
    if b > 1 {
      MulAtLeast(b - 1, q);
      assert b * q == (b - 1) * q + q;
    }
  }

  /** The rate figures after successes settling at the seconds `times`. */
  function RateAfter(r: Rate, times: seq<int>): Rate
  {
    if times == [] then r else RateUpdate(RateAfter(r, times[..|times| - 1]), times[|times| - 1])
  }

  /** One more success extends the fold by one update. */
  lemma RateAfterSnoc(r: Rate, times: seq<int>, now: int)
    ensures RateAfter(r, times + [now]) == RateUpdate(RateAfter(r, times), now)
  {
    assert (times + [now])[..|times|] == times;
  }

  /** After any completion, `lastSec` is the second of the latest one, and the
      counter never exceeds the completions since the start plus what it held. */
  lemma {:induction false} RateAfterFacts(r: Rate, times: seq<int>)
    requires r.counted >= 0
    ensures times != [] ==> RateAfter(r, times).lastSec == times[|times| - 1]
    ensures 0 <= RateAfter(r, times).counted <= r.counted + |times|
  {
    if times != [] {
      RateAfterFacts(r, times[..|times| - 1]);
    }
  }

  /** The seconds at which the successful settles among `events` happened. */
  function OkTimes(events: seq<Settle>): (t: seq<int>)
    ensures |t| <= |events|
  {
    if events == [] then []
    else
      var last := events[|events| - 1];
      OkTimes(events[..|events| - 1]) + (if last.ok then [last.now] else [])
  }

  /** The rate figures after one more event: unchanged by a failure, one
      more `onTaskCompleted` update for a success. */
  lemma RateStep(r: Rate, events: seq<Settle>, i: nat)
    requires i < |events|
    ensures RateAfter(r, OkTimes(events[..i + 1]))
            == if events[i].ok then RateUpdate(RateAfter(r, OkTimes(events[..i])), events[i].now)
               else RateAfter(r, OkTimes(events[..i]))
  {
    OkTimesSnoc(events, i);
    if events[i].ok {
      RateAfterSnoc(r, OkTimes(events[..i]), events[i].now);
    } else {
      assert OkTimes(events[..i + 1]) == OkTimes(events[..i]);
    }
  }

  /** Consuming one more event adds its second exactly when it succeeded. */
  lemma OkTimesSnoc(events: seq<Settle>, i: nat)
    requires i < |events|
    ensures OkTimes(events[..i + 1])
            == OkTimes(events[..i]) + (if events[i].ok then [events[i].now] else [])
  {
    assert events[..i + 1][..i] == events[..i];
  }
}
