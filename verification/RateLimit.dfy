/** The fixed-window limiter of backend/core/redis.py, each call taken as one atomic step. */
module RateLimit {
  import opened Options
  import opened ExpiringMap

  type Counter = Option<Entry<int>>

  /** The counter a call finds: Redis has already dropped it once its time to live is over. */
  function Current(c: Counter, now: int): Counter {
    if c.Some? && IsLive(c.value, now) then c else None
  }

  /** One call: the counter it leaves and whether it is admitted. */
  function Check(c: Counter, limit: int, window: int, now: int): (Counter, bool) {
    match Current(c, now)
    case None => (Some(Entry(1, Deadline(now, window))), true)
    case Some(e) => if e.value >= limit then (Some(e), false) else (Some(Entry(e.value + 1, e.expiresAt)), true)
  }

  class Limiter {
    var counters: Store<string, int>

    constructor ()
      ensures counters == map[]
    {
      counters := map[];
    }

    ghost function CounterOf(key: string): Counter
      reads this
    {
      if key in counters then Some(counters[key]) else None
    }

    method CheckRateLimit(key: string, limit: int, window: int, now: int) returns (allowed: bool)
      modifies this
      ensures var (c, ok) := Check(old(CounterOf(key)), limit, window, now);
        allowed == ok && CounterOf(key) == c
      ensures forall k :: k != key ==> CounterOf(k) == old(CounterOf(k))
    {
      var current := Lookup(counters, key, now);
      if current.None? {
        counters := Put(counters, key, 1, now, window);
        return true;
      }
      if current.value >= limit {
        return false;
      }
      counters := counters[key := Entry(current.value + 1, counters[key].expiresAt)];
      return true;
    }
  }

  /** How many of the calls made at these times, and not before lo nor from hi on, are admitted. */
  function Admitted(c: Counter, limit: int, window: int, calls: seq<int>, lo: int, hi: int): nat
    decreases |calls|
  {
    if calls == [] then 0
    else
      var (c', ok) := Check(c, limit, window, calls[0]);
      (if ok && lo <= calls[0] < hi then 1 else 0) + Admitted(c', limit, window, calls[1..], lo, hi)
  }

  ghost predicate Chronological(calls: seq<int>, from: int) {
    && (forall i :: 0 <= i < |calls| ==> from <= calls[i])
    && (forall i, j :: 0 <= i < j < |calls| ==> calls[i] <= calls[j])
  }

  /** A window admits the first max(limit, 1) calls: the one that opens it is never refused. */
  function Quota(limit: int): int {
    if limit > 1 then limit else 1
  }

  ghost predicate Valid(c: Counter, limit: int) {
    c.Some? ==> c.value.expiresAt > 0 && 1 <= c.value.value <= Quota(limit)
  }

  function Min(a: int, b: int): int { if a < b then a else b }

  lemma {:induction false} WithinOpenWindow(c: Counter, limit: int, window: int, calls: seq<int>, lo: int)
    requires Valid(c, limit) && c.Some?
    requires Chronological(calls, lo) && 0 <= lo
    requires forall i :: 0 <= i < |calls| ==> calls[i] < c.value.expiresAt
    ensures Admitted(c, limit, window, calls, lo, c.value.expiresAt) == Min(Quota(limit) - c.value.value, |calls|)
    decreases |calls|
  {
    if calls != [] {
      WithinOpenWindow(Check(c, limit, window, calls[0]).0, limit, window, calls[1..], lo);
    }
  }

  /** Exactly how a window is spent: of the calls made in [start, start + window), counting the one
      that opens it, the first Quota(limit) are admitted and no other. */
  lemma WindowAdmitsExactlyTheQuota(c: Counter, limit: int, window: int, start: int, calls: seq<int>)
    requires window >= 1 && start >= 0
    requires Current(c, start).None?
    requires Chronological(calls, start) && forall i :: 0 <= i < |calls| ==> calls[i] < start + window
    ensures Admitted(c, limit, window, [start] + calls, start, start + window) == Min(Quota(limit), 1 + |calls|)
  {
    assert ([start] + calls)[1..] == calls;
    WithinOpenWindow(Check(c, limit, window, start).0, limit, window, calls, start);
  }

  /** What can still be admitted in [a, a + window) by calls at time now or later. */
  function Allowance(c: Counter, limit: int, window: int, now: int, a: int): int {
    var q := Quota(limit);
    match Current(c, now)
    case None => if now >= a + window then 0 else if now >= a then q else 2 * q - 1
    case Some(e) =>
      if now >= a + window then 0
      else if e.expiresAt >= a + window then q - e.value
      else if e.expiresAt > a then 2 * q - e.value
      else 2 * q - 1
  }

  lemma {:induction false} AdmittedWithinAllowance(c: Counter, limit: int, window: int, calls: seq<int>, now: int,
                                                   a: int)
    requires window >= 1 && 0 <= now && Valid(c, limit) && Chronological(calls, now)
    requires Current(c, now).Some? ==> c.value.expiresAt <= now + window
    ensures Admitted(c, limit, window, calls, a, a + window) <= Allowance(c, limit, window, now, a)
    decreases |calls|
  {
    if calls != [] {
      var t := calls[0];
      var c' := Check(c, limit, window, t).0;
      AdmittedWithinAllowance(c', limit, window, calls[1..], t, a);
    }
  }

  /** Any interval of one window's length, wherever it starts, sees fewer than twice the quota. */
  lemma UnderTwiceTheQuota(limit: int, window: int, calls: seq<int>, a: int)
    requires window >= 1 && Chronological(calls, 0)
    ensures Admitted(None, limit, window, calls, a, a + window) <= 2 * Quota(limit) - 1
    ensures limit >= 1 ==> Admitted(None, limit, window, calls, a, a + window) < 2 * limit
  {
    AdmittedWithinAllowance(None, limit, window, calls, 0, a);
  }

  function Repeat(t: int, n: nat): (r: seq<int>)
    ensures |r| == n && forall x :: x in r ==> x == t
  {
    if n == 0 then [] else [t] + Repeat(t, n - 1)
  }

  lemma {:induction false} RepeatedCalls(e: Entry<int>, limit: int, window: int, t: int, n: nat, rest: seq<int>,
                                         lo: int,
                                         hi: int)
    requires 0 < e.value && lo <= t < hi && t < e.expiresAt && e.value + n <= limit
    ensures Admitted(Some(e), limit, window, Repeat(t, n) + rest, lo, hi) ==
            n + Admitted(Some(Entry(e.value + n, e.expiresAt)), limit, window, rest, lo, hi)
    decreases n
  {
    if n == 0 {
      assert Repeat(t, n) + rest == rest;
    } else {
      assert (Repeat(t, n) + rest)[1..] == Repeat(t, n - 1) + rest;
      RepeatedCalls(Entry(e.value + 1, e.expiresAt), limit, window, t, n - 1, rest, lo, hi);
    }
  }

  function Burst(limit: int, window: int): seq<int>
    requires limit >= 1 && window >= 2
  {
    [0] + Repeat(window - 1, limit - 1) + Repeat(window, limit)
  }

  lemma BurstIsChronological(limit: int, window: int)
    requires limit >= 1 && window >= 2
    ensures Chronological(Burst(limit, window), 0)
  {
    var early, late := Repeat(window - 1, limit - 1), Repeat(window, limit);
    var burst := Burst(limit, window);
    hide Repeat;
    forall i | 0 <= i < |burst|
      ensures burst[i] == if i == 0 then 0 else if i < limit then window - 1 else window
    {
      assert 0 < i < limit ==> burst[i] == early[i - 1] && early[i - 1] in early;
      assert limit <= i ==> burst[i] == late[i - limit] && late[i - limit] in late;
    }
  }

  /** The bound is reached: one call opens a window, the rest of its quota is spent in its last
      second, and a whole quota in the first second of the next window. */
  lemma UnderTwiceTheQuotaIsReached(limit: int, window: int)
    requires limit >= 1 && window >= 2
    ensures Chronological(Burst(limit, window), 0)
    ensures Admitted(None, limit, window, Burst(limit, window), window - 1, 2 * window - 1) == 2 * limit - 1
  {
    BurstIsChronological(limit, window);
    hide Chronological;
    var lo, hi := window - 1, 2 * window - 1;
    var early, late := Repeat(window - 1, limit - 1), Repeat(window, limit);
    assert Burst(limit, window)[1..] == early + late;
    RepeatedCalls(Entry(1, window), limit, window, window - 1, limit - 1, late, lo, hi);
    assert late[1..] == Repeat(window, limit - 1) + [];
    RepeatedCalls(Entry(1, 2 * window), limit, window, window, limit - 1, [], lo, hi);
  }
}
