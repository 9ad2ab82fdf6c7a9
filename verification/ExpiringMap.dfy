/** Keys with a time to live: what the backend asks of Redis and of its in-memory stand-in. */
module ExpiringMap {
  import opened Options

  /** A stored value; expiresAt == 0 means that the entry never expires. */
  datatype Entry<+V> = Entry(value: V, expiresAt: int)

  type Store<!K, +V> = map<K, Entry<V>>

  predicate IsLive<V>(e: Entry<V>, now: int) {
    e.expiresAt == 0 || now < e.expiresAt
  }

  function Lookup<K(==), V>(m: Store<K, V>, k: K, now: int): Option<V> {
    if k in m && IsLive(m[k], now) then Some(m[k].value) else None
  }

  function Deadline(now: int, ttl: int): int {
    if ttl > 0 then now + ttl else 0
  }

  function Put<K(==), V>(m: Store<K, V>, k: K, v: V, now: int, ttl: int): Store<K, V> {
    m[k := Entry(v, Deadline(now, ttl))]
  }

  function RemoveIfValue<K(==), V(==)>(m: Store<K, V>, k: K, v: V, now: int): Store<K, V> {
    if Lookup(m, k, now) == Some(v) then m - {k} else m
  }

  /** Dropping the entries whose deadline has passed. */
  function Swept<K(==), V>(m: Store<K, V>, now: int): Store<K, V> {
    map k | k in m && IsLive(m[k], now) :: m[k]
  }
}

/** backend/core/redis.py without a Redis server: the in-memory cache and its lock primitives. */
module FallbackCache {
  import opened Options
  import opened ExpiringMap

  datatype Op =
    | Set(key: string, value: string, ttl: int)
    | Get(key: string)
    | Exists(key: string)
    | Delete(key: string)
    | SetIfNotExists(key: string, value: string, ttl: int)
    | DeleteIfValue(key: string, value: string)

  datatype Timed = Timed(at: int, op: Op)

  datatype Reply = Done | Text(text: Option<string>) | Flag(flag: bool)

  /** cache_get treats an empty stored string like a missing key. */
  function NonEmpty(v: Option<string>): Option<string> {
    if v == Some("") then None else v
  }

  type Entries = Store<string, string>

  /** One call at time t.at on the dictionary the process keeps: its reply and the dictionary after it. */
  function Step(m: Entries, t: Timed): (Entries, Reply) {
    var swept := Swept(m, t.at);
    match t.op
    case Set(k, v, ttl) => (Put(m, k, v, t.at, ttl), Done)
    case Get(k) => (swept, Text(NonEmpty(if k in swept then Some(swept[k].value) else None)))
    case Exists(k) => (swept, Flag(k in swept))
    case Delete(k) => (m - {k}, Done)
    case SetIfNotExists(k, v, ttl) =>
      if k in swept then (swept, Flag(false)) else (Put(swept, k, v, t.at, ttl), Flag(true))
    case DeleteIfValue(k, v) =>
      if k in swept && swept[k].value == v then (swept - {k}, Flag(true)) else (swept, Flag(false))
  }

  class Cache {
    var entries: Entries

    constructor ()
      ensures entries == map[]
    {
      entries := map[];
    }

    method Cleanup(now: int)
      modifies this
      ensures entries == Swept(old(entries), now)
    {
      var expired := set k | k in entries && entries[k].expiresAt != 0 && entries[k].expiresAt <= now;
      while expired != {}
        invariant expired <= entries.Keys
        invariant forall k :: k in expired ==> !IsLive(entries[k], now)
        invariant entries.Keys <= old(entries).Keys
        invariant forall k :: k in entries ==> entries[k] == old(entries)[k]
        invariant forall k :: k in old(entries) && IsLive(old(entries)[k], now) ==> k in entries
        invariant forall k :: k in entries && !IsLive(entries[k], now) ==> k in expired
        decreases expired
      {
        var key :| key in expired;
        entries := entries - {key};
        expired := expired - {key};
      }
    }

    method FallbackStore(key: string, value: string, now: int, expire: int)
      modifies this
      ensures entries == Put(old(entries), key, value, now, expire)
    {
      var expiresAt := if expire > 0 then now + expire else 0;
      entries := entries[key := Entry(value, expiresAt)];
    }

    method FallbackRetrieve(key: string, now: int) returns (value: Option<string>)
      modifies this
      ensures entries == Swept(old(entries), now)
      ensures value == Lookup(old(entries), key, now)
    {
      Cleanup(now);
      value := if key in entries then Some(entries[key].value) else None;
    }

    method FallbackExists(key: string, now: int) returns (found: bool)
      modifies this
      ensures entries == Swept(old(entries), now)
      ensures found <==> Lookup(old(entries), key, now).Some?
    {
      Cleanup(now);
      found := key in entries;
    }

    method CacheSet(key: string, value: string, now: int, expire: int)
      modifies this
      ensures (entries, Done) == Step(old(entries), Timed(now, Set(key, value, expire)))
    {
      FallbackStore(key, value, now, expire);
    }

    method CacheGet(key: string, now: int) returns (value: Option<string>)
      modifies this
      ensures (entries, Text(value)) == Step(old(entries), Timed(now, Get(key)))
      ensures value == if Lookup(old(entries), key, now) == Some("") then None else Lookup(old(entries), key, now)
    {
      var raw := FallbackRetrieve(key, now);
      if raw == Some("") {
        value := None;
      } else {
        value := raw;
      }
    }

    method CacheExists(key: string, now: int) returns (found: bool)
      modifies this
      ensures (entries, Flag(found)) == Step(old(entries), Timed(now, Exists(key)))
    {
      found := FallbackExists(key, now);
    }

    method CacheDelete(key: string, now: int)
      modifies this
      ensures (entries, Done) == Step(old(entries), Timed(now, Delete(key)))
    {
      entries := entries - {key};
    }

    method CacheSetIfNotExists(key: string, value: string, now: int, expire: int) returns (created: bool)
      modifies this
      ensures (entries, Flag(created)) == Step(old(entries), Timed(now, SetIfNotExists(key, value, expire)))
    {
      var found := FallbackExists(key, now);
      if found {
        return false;
      }
      FallbackStore(key, value, now, expire);
      return true;
    }

    method CacheDeleteIfValue(key: string, expected: string, now: int) returns (deleted: bool)
      modifies this
      ensures (entries, Flag(deleted)) == Step(old(entries), Timed(now, DeleteIfValue(key, expected)))
    {
      var current := FallbackRetrieve(key, now);
      if current == Some(expected) {
        entries := entries - {key};
        return true;
      }
      return false;
    }
  }

  // ----- The promise: an expiring map, told as a log of writes that nobody ever cleans up -----

  datatype Write = Wrote(key: string, value: string, ttl: int, at: int) | Erased(key: string)

  /** What a reader sees at time now: the last write to the key, unless erased since or outlived. */
  function Visible(log: seq<Write>, key: string, now: int): Option<string> {
    if log == [] then None
    else
      var w := log[|log| - 1];
      if w.key != key then Visible(log[..|log| - 1], key, now)
      else if w.Wrote? && (w.ttl <= 0 || now < w.at + w.ttl) then Some(w.value)
      else None
  }

  function Promise(log: seq<Write>, t: Timed): (seq<Write>, Reply) {
    match t.op
    case Set(k, v, ttl) => (log + [Wrote(k, v, ttl, t.at)], Done)
    case Get(k) => (log, Text(NonEmpty(Visible(log, k, t.at))))
    case Exists(k) => (log, Flag(Visible(log, k, t.at).Some?))
    case Delete(k) => (log + [Erased(k)], Done)
    case SetIfNotExists(k, v, ttl) =>
      if Visible(log, k, t.at).Some? then (log, Flag(false)) else (log + [Wrote(k, v, ttl, t.at)], Flag(true))
    case DeleteIfValue(k, v) =>
      if Visible(log, k, t.at) == Some(v) then (log + [Erased(k)], Flag(true)) else (log, Flag(false))
  }

  ghost predicate Chronological(run: seq<Timed>, from: int) {
    && (forall i :: 0 <= i < |run| ==> from <= run[i].at)
    && (forall i, j :: 0 <= i < j < |run| ==> run[i].at <= run[j].at)
  }

  function Replies(m: Entries, run: seq<Timed>): seq<Reply>
    decreases |run|
  {
    if run == [] then [] else [Step(m, run[0]).1] + Replies(Step(m, run[0]).0, run[1..])
  }

  function After(m: Entries, run: seq<Timed>): Entries
    decreases |run|
  {
    if run == [] then m else After(Step(m, run[0]).0, run[1..])
  }

  function PromisedReplies(log: seq<Write>, run: seq<Timed>): seq<Reply>
    decreases |run|
  {
    if run == [] then [] else [Promise(log, run[0]).1] + PromisedReplies(Promise(log, run[0]).0, run[1..])
  }

  /** From time now on, the dictionary and the log give every reader the same answer. */
  ghost predicate Agree(m: Entries, log: seq<Write>, now: int) {
    forall k: string, t: int :: t >= now ==> Lookup(m, k, t) == Visible(log, k, t)
  }

  lemma VisibleAfterWrite(log: seq<Write>, w: Write, k: string, t: int)
    ensures Visible(log + [w], k, t) ==
            if w.key != k then Visible(log, k, t)
            else if w.Wrote? && (w.ttl <= 0 || t < w.at + w.ttl) then Some(w.value)
            else None
  {
    assert (log + [w])[..|log|] == log;
  }

  lemma SweptLookup(m: Entries, now: int, k: string, u: int)
    requires now <= u
    ensures Lookup(Swept(m, now), k, u) == Lookup(m, k, u)
  {
  }

  lemma PutLookup(m: Entries, w: Write, k: string, u: int)
    requires w.Wrote? && 0 <= w.at
    ensures Lookup(Put(m, w.key, w.value, w.at, w.ttl), k, u) ==
            if w.key != k then Lookup(m, k, u) else if w.ttl <= 0 || u < w.at + w.ttl then Some(w.value) else None
  {
  }

  lemma RemoveLookup(m: Entries, key: string, k: string, u: int)
    ensures Lookup(m - {key}, k, u) == if key != k then Lookup(m, k, u) else None
  {
  }

  lemma StepKeepsAgreementAt(m: Entries, log: seq<Write>, t: Timed, k: string, u: int)
    requires 0 <= t.at <= u
    requires Lookup(m, t.op.key, t.at) == Visible(log, t.op.key, t.at)
    requires Lookup(m, k, u) == Visible(log, k, u)
    ensures Lookup(Step(m, t).0, k, u) == Visible(Promise(log, t).0, k, u)
  {
    var swept := Swept(m, t.at);
    SweptLookup(m, t.at, k, u);
    match t.op {
      case Set(k', v, ttl) =>
        var w := Wrote(k', v, ttl, t.at);
        PutLookup(m, w, k, u);
        VisibleAfterWrite(log, w, k, u);
      case SetIfNotExists(k', v, ttl) =>
        var w := Wrote(k', v, ttl, t.at);
        PutLookup(swept, w, k, u);
        VisibleAfterWrite(log, w, k, u);
      case Delete(k') =>
        RemoveLookup(m, k', k, u);
        VisibleAfterWrite(log, Erased(k'), k, u);
      case DeleteIfValue(k', v) =>
        RemoveLookup(swept, k', k, u);
        VisibleAfterWrite(log, Erased(k'), k, u);
      case Get(k') =>
      case Exists(k') =>
    }
  }

  lemma StepKeepsAgreement(m: Entries, log: seq<Write>, now: int, t: Timed)
    requires Agree(m, log, now) && 0 <= now <= t.at
    ensures Step(m, t).1 == Promise(log, t).1
    ensures Agree(Step(m, t).0, Promise(log, t).0, t.at)
  {
    assert Lookup(m, t.op.key, t.at) == Visible(log, t.op.key, t.at);
    forall k: string, u: int | u >= t.at
      ensures Lookup(Step(m, t).0, k, u) == Visible(Promise(log, t).0, k, u)
    {
      StepKeepsAgreementAt(m, log, t, k, u);
    }
  }

  lemma {:induction false} RepliesFromAgreement(m: Entries, log: seq<Write>, now: int, run: seq<Timed>)
    requires Agree(m, log, now) && 0 <= now && Chronological(run, now)
    ensures Replies(m, run) == PromisedReplies(log, run)
    decreases |run|
  {
    if run != [] {
      StepKeepsAgreement(m, log, now, run[0]);
      RepliesFromAgreement(Step(m, run[0]).0, Promise(log, run[0]).0, run[0].at, run[1..]);
    }
  }

  /** On a clock that never runs backwards, every reply of the in-memory cache is the promised one:
      sweeping out expired entries is never observable. */
  lemma RefinesExpiringMap(run: seq<Timed>)
    requires Chronological(run, 0)
    ensures Replies(map[], run) == PromisedReplies([], run)
  {
    RepliesFromAgreement(map[], [], 0, run);
  }

  // ----- Set-if-absent and delete-if-value as a lock with a time to live -----

  /** Others use the lock key only to try to take it, to give back their own hold, or to look. */
  ghost predicate RespectsLock(t: Timed, lock: string, owner: string) {
    t.op.key == lock ==>
      t.op.SetIfNotExists? || t.op.Get? || t.op.Exists? || (t.op.DeleteIfValue? && t.op.value != owner)
  }

  predicate IsLockAttempt(t: Timed, lock: string) {
    t.op.key == lock && (t.op.SetIfNotExists? || t.op.DeleteIfValue?)
  }

  lemma {:induction false} HeldThroughout(m: Entries, lock: string, owner: string, deadline: int, run: seq<Timed>)
    requires lock in m && m[lock] == Entry(owner, deadline) && deadline > 0
    requires Chronological(run, 0)
    requires forall t :: t in run ==> t.at < deadline && RespectsLock(t, lock, owner)
    ensures lock in After(m, run) && After(m, run)[lock] == Entry(owner, deadline)
    ensures |Replies(m, run)| == |run|
    ensures forall i :: 0 <= i < |run| && IsLockAttempt(run[i], lock) ==> Replies(m, run)[i] == Flag(false)
    decreases |run|
  {
    if run != [] {
      assert run[0] in run;
      var m' := Step(m, run[0]).0;
      HeldThroughout(m', lock, owner, deadline, run[1..]);
      forall i | 0 <= i < |run| && IsLockAttempt(run[i], lock)
        ensures Replies(m, run)[i] == Flag(false)
      {
        if i > 0 {
          assert run[1..][i - 1] == run[i];
        }
      }
    }
  }

  /** From a successful acquire until the owner's release or the deadline, nobody else acquires and
      nobody else's release has any effect; the next acquire then succeeds exactly from the deadline on. */
  lemma LockExcludes(m: Entries, lock: string, owner: string, ttl: int, start: int, run: seq<Timed>, next: Timed)
    requires start >= 0 && ttl > 0
    requires Step(m, Timed(start, SetIfNotExists(lock, owner, ttl))).1 == Flag(true)
    requires Chronological(run, start)
    requires forall t :: t in run ==> t.at < start + ttl && RespectsLock(t, lock, owner)
    requires next.op.SetIfNotExists? && next.op.key == lock
    ensures var held := Step(m, Timed(start, SetIfNotExists(lock, owner, ttl))).0;
      && |Replies(held, run)| == |run|
      && (forall i :: 0 <= i < |run| && IsLockAttempt(run[i], lock) ==> Replies(held, run)[i] == Flag(false))
      && (Step(After(held, run), next).1 == Flag(true) <==> next.at >= start + ttl)
  {
    var held := Step(m, Timed(start, SetIfNotExists(lock, owner, ttl))).0;
    HeldThroughout(held, lock, owner, start + ttl, run);
  }
}
