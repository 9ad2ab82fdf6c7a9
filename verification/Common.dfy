/** Small value types shared by the component models. */
module Options {
  datatype Option<+T> = None | Some(value: T)
}

/** Half-open time intervals, the overlap notion of every calendar query in the backend. */
module Intervals {
  datatype Interval = Interval(start: int, end: int)

  predicate Overlaps(a: Interval, b: Interval) {
    a.start < b.end && a.end > b.start
  }

  predicate Covers(i: Interval, t: int) {
    i.start <= t < i.end
  }
}

/** Python dictionaries, which keep the order in which keys were first inserted. */
module OrderedDicts {
  datatype Dict<K(==), V> = Dict(order: seq<K>, entries: map<K, V>)

  ghost predicate Valid<K(!new), V>(d: Dict<K, V>) {
    && (forall i, j :: 0 <= i < j < |d.order| ==> d.order[i] != d.order[j])
    && (forall k :: k in d.order <==> k in d.entries)
  }

  function Put<K(==, !new), V>(d: Dict<K, V>, k: K, v: V): (r: Dict<K, V>)
    requires Valid(d)
    ensures Valid(r)
  {
    Dict(if k in d.entries then d.order else d.order + [k], d.entries[k := v])
  }

  function Without<K(==, !new)>(s: seq<K>, k: K): (r: seq<K>)
    requires forall i, j :: 0 <= i < j < |s| ==> s[i] != s[j]
    ensures forall x :: x in r <==> x in s && x != k
    ensures forall i, j :: 0 <= i < j < |r| ==> r[i] != r[j]
  {
    if s == [] then []
    else if s[0] == k then s[1..]
    else
      var rest := Without(s[1..], k);
      assert s[0] !in rest;
      [s[0]] + rest
  }

  function Delete<K(==, !new), V>(d: Dict<K, V>, k: K): (r: Dict<K, V>)
    requires Valid(d)
    ensures Valid(r)
  {
    Dict(Without(d.order, k), d.entries - {k})
  }
}

/** Quotients by a divisor that is not a constant. */
module Division {
  lemma MultipleIsFar(d: int, n: int)
    requires n >= 1
    ensures d >= 1 ==> d * n >= n
    ensures d <= -1 ==> d * n <= -n
  {
    if d >= 1 {
      assert (d - 1) * n >= 0;
    } else if d <= -1 {
      assert (-1 - d) * n >= 0;
    }
  }

  lemma QuotientIsUnique(a: int, q: int, r: int, n: int)
    requires n >= 1 && 0 <= r < n && q * n + r == a
    ensures a / n == q && a % n == r
  {
    var d := q - a / n;
    assert d * n == q * n - a / n * n;
    MultipleIsFar(d, n);
  }
}
