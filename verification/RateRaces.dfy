/** The fixed-window limiter of backend/core/redis.py with its get, its setex and its incr as separate steps, for the
    calls that share one key. */
module RateRaces {
  import opened Options
  import opened ExpiringMap
  import opened RateLimit

  type CallId = nat

  /** What a call has read: no counter, or one below the limit. */
  datatype Phase = Opening | Counting | Done(admitted: bool)

  datatype State = State(limit: int, window: int, now: int, counter: Counter, calls: map<CallId, Phase>)

  datatype Event = Tick(to: int) | Read(call: CallId) | Write(call: CallId)

  predicate Enabled(s: State, e: Event) {
    match e
    case Tick(to) => s.now <= to
    case Read(c) => c !in s.calls
    case Write(c) => c in s.calls && !s.calls[c].Done?
  }

  function ReadPhase(s: State): Phase {
    match Current(s.counter, s.now)
    case None => Opening
    case Some(e) => if e.value >= s.limit then Done(false) else Counting
  }

  /** The counter after a write. incr on a key that has expired creates one without a deadline. */
  function Written(s: State, p: Phase): Counter {
    if p.Opening? then Some(Entry(1, Deadline(s.now, s.window)))
    else
      match Current(s.counter, s.now)
      case None => Some(Entry(1, 0))
      case Some(e) => Some(Entry(e.value + 1, e.expiresAt))
  }

  function Next(s: State, e: Event): State
    requires Enabled(s, e)
  {
    match e
    case Tick(to) => s.(now := to)
    case Read(c) => s.(calls := s.calls[c := ReadPhase(s)])
    case Write(c) => s.(counter := Written(s, s.calls[c]), calls := s.calls[c := Done(true)])
  }

  ghost predicate Leads(s: State, es: seq<Event>, s': State)
    decreases |es|
  {
    if es == [] then s == s' else Enabled(s, es[0]) && Leads(Next(s, es[0]), es[1..], s')
  }

  /** The key in Redis and the calls that use it; each method is one await of check_rate_limit. */
  class Redis {
    const limit: int
    const window: int
    var now: int
    var counter: Counter
    var calls: map<CallId, Phase>

    constructor (limit: int, window: int)
      ensures View() == State(limit, window, 0, None, map[])
    {
      this.limit, this.window, now, counter, calls := limit, window, 0, None, map[];
    }

    ghost function View(): State
      reads this
    {
      State(limit, window, now, counter, calls)
    }

    method Get(c: CallId) returns (refused: bool)
      requires c !in calls
      modifies this`calls
      ensures View() == Next(old(View()), Read(c))
      ensures refused <==> calls[c] == Done(false)
    {
      if counter.Some? && IsLive(counter.value, now) {
        refused := counter.value.value >= limit;
        calls := calls[c := if refused then Done(false) else Counting];
      } else {
        refused := false;
        calls := calls[c := Opening];
      }
    }

    method SetEx(c: CallId)
      requires c in calls && calls[c].Opening?
      modifies this`counter, this`calls
      ensures View() == Next(old(View()), Write(c))
    {
      counter := Some(Entry(1, if window > 0 then now + window else 0));
      calls := calls[c := Done(true)];
    }

    method Incr(c: CallId)
      requires c in calls && calls[c].Counting?
      modifies this`counter, this`calls
      ensures View() == Next(old(View()), Write(c))
    {
      if counter.Some? && IsLive(counter.value, now) {
        counter := Some(counter.value.(value := counter.value.value + 1));
      } else {
        counter := Some(Entry(1, 0));
      }
      calls := calls[c := Done(true)];
    }
  }

  // ----- When a call is as good as atomic -----

  /** What a conditional write would test: setex that the key is still missing, incr that it lives below the limit. */
  predicate InTurn(s: State, e: Event) {
    e.Write? && e.call in s.calls ==>
      match s.calls[e.call]
      case Opening => Current(s.counter, s.now).None?
      case Counting => Current(s.counter, s.now).Some? && s.counter.value.value < s.limit
      case Done(_) => true
  }

  ghost predicate Positive(s: State) {
    0 <= s.now && s.window >= 1 && (s.counter.Some? ==> s.counter.value.value >= 1)
  }

  /** A write does what the whole call would do at that time exactly when it is in turn. */
  lemma WriteIsAtomicExactly(s: State, c: CallId)
    requires Positive(s) && Enabled(s, Write(c))
    ensures Check(s.counter, s.limit, s.window, s.now) == (Next(s, Write(c)).counter, true) <==> InTurn(s, Write(c))
  {
  }

  /** A refusal always does. */
  lemma RefusalIsAtomic(s: State, c: CallId)
    requires Enabled(s, Read(c)) && Next(s, Read(c)).calls[c] == Done(false)
    ensures Check(s.counter, s.limit, s.window, s.now) == (s.counter, false)
  {
  }

  ghost predicate AllInTurn(s: State, es: seq<Event>, s': State)
    requires Leads(s, es, s')
    decreases |es|
  {
    es == [] || (InTurn(s, es[0]) && AllInTurn(Next(s, es[0]), es[1..], s'))
  }

  /** The event settles its call. */
  predicate Settles(s: State, e: Event) {
    e.Write? || (e.Read? && ReadPhase(s).Done?)
  }

  /** When the calls were settled, in order. */
  ghost function Times(s: State, es: seq<Event>, s': State): (times: seq<int>)
    requires Leads(s, es, s')
    decreases |es|
  {
    if es == [] then []
    else (if Settles(s, es[0]) then [s.now] else []) + Times(Next(s, es[0]), es[1..], s')
  }

  /** How many calls the run admits from time lo on and before hi. */
  ghost function Admissions(s: State, es: seq<Event>, s': State, lo: int, hi: int): nat
    requires Leads(s, es, s')
    decreases |es|
  {
    if es == [] then 0
    else (if es[0].Write? && lo <= s.now < hi then 1 else 0) + Admissions(Next(s, es[0]), es[1..], s', lo, hi)
  }

  lemma {:induction false} TimesAreChronological(s: State, es: seq<Event>, s': State)
    requires Leads(s, es, s')
    ensures Chronological(Times(s, es, s'), s.now)
    decreases |es|
  {
    if es != [] {
      TimesAreChronological(Next(s, es[0]), es[1..], s');
    }
  }

  lemma {:induction false} InTurnIsAtomic(s: State, es: seq<Event>, s': State, lo: int, hi: int)
    requires Positive(s) && Leads(s, es, s') && AllInTurn(s, es, s')
    ensures Admissions(s, es, s', lo, hi) == Admitted(s.counter, s.limit, s.window, Times(s, es, s'), lo, hi)
    decreases |es|
  {
    if es != [] {
      var s1 := Next(s, es[0]);
      InTurnIsAtomic(s1, es[1..], s', lo, hi);
      var rest := Times(s1, es[1..], s');
      if Settles(s, es[0]) {
        assert ([s.now] + rest)[1..] == rest;
        if es[0].Write? {
          WriteIsAtomicExactly(s, es[0].call);
        } else {
          RefusalIsAtomic(s, es[0].call);
        }
      } else {
        assert [] + rest == rest;
      }
    }
  }

  /** Calls whose writes are in turn keep the bound of the atomic limiter, however they interleave. */
  lemma InTurnKeepsTheBound(limit: int, window: int, es: seq<Event>, s: State, a: int)
    requires window >= 1 && Leads(State(limit, window, 0, None, map[]), es, s)
    requires AllInTurn(State(limit, window, 0, None, map[]), es, s)
    ensures Admissions(State(limit, window, 0, None, map[]), es, s, a, a + window) <= 2 * Quota(limit) - 1
  {
    var s0 := State(limit, window, 0, None, map[]);
    InTurnIsAtomic(s0, es, s, a, a + window);
    TimesAreChronological(s0, es, s);
    UnderTwiceTheQuota(limit, window, Times(s0, es, s), a);
  }

  // ----- Out of turn -----

  lemma LeadsFirst(s: State, e: Event, es: seq<Event>, s': State, lo: int, hi: int) returns (all: seq<Event>)
    requires Enabled(s, e) && Leads(Next(s, e), es, s')
    ensures Leads(s, all, s')
    ensures Admissions(s, all, s', lo, hi) ==
      (if e.Write? && lo <= s.now < hi then 1 else 0) + Admissions(Next(s, e), es, s', lo, hi)
  {
    all := [e] + es;
    assert all[1..] == es;
  }

  function Openings(n: nat): (calls: map<CallId, Phase>)
    ensures forall c: CallId :: c in calls <==> c < n
    ensures forall c: CallId :: c in calls ==> calls[c] == Opening
  {
    if n == 0 then map[] else Openings(n - 1)[n - 1 := Opening]
  }

  /** The first n calls have all found no counter. */
  function AllOpening(limit: int, window: int, n: nat): State {
    State(limit, window, 0, None, Openings(n))
  }

  /** n calls that find no counter are all admitted, one after the other. */
  lemma {:induction false} OpeningsAreAdmitted(s: State, n: nat) returns (es: seq<Event>, s': State)
    requires s.now == 0 && forall c: CallId :: c in Openings(n) ==> c in s.calls && s.calls[c].Opening?
    ensures Leads(s, es, s') && Admissions(s, es, s', 0, 1) == n
    decreases n
  {
    if n == 0 {
      es, s' := [], s;
    } else {
      es, s' := OpeningsAreAdmitted(Next(s, Write(n - 1)), n - 1);
      es := LeadsFirst(s, Write(n - 1), es, s', 0, 1);
    }
  }

  lemma {:induction false} ReadsFindNothing(limit: int, window: int, n: nat, m: nat, es: seq<Event>, s: State)
    returns (all: seq<Event>)
    requires m <= n && Leads(AllOpening(limit, window, n), es, s)
    ensures Leads(AllOpening(limit, window, m), all, s)
    ensures Admissions(AllOpening(limit, window, m), all, s, 0, 1) ==
      Admissions(AllOpening(limit, window, n), es, s, 0, 1)
    decreases n - m
  {
    if m == n {
      all := es;
    } else {
      all := ReadsFindNothing(limit, window, n, m + 1, es, s);
      assert Next(AllOpening(limit, window, m), Read(m)) == AllOpening(limit, window, m + 1);
      all := LeadsFirst(AllOpening(limit, window, m), Read(m), all, s, 0, 1);
    }
  }

  /** Whatever the limit, any number of calls can be admitted at one time: all read before the first of them writes. */
  lemma AnyNumberIsAdmittedAtOnce(limit: int, window: int, n: nat) returns (es: seq<Event>, s: State)
    ensures Leads(State(limit, window, 0, None, map[]), es, s)
    ensures Admissions(State(limit, window, 0, None, map[]), es, s, 0, 1) == n
  {
    es, s := OpeningsAreAdmitted(AllOpening(limit, window, n), n);
    es := ReadsFindNothing(limit, window, n, 0, es, s);
  }

  /** A counter without a deadline that has reached the limit refuses every new call from then on. */
  lemma {:induction false} NeverAgain(s: State, es: seq<Event>, s': State)
    requires Leads(s, es, s') && s.counter.Some? && s.counter.value.expiresAt == 0 && s.counter.value.value >= s.limit
    requires forall c :: c in s.calls ==> s.calls[c].Done?
    ensures forall c :: c in s'.calls && c !in s.calls ==> s'.calls[c] == Done(false)
    ensures forall c :: c in s.calls ==> c in s'.calls && s'.calls[c] == s.calls[c]
    decreases |es|
  {
    if es != [] {
      NeverAgain(Next(s, es[0]), es[1..], s');
    }
  }

  /** A call reads a counter of one below the limit of two, and increments it after it has expired; one more call, and
      the key never admits again. */
  lemma LateIncrementLocksTheKey() returns (es: seq<Event>, s: State)
    ensures Leads(State(2, 60, 0, None, map[]), es, s)
    ensures s.counter == Some(Entry(2, 0)) && forall c :: c in s.calls ==> s.calls[c].Done?
  {
    var s0 := State(2, 60, 0, None, map[]);
    var s1 := Next(Next(s0, Read(0)), Write(0));
    var s2 := Next(s1, Read(1));
    var s3 := Next(Next(s2, Tick(60)), Write(1));
    var s4 := Next(s3, Read(2));
    s := Next(s4, Write(2));
    assert s2.calls[1] == Counting && s3.counter == Some(Entry(1, 0)) && s4.calls[2] == Counting;
    es := [];
    es := LeadsFirst(s4, Write(2), es, s, 0, 0);
    es := LeadsFirst(s3, Read(2), es, s, 0, 0);
    es := LeadsFirst(Next(s2, Tick(60)), Write(1), es, s, 0, 0);
    es := LeadsFirst(s2, Tick(60), es, s, 0, 0);
    es := LeadsFirst(s1, Read(1), es, s, 0, 0);
    es := LeadsFirst(Next(s0, Read(0)), Write(0), es, s, 0, 0);
    es := LeadsFirst(s0, Read(0), es, s, 0, 0);
  }
}
