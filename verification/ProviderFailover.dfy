/** ProviderManager of backend/architecture/vendor_agnostic.py: circuit breakers and recursive failover.

    Health checks, provider calls and clock readings are answered by an oracle, one answer per
    observation; statements for every oracle cover every behaviour of the outside world. */
module ProviderFailover {
  import opened Options

  datatype ProviderType = AI | Payment | Calendar | Database | Cache | Storage

  /** id is the object's identity; name, together with the type, is the circuit's key. */
  datatype Provider = Provider(id: nat, name: string, ptype: ProviderType, priority: int, isPrimary: bool)

  datatype CircuitState = Closed | Open | HalfOpen

  datatype Circuit = Circuit(failures: nat, lastFailure: int, state: CircuitState, threshold: nat, timeout: int)

  datatype Metrics = Metrics(requests: nat, successes: nat, failures: nat)

  type Key = (ProviderType, string)

  const FRESH_CIRCUIT := Circuit(0, 0, Closed, 5, 60)
  const FRESH_METRICS := Metrics(0, 0, 0)

  datatype Health = Healthy | Unhealthy | CheckRaised

  datatype CallResult = Value(v: int) | Threw

  datatype Oracle = Oracle(clock: nat -> int, health: (nat, Provider) -> Health, call: (nat, Provider) -> CallResult)

  /** What the manager changes while it works; tick counts observations, resets the circuits closed again. */
  datatype State = State(circuits: map<Key, Circuit>, metrics: map<Key, Metrics>, tick: nat, resets: nat)

  function KeyOf(p: Provider): Key {
    (p.ptype, p.name)
  }

  /** Each of these providers has a circuit and metrics. */
  ghost predicate Covered(circuits: set<Key>, metrics: set<Key>, ps: seq<Provider>) {
    forall p :: p in ps ==> KeyOf(p) in circuits && KeyOf(p) in metrics
  }

  ghost predicate Known(s: State, ps: seq<Provider>) {
    Covered(s.circuits.Keys, s.metrics.Keys, ps)
  }

  type Registry = map<ProviderType, seq<Provider>>

  ghost predicate RegistryValid(providers: Registry, primaries: map<ProviderType, Provider>, circuits: set<Key>,
                                metrics: set<Key>) {
    && (forall t :: t in providers ==>
      ByPriority(providers[t]) && Covered(circuits, metrics, providers[t]) &&
      forall p :: p in providers[t] ==> p.ptype == t)
    && (forall t :: t in primaries ==> t in providers && primaries[t] in providers[t])
  }

  ghost predicate SameKeys(s: State, s': State) {
    s'.circuits.Keys == s.circuits.Keys && s'.metrics.Keys == s.metrics.Keys
  }

  function RecordFailure(s: State, o: Oracle, p: Provider): State
    requires KeyOf(p) in s.circuits && KeyOf(p) in s.metrics
  {
    var k := KeyOf(p);
    var c, m := s.circuits[k], s.metrics[k];
    var failures := c.failures + 1;
    s.(circuits := s.circuits[k := c.(failures := failures, lastFailure := o.clock(s.tick),
                                      state := if failures >= c.threshold then Open else c.state)],
       metrics := s.metrics[k := m.(failures := m.failures + 1)],
       tick := s.tick + 1)
  }

  /** The timeout test of an open circuit. */
  function Probe(s: State, o: Oracle, p: Provider): State
    requires KeyOf(p) in s.circuits
  {
    var k := KeyOf(p);
    var c := s.circuits[k];
    if !c.state.Open? then s
    else if o.clock(s.tick) - c.lastFailure > c.timeout
    then s.(circuits := s.circuits[k := c.(state := HalfOpen)], tick := s.tick + 1)
    else s.(tick := s.tick + 1)
  }

  /** _is_provider_available. */
  function IsAvailable(s: State, o: Oracle, p: Provider): (State, bool)
    requires KeyOf(p) in s.circuits && KeyOf(p) in s.metrics
  {
    var k := KeyOf(p);
    var s1 := Probe(s, o, p);
    var c := s1.circuits[k];
    if c.state.Open? then (s1, false)
    else
      var h := o.health(s1.tick, p);
      var s2 := s1.(tick := s1.tick + 1);
      if !h.Healthy? then (RecordFailure(s2, o, p), false)
      else if c.state.HalfOpen?
      then (s2.(circuits := s2.circuits[k := c.(state := Closed, failures := 0)], resets := s2.resets + 1), true)
      else (s2, true)
  }

  /** get_provider: the first available one in priority order. */
  function GetProvider(s: State, o: Oracle, ps: seq<Provider>): (r: (State, Option<Provider>))
    requires Known(s, ps)
    ensures SameKeys(s, r.0)
    ensures r.1.Some? ==> r.1.value in ps
    decreases |ps|
  {
    if ps == [] then (s, None)
    else
      var (s1, ok) := IsAvailable(s, o, ps[0]);
      if ok then (s1, Some(ps[0])) else GetProvider(s1, o, ps[1..])
  }

  datatype Outcome = Returned(v: int) | NoProvider | CallFailed(id: nat) | OutOfFuel

  function StartRequest(s: State, k: Key): State
    requires k in s.metrics
  {
    s.(metrics := s.metrics[k := s.metrics[k].(requests := s.metrics[k].requests + 1)], tick := s.tick + 1)
  }

  /** The call to a provider that was found, and the record of how it went. */
  function Called(s: State, o: Oracle, p: Provider): (r: (State, CallResult))
    requires KeyOf(p) in s.circuits && KeyOf(p) in s.metrics
    ensures SameKeys(s, r.0)
  {
    var k := KeyOf(p);
    var s1 := StartRequest(s, k);
    var s2 := s1.(tick := s1.tick + 1);
    var result := o.call(s1.tick, p);
    if result.Value? then
      (s2.(metrics := s2.metrics[k := s2.metrics[k].(successes := s2.metrics[k].successes + 1)], tick := s2.tick + 1),
       result)
    else (RecordFailure(s2, o, p), result)
  }

  /** The part of a request up to the provider's answer, including the record of its failure. */
  function Failing(s: State, o: Oracle, ps: seq<Provider>): (r: (State, Option<Provider>, CallResult))
    requires Known(s, ps)
    ensures SameKeys(s, r.0)
    ensures r.1.Some? ==> r.1.value in ps
  {
    var (s1, found) := GetProvider(s, o, ps);
    if found.None? then (s1, None, Threw)
    else
      var (s2, result) := Called(s1, o, found.value);
      (s2, found, result)
  }

  /** execute_with_provider on the providers ps of one type: final state, outcome and number of failovers.
      fuel bounds the recursion, which the source leaves unbounded. */
  function Execute(s: State, o: Oracle, ps: seq<Provider>, fuel: nat): (State, Outcome, nat)
    requires Known(s, ps)
    decreases fuel
  {
    if fuel == 0 then (s, OutOfFuel, 0)
    else
      var (s1, found, result) := Failing(s, o, ps);
      if found.None? then (s1, NoProvider, 0)
      else if result.Value? then (s1, Returned(result.v), 0)
      else
        var (s2, next) := GetProvider(s1, o, ps);
        if next.Some? && next.value.id != found.value.id then
          var (s3, outcome, n) := Execute(s2, o, ps, fuel - 1);
          (s3, outcome, n + 1)
        else (s2, CallFailed(found.value.id), 0)
  }

  // ----- What health checks decide -----

  /** Provider p was asked in s and is not available, as s' records: its circuit is open and its timeout has not passed,
      or its health check fails and circuit and metrics count one more failure. */
  ghost predicate PassedOver(s: State, o: Oracle, p: Provider, s': State)
    requires KeyOf(p) in s.circuits && KeyOf(p) in s.metrics
  {
    var k := KeyOf(p);
    var c, m := s.circuits[k], s.metrics[k];
    if c.state == Open && o.clock(s.tick) - c.lastFailure <= c.timeout then s' == s.(tick := s.tick + 1)
    else
      var check := if c.state == Open then s.tick + 1 else s.tick;
      && o.health(check, p) in {Unhealthy, CheckRaised}
      && s'.metrics == s.metrics[k := Metrics(m.requests, m.successes, m.failures + 1)]
      && s'.circuits == s.circuits[k := Circuit(c.failures + 1, o.clock(check + 1),
           if c.failures + 1 >= c.threshold then Open else if c.state == Open then HalfOpen else c.state,
           c.threshold, c.timeout)]
      && s'.tick == check + 2 && s'.resets == s.resets
  }

  /** Provider p was asked in s and is available, as s' records: it is not resting and its health check succeeds, which
      closes its circuit. */
  ghost predicate Chosen(s: State, o: Oracle, p: Provider, s': State)
    requires KeyOf(p) in s.circuits
  {
    var k := KeyOf(p);
    var c := s.circuits[k];
    var check := if c.state == Open then s.tick + 1 else s.tick;
    && (c.state == Open ==> o.clock(s.tick) - c.lastFailure > c.timeout)
    && o.health(check, p) == Healthy
    && s'.metrics == s.metrics && s'.tick == check + 1
    && (c.state == Closed ==> s'.circuits == s.circuits && s'.resets == s.resets)
    && (c.state != Closed ==>
      s'.circuits == s.circuits[k := Circuit(0, c.lastFailure, Closed, c.threshold, c.timeout)] &&
      s'.resets == s.resets + 1)
  }

  /** A provider is available exactly when it is not resting and its health check succeeds. */
  lemma HealthDecides(s: State, o: Oracle, p: Provider, s': State)
    requires KeyOf(p) in s.circuits && KeyOf(p) in s.metrics
    ensures IsAvailable(s, o, p) == (s', true) <==> Chosen(s, o, p, s')
    ensures IsAvailable(s, o, p) == (s', false) <==> PassedOver(s, o, p, s')
  {
    var k := KeyOf(p);
    var c := s.circuits[k];
    var s1 := Probe(s, o, p);
    if PassedOver(s, o, p, s') && s'.tick > s1.tick {
      assert s'.circuits == RecordFailure(s1.(tick := s1.tick + 1), o, p).circuits;
    }
    if Chosen(s, o, p, s') && c.state != Closed {
      assert s'.circuits == s1.circuits[k := s1.circuits[k].(state := Closed, failures := 0)];
    }
  }

  /** Asking the first |asked| - 1 of ps leads through the states asked, and none of them is available. */
  ghost predicate AllPassedOver(o: Oracle, ps: seq<Provider>, asked: seq<State>) {
    && 0 < |asked| <= |ps| + 1 && Known(asked[0], ps)
    && (forall j :: 0 <= j < |asked| ==> SameKeys(asked[0], asked[j]))
    && forall j :: 0 <= j < |asked| - 1 ==> ps[j] in ps && PassedOver(asked[j], o, ps[j], asked[j + 1])
  }

  lemma OneMorePassedOver(s: State, o: Oracle, ps: seq<Provider>, rest: seq<State>)
    requires ps != [] && Known(s, ps) && AllPassedOver(o, ps[1..], rest)
    requires SameKeys(s, rest[0]) && PassedOver(s, o, ps[0], rest[0])
    ensures AllPassedOver(o, ps, [s] + rest)
  {
    var asked := [s] + rest;
    forall j | 0 <= j < |asked|
      ensures SameKeys(s, asked[j])
    {
      assert j > 0 ==> asked[j] == rest[j - 1];
    }
    forall j | 0 <= j < |asked| - 1
      ensures ps[j] in ps && PassedOver(asked[j], o, ps[j], asked[j + 1])
    {
      hide PassedOver;
      assert asked[j + 1] == rest[j];
      if j > 0 {
        assert asked[j] == rest[j - 1] && ps[j] == ps[1..][j - 1];
      }
    }
  }

  /** A search among ps that led through the states asked ends in s' with found: the last one asked, healthy, or nobody
      after all were asked in vain. */
  ghost predicate SearchEnds(o: Oracle, ps: seq<Provider>, asked: seq<State>, s': State, found: Option<Provider>) {
    && AllPassedOver(o, ps, asked)
    && (found.None? ==> |asked| == |ps| + 1 && asked[|ps|] == s')
    && (found.Some? ==>
      && |asked| <= |ps| && found.value == ps[|asked| - 1]
      && KeyOf(found.value) in asked[|asked| - 1].circuits && Chosen(asked[|asked| - 1], o, found.value, s'))
  }

  lemma OneMoreAsked(s: State, o: Oracle, ps: seq<Provider>, rest: seq<State>, s': State, found: Option<Provider>)
    requires ps != [] && Known(s, ps) && SearchEnds(o, ps[1..], rest, s', found)
    requires SameKeys(s, rest[0]) && PassedOver(s, o, ps[0], rest[0])
    ensures SearchEnds(o, ps, [s] + rest, s', found)
  {
    OneMorePassedOver(s, o, ps, rest);
    hide PassedOver, Chosen, SameKeys, KeyOf;
    assert ([s] + rest)[|rest|] == rest[|rest| - 1];
  }

  /** get_provider asks in order: whoever is returned answered its health check well, and everybody before was resting
      or failed its check; nobody is returned exactly when all did. */
  lemma {:induction false} ChosenExactly(s: State, o: Oracle, ps: seq<Provider>) returns (asked: seq<State>)
    requires Known(s, ps)
    ensures asked != [] && asked[0] == s
    ensures SearchEnds(o, ps, asked, GetProvider(s, o, ps).0, GetProvider(s, o, ps).1)
    decreases |ps|
  {
    asked := [s];
    if ps != [] {
      var (s1, ok) := IsAvailable(s, o, ps[0]);
      HealthDecides(s, o, ps[0], s1);
      hide IsAvailable, PassedOver, Chosen;
      if !ok {
        hide SearchEnds;
        var rest := ChosenExactly(s1, o, ps[1..]);
        OneMoreAsked(s, o, ps, rest, GetProvider(s, o, ps).0, GetProvider(s, o, ps).1);
        asked := [s] + rest;
      }
    }
  }

  /** Whoever is returned answered a health check well meanwhile. */
  lemma {:induction false} ChosenIsHealthy(s: State, o: Oracle, ps: seq<Provider>)
    requires Known(s, ps)
    ensures var (s', found) := GetProvider(s, o, ps);
      s.tick <= s'.tick && (found.Some? ==> exists i :: s.tick <= i < s'.tick && o.health(i, found.value) == Healthy)
    decreases |ps|
  {
    if ps != [] {
      var s1 := IsAvailable(s, o, ps[0]).0;
      HealthDecides(s, o, ps[0], s1);
      if !IsAvailable(s, o, ps[0]).1 {
        hide IsAvailable;
        ChosenIsHealthy(s1, o, ps[1..]);
      }
    }
  }

  /** A value that is returned was answered by one of the providers, to a call made after a health check it answered
      well; a failure that is reported was thrown by the provider named, after such a check too. */
  ghost predicate Accounted(from: nat, to: nat, o: Oracle, ps: seq<Provider>, outcome: Outcome) {
    && (outcome.Returned? ==> exists p, i, j ::
      p in ps && from <= i < j < to && o.health(i, p) == Healthy && o.call(j, p) == Value(outcome.v))
    && (outcome.CallFailed? ==> exists p, i, j ::
      p in ps && p.id == outcome.id && from <= i < j < to && o.health(i, p) == Healthy && o.call(j, p) == Threw)
  }

  /** A call is the second of three observations. */
  lemma CallIsMade(s: State, o: Oracle, p: Provider)
    requires KeyOf(p) in s.circuits && KeyOf(p) in s.metrics
    ensures Called(s, o, p).0.tick == s.tick + 3 && Called(s, o, p).1 == o.call(s.tick + 1, p)
  {
  }

  lemma CallFollowsCheck(s: State, o: Oracle, ps: seq<Provider>)
    requires Known(s, ps)
    ensures var (s', found, result) := Failing(s, o, ps);
      s.tick <= s'.tick && (found.Some? ==> exists i, j ::
        s.tick <= i < j < s'.tick && o.health(i, found.value) == Healthy && o.call(j, found.value) == result)
  {
    ChosenIsHealthy(s, o, ps);
    var (s1, found) := GetProvider(s, o, ps);
    hide GetProvider, Called;
    if found.Some? {
      CallIsMade(s1, o, found.value);
      var i :| s.tick <= i < s1.tick && o.health(i, found.value) == Healthy;
      assert o.call(s1.tick + 1, found.value) == Failing(s, o, ps).2;
    }
  }

  lemma {:induction false} OutcomesAreAccounted(s: State, o: Oracle, ps: seq<Provider>, fuel: nat)
    requires Known(s, ps)
    ensures var (s', outcome, _) := Execute(s, o, ps, fuel);
      s.tick <= s'.tick && Accounted(s.tick, s'.tick, o, ps, outcome)
    decreases fuel
  {
    hide Failing, GetProvider;
    if fuel > 0 {
      var (s1, found, result) := Failing(s, o, ps);
      CallFollowsCheck(s, o, ps);
      if found.Some? && result.Threw? {
        ChosenIsHealthy(s1, o, ps);
        var (s2, next) := GetProvider(s1, o, ps);
        if next.Some? && next.value.id != found.value.id {
          OutcomesAreAccounted(s2, o, ps, fuel - 1);
        }
      }
    }
  }

  // ----- Registration -----

  /** list.sort after an append: the new provider goes behind those of equal priority. */
  function InsertByPriority(p: Provider, ps: seq<Provider>): (r: seq<Provider>)
    ensures multiset(r) == multiset(ps) + multiset{p}
  {
    if ps == [] then [p]
    else if p.priority < ps[0].priority then [p] + ps
    else
      assert ps == [ps[0]] + ps[1..];
      [ps[0]] + InsertByPriority(p, ps[1..])
  }

  lemma InsertionMembers(p: Provider, ps: seq<Provider>)
    ensures forall q :: q in InsertByPriority(p, ps) <==> q == p || q in ps
  {
    forall q
      ensures q in InsertByPriority(p, ps) <==> q == p || q in ps
    {
      assert q in InsertByPriority(p, ps) <==> q in multiset(InsertByPriority(p, ps));
    }
  }

  ghost predicate ByPriority(ps: seq<Provider>) {
    forall i, j :: 0 <= i < j < |ps| ==> ps[i].priority <= ps[j].priority
  }

  lemma {:induction false} InsertionKeepsPriorityOrder(p: Provider, ps: seq<Provider>)
    requires ByPriority(ps)
    ensures ByPriority(InsertByPriority(p, ps))
  {
    if ps != [] && p.priority >= ps[0].priority {
      InsertionKeepsPriorityOrder(p, ps[1..]);
      InsertionMembers(p, ps[1..]);
      var rest := InsertByPriority(p, ps[1..]);
      forall i | 0 <= i < |rest|
        ensures ps[0].priority <= rest[i].priority
      {
        assert rest[i] in rest;
      }
    }
  }

  /** Closed means fewer failures than the threshold; open and half-open mean at least as many. */
  predicate CircuitValid(c: Circuit) {
    && c.threshold >= 1
    && (c.state.Closed? <==> c.failures < c.threshold)
  }

  /** Between calls no circuit is left half-open, and failed requests are all accounted for. */
  ghost predicate Valid(s: State) {
    && (forall k :: k in s.circuits ==> CircuitValid(s.circuits[k]) && !s.circuits[k].state.HalfOpen?)
    && (forall k :: k in s.metrics ==> s.metrics[k].requests <= s.metrics[k].successes + s.metrics[k].failures)
  }

  lemma RegistrationKeepsRegistry(providers: Registry, primaries: map<ProviderType, Provider>,
                                  circuits: set<Key>, metrics: set<Key>,
                                  p: Provider, providers': Registry, primaries': map<ProviderType, Provider>)
    requires RegistryValid(providers, primaries, circuits, metrics)
    requires var list := if p.ptype in providers then providers[p.ptype] else [];
      providers' == providers[p.ptype := InsertByPriority(p, list)]
    requires primaries' == primaries || primaries' == primaries[p.ptype := p]
    ensures RegistryValid(providers', primaries', circuits + {KeyOf(p)}, metrics + {KeyOf(p)})
  {
    var list := if p.ptype in providers then providers[p.ptype] else [];
    InsertionKeepsPriorityOrder(p, list);
    InsertionMembers(p, list);
    forall t | t in providers'
      ensures ByPriority(providers'[t]) && Covered(circuits + {KeyOf(p)}, metrics + {KeyOf(p)}, providers'[t])
      ensures forall q :: q in providers'[t] ==> q.ptype == t
    {
      if t != p.ptype {
        assert providers'[t] == providers[t];
      } else {
        assert forall q :: q in list ==> q.ptype == t;
      }
    }
  }

  lemma RegistrationKeepsValid(s: State, k: Key)
    requires Valid(s)
    ensures var s' := s.(circuits := s.circuits[k := FRESH_CIRCUIT], metrics := s.metrics[k := FRESH_METRICS]);
      Valid(s') && s'.circuits.Keys == s.circuits.Keys + {k} && s'.metrics.Keys == s.metrics.Keys + {k}
  {
  }

  // ----- Every operation keeps the circuits valid -----

  lemma AvailabilityKeepsValid(s: State, o: Oracle, p: Provider)
    requires Valid(s) && KeyOf(p) in s.circuits && KeyOf(p) in s.metrics
    ensures Valid(IsAvailable(s, o, p).0) && SameKeys(s, IsAvailable(s, o, p).0)
    ensures IsAvailable(s, o, p).1 ==> IsAvailable(s, o, p).0.circuits[KeyOf(p)].state.Closed?
  {
  }

  lemma {:induction false} SearchKeepsValid(s: State, o: Oracle, ps: seq<Provider>)
    requires Valid(s) && Known(s, ps)
    ensures var (s', found) := GetProvider(s, o, ps);
      Valid(s') && (found.Some? ==> s'.circuits[KeyOf(found.value)].state.Closed?)
    decreases |ps|
  {
    if ps != [] {
      AvailabilityKeepsValid(s, o, ps[0]);
      if !IsAvailable(s, o, ps[0]).1 {
        SearchKeepsValid(IsAvailable(s, o, ps[0]).0, o, ps[1..]);
      }
    }
  }

  lemma RequestKeepsValid(s: State, o: Oracle, ps: seq<Provider>)
    requires Valid(s) && Known(s, ps)
    ensures Valid(Failing(s, o, ps).0)
  {
    SearchKeepsValid(s, o, ps);
  }

  lemma {:induction false} ExecutionKeepsValid(s: State, o: Oracle, ps: seq<Provider>, fuel: nat)
    requires Valid(s) && Known(s, ps)
    ensures Valid(Execute(s, o, ps, fuel).0) && SameKeys(s, Execute(s, o, ps, fuel).0)
    decreases fuel
  {
    hide Failing, GetProvider, Valid, CircuitValid;
    if fuel > 0 {
      var (s1, found, result) := Failing(s, o, ps);
      RequestKeepsValid(s, o, ps);
      if found.Some? && result.Threw? {
        SearchKeepsValid(s1, o, ps);
        var (s2, next) := GetProvider(s1, o, ps);
        if next.Some? && next.value.id != found.value.id {
          ExecutionKeepsValid(s2, o, ps, fuel - 1);
        }
      }
    }
  }

  class World {
    const oracle: Oracle
    var tick: nat

    constructor (o: Oracle)
      ensures oracle == o && tick == 0
    {
      oracle := o;
      tick := 0;
    }

    method Now() returns (time: int)
      modifies this
      ensures time == oracle.clock(old(tick)) && tick == old(tick) + 1
    {
      time := oracle.clock(tick);
      tick := tick + 1;
    }

    method HealthCheck(p: Provider) returns (h: Health)
      modifies this
      ensures h == oracle.health(old(tick), p) && tick == old(tick) + 1
    {
      h := oracle.health(tick, p);
      tick := tick + 1;
    }

    method Call(p: Provider) returns (r: CallResult)
      modifies this
      ensures r == oracle.call(old(tick), p) && tick == old(tick) + 1
    {
      r := oracle.call(tick, p);
      tick := tick + 1;
    }
  }

  class ProviderManager {
    var providers: Registry
    var primaries: map<ProviderType, Provider>
    var circuits: map<Key, Circuit>
    var metrics: map<Key, Metrics>
    ghost var resets: nat
    const world: World

    constructor (w: World)
      ensures world == w && providers == map[] && primaries == map[] && circuits == map[] &&
        metrics == map[] && resets == 0
    {
      world := w;
      providers, primaries, circuits, metrics, resets := map[], map[], map[], map[], 0;
    }

    ghost function View(): State
      reads `circuits, `metrics, `resets, world
    {
      State(circuits, metrics, world.tick, resets)
    }

    function Registered(t: ProviderType): seq<Provider>
      reads `providers
    {
      if t in providers then providers[t] else []
    }

    /** Every registered provider has its circuit and metrics, and lists follow priority. */
    ghost predicate Consistent()
      reads this, world
    {
      Valid(View()) && RegistryValid(providers, primaries, circuits.Keys, metrics.Keys)
    }

    method RegisterProvider(p: Provider)
      requires Consistent()
      modifies this
      ensures Consistent()
      ensures Registered(p.ptype) == InsertByPriority(p, old(Registered(p.ptype)))
      ensures forall t :: t != p.ptype ==> Registered(t) == old(Registered(t))
      ensures primaries == (if p.isPrimary || p.ptype !in old(primaries) then old(primaries)[p.ptype := p]
          else old(primaries))
      ensures circuits == old(circuits)[KeyOf(p) := FRESH_CIRCUIT] && metrics == old(metrics)[KeyOf(p) := FRESH_METRICS]
    {
      hide Valid, RegistryValid, InsertByPriority;
      ghost var providers0, primaries0, s0 := providers, primaries, View();
      var t := p.ptype;
      if t !in providers {
        providers := providers[t := []];
      }
      providers := providers[t := InsertByPriority(p, providers[t])];
      if p.isPrimary || t !in primaries {
        primaries := primaries[t := p];
      }
      circuits := circuits[KeyOf(p) := FRESH_CIRCUIT];
      metrics := metrics[KeyOf(p) := FRESH_METRICS];
      RegistrationKeepsRegistry(providers0, primaries0, s0.circuits.Keys, s0.metrics.Keys, p, providers, primaries);
      RegistrationKeepsValid(s0, KeyOf(p));
    }

    method RecordProviderFailure(p: Provider)
      requires KeyOf(p) in circuits && KeyOf(p) in metrics
      modifies this`circuits, this`metrics, world
      ensures View() == RecordFailure(old(View()), world.oracle, p)
    {
      var k := KeyOf(p);
      circuits := circuits[k := circuits[k].(failures := circuits[k].failures + 1)];
      var now := world.Now();
      circuits := circuits[k := circuits[k].(lastFailure := now)];
      if circuits[k].failures >= circuits[k].threshold {
        circuits := circuits[k := circuits[k].(state := Open)];
      }
      metrics := metrics[k := metrics[k].(failures := metrics[k].failures + 1)];
    }

    method IsProviderAvailable(p: Provider) returns (available: bool)
      requires KeyOf(p) in circuits && KeyOf(p) in metrics
      modifies this`circuits, this`metrics, this`resets, world
      ensures (View(), available) == IsAvailable(old(View()), world.oracle, p)
      ensures available ==> exists i :: old(world.tick) <= i < world.tick && world.oracle.health(i, p) == Healthy
    {
      var k := KeyOf(p);
      if circuits[k].state == Open {
        var now := world.Now();
        if now - circuits[k].lastFailure > circuits[k].timeout {
          circuits := circuits[k := circuits[k].(state := HalfOpen)];
        } else {
          return false;
        }
      }
      var h := world.HealthCheck(p);
      if h != Healthy {
        RecordProviderFailure(p);
        return false;
      }
      if circuits[k].state == HalfOpen {
        circuits := circuits[k := circuits[k].(state := Closed, failures := 0)];
        resets := resets + 1;
      }
      return true;
    }

    /** The loop of get_provider. */
    method FirstAvailable(ps: seq<Provider>) returns (found: Option<Provider>)
      requires Known(View(), ps)
      modifies this`circuits, this`metrics, this`resets, world
      ensures (View(), found) == GetProvider(old(View()), world.oracle, ps)
    {
      ghost var before := View();
      assert ps[0..] == ps;
      for i := 0 to |ps|
        invariant SameKeys(before, View())
        invariant GetProvider(View(), world.oracle, ps[i..]) == GetProvider(before, world.oracle, ps)
      {
        assert ps[i..][0] == ps[i] && ps[i..][1..] == ps[i + 1..];
        var available := IsProviderAvailable(ps[i]);
        if available {
          return Some(ps[i]);
        }
      }
      return None;
    }

    /** get_provider with force_primary unset. */
    method GetBestProvider(t: ProviderType) returns (found: Option<Provider>)
      requires Known(View(), Registered(t))
      modifies this`circuits, this`metrics, this`resets, world
      ensures (View(), found) == GetProvider(old(View()), world.oracle, Registered(t))
      ensures found.Some? ==>
        exists i :: old(world.tick) <= i < world.tick && world.oracle.health(i, found.value) == Healthy
    {
      ChosenIsHealthy(View(), world.oracle, Registered(t));
      hide GetProvider;
      if t !in providers {
        return None;
      }
      found := FirstAvailable(providers[t]);
    }

    /** get_provider with force_primary set. */
    method GetPrimary(t: ProviderType) returns (found: Option<Provider>)
      requires Consistent()
      modifies this`circuits, this`metrics, this`resets, world
      ensures Consistent()
      ensures t !in primaries ==> found.None? && View() == old(View())
      ensures t in primaries ==>
        var (s, ok) := IsAvailable(old(View()), world.oracle, primaries[t]);
        View() == s && found == if ok then Some(primaries[t]) else None
    {
      if t !in providers || t !in primaries {
        return None;
      }
      AvailabilityKeepsValid(View(), world.oracle, primaries[t]);
      var available := IsProviderAvailable(primaries[t]);
      found := if available then Some(primaries[t]) else None;
    }

    /** execute_with_provider up to the record of the call's success or failure. */
    method CallBestProvider(t: ProviderType) returns (found: Option<Provider>, result: CallResult)
      requires Known(View(), Registered(t))
      modifies this`circuits, this`metrics, this`resets, world
      ensures (View(), found, result) == Failing(old(View()), world.oracle, Registered(t))
    {
      hide GetProvider, Called;
      found := GetBestProvider(t);
      if found.None? {
        return found, Threw;
      }
      result := CallProvider(found.value);
    }

    method CallProvider(p: Provider) returns (result: CallResult)
      requires KeyOf(p) in circuits && KeyOf(p) in metrics
      modifies this`circuits, this`metrics, world
      ensures (View(), result) == Called(old(View()), world.oracle, p)
      ensures result == world.oracle.call(old(world.tick) + 1, p)
      ensures var k := KeyOf(p);
        var m := old(metrics)[k];
        metrics == old(metrics)[k := if result.Value? then Metrics(m.requests + 1, m.successes + 1, m.failures)
                                     else Metrics(m.requests + 1, m.successes, m.failures + 1)]
      ensures result.Value? ==> circuits == old(circuits)
      ensures result.Threw? ==> circuits[KeyOf(p)].failures == old(circuits)[KeyOf(p)].failures + 1
    {
      var k := KeyOf(p);
      ghost var s := View();
      var start := world.Now();
      metrics := metrics[k := metrics[k].(requests := metrics[k].requests + 1)];
      assert View() == StartRequest(s, k);
      result := world.Call(p);
      if result.Value? {
        metrics := metrics[k := metrics[k].(successes := metrics[k].successes + 1)];
        var end := world.Now();
      } else {
        RecordProviderFailure(p);
      }
    }

    method Attempt(t: ProviderType, fuel: nat) returns (outcome: Outcome, ghost failovers: nat)
      requires Known(View(), Registered(t))
      modifies this`circuits, this`metrics, this`resets, world
      ensures (View(), outcome, failovers) == Execute(old(View()), world.oracle, Registered(t), fuel)
      decreases fuel
    {
      hide Failing, GetProvider;
      if fuel == 0 {
        return OutOfFuel, 0;
      }
      ghost var o, ps := world.oracle, Registered(t);
      var found, result := CallBestProvider(t);
      ghost var s1 := View();
      assert Known(s1, ps);
      if found.None? {
        return NoProvider, 0;
      }
      if result.Value? {
        return Returned(result.v), 0;
      }
      var next := GetBestProvider(t);
      ghost var s2 := View();
      assert (s2, next) == GetProvider(s1, o, ps) && Known(s2, ps);
      if next.Some? && next.value.id != found.value.id {
        outcome, failovers := Attempt(t, fuel - 1);
        failovers := failovers + 1;
      } else {
        outcome, failovers := CallFailed(found.value.id), 0;
      }
    }

    method ExecuteWithProvider(t: ProviderType, fuel: nat) returns (outcome: Outcome, ghost failovers: nat)
      requires Consistent()
      modifies this`circuits, this`metrics, this`resets, world
      ensures Consistent()
      ensures (View(), outcome, failovers) == Execute(old(View()), world.oracle, Registered(t), fuel)
      ensures Accounted(old(world.tick), world.tick, world.oracle, Registered(t), outcome)
    {
      OutcomesAreAccounted(View(), world.oracle, Registered(t), fuel);
      ExecutionKeepsValid(View(), world.oracle, Registered(t), fuel);
      outcome, failovers := Attempt(t, fuel);
    }
  }
}
