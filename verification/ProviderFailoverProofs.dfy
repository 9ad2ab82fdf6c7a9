/** Failover ends, and when it happens at all. */
module ProviderFailoverProofs {
  import opened Options
  import opened ProviderFailover

  /** How many failures a circuit still takes before it opens. */
  function Room(c: Circuit): nat {
    if c.failures < c.threshold then c.threshold - c.failures else 0
  }

  function TotalRoom(s: State, ps: seq<Provider>): nat
    requires Known(s, ps)
    decreases |ps|
  {
    if ps == [] then 0 else Room(s.circuits[KeyOf(ps[0])]) + TotalRoom(s, ps[1..])
  }

  /** No circuit of s has a threshold above n. */
  ghost predicate ThresholdsWithin(s: State, n: nat) {
    forall k :: k in s.circuits ==> s.circuits[k].threshold <= n
  }

  ghost predicate OnlyChanges(s: State, s': State, k: Key) {
    && SameKeys(s, s') && k in s.circuits
    && forall k' :: k' in s.circuits && k' != k ==> s'.circuits[k'] == s.circuits[k']
  }

  lemma {:induction false} RoomShrinks(s: State, s': State, k: Key, ps: seq<Provider>)
    requires Known(s, ps) && Known(s', ps) && OnlyChanges(s, s', k)
    requires Room(s'.circuits[k]) <= Room(s.circuits[k])
    ensures TotalRoom(s', ps) <= TotalRoom(s, ps)
    ensures Room(s'.circuits[k]) < Room(s.circuits[k]) && (exists p :: p in ps && KeyOf(p) == k) ==>
      TotalRoom(s', ps) < TotalRoom(s, ps)
    decreases |ps|
  {
    if ps != [] {
      RoomShrinks(s, s', k, ps[1..]);
      assert forall p :: p in ps ==> p == ps[0] || p in ps[1..];
    }
  }

  lemma {:induction false} RoomGrows(s: State, s': State, k: Key, ps: seq<Provider>, n: nat)
    requires Known(s, ps) && Known(s', ps) && OnlyChanges(s, s', k)
    requires Room(s'.circuits[k]) <= n
    ensures TotalRoom(s', ps) <= TotalRoom(s, ps) + |ps| * n
    decreases |ps|
  {
    hide Room, KeyOf;
    if ps != [] {
      RoomGrows(s, s', k, ps[1..], n);
      assert |ps| * n == n + (|ps| - 1) * n;
    }
  }

  /** What n bounds for each circuit closed again, all providers together. */
  function Refill(s: State, s': State, ps: seq<Provider>, n: nat): int {
    |ps| * n * (s'.resets - s.resets)
  }

  /** An availability test touches one circuit, and gives it new room only by closing it again. */
  lemma AvailabilityTouchesOneCircuit(s: State, o: Oracle, p: Provider)
    requires Valid(s) && KeyOf(p) in s.circuits && KeyOf(p) in s.metrics
    ensures var s', k := IsAvailable(s, o, p).0, KeyOf(p);
      && OnlyChanges(s, s', k) && s'.circuits[k].threshold == s.circuits[k].threshold
      && (s'.resets == s.resets || s'.resets == s.resets + 1)
      && (s'.resets == s.resets ==> Room(s'.circuits[k]) <= Room(s.circuits[k]))
      && Room(s'.circuits[k]) <= s.circuits[k].threshold
  {
  }

  lemma AvailabilitySpendsRoom(s: State, o: Oracle, p: Provider, ps: seq<Provider>, n: nat)
    requires Valid(s) && Known(s, ps) && p in ps && ThresholdsWithin(s, n)
    ensures var s' := IsAvailable(s, o, p).0;
      && SameKeys(s, s') && ThresholdsWithin(s', n) && s.resets <= s'.resets
      && TotalRoom(s', ps) <= TotalRoom(s, ps) + Refill(s, s', ps, n)
  {
    hide IsAvailable, Refill, Valid;
    var s' := IsAvailable(s, o, p).0;
    var k := KeyOf(p);
    AvailabilityTouchesOneCircuit(s, o, p);
    if s'.resets == s.resets {
      RoomShrinks(s, s', k, ps);
      NoRefill(s, s', ps, n);
    } else {
      RoomGrows(s, s', k, ps, n);
      OneRefill(s, s', ps, n);
    }
  }

  lemma NoRefill(s: State, s': State, ps: seq<Provider>, n: nat)
    requires s'.resets == s.resets
    ensures Refill(s, s', ps, n) == 0
  {
  }

  lemma RefillOfSameResets(s: State, s1: State, s2: State, ps: seq<Provider>, n: nat)
    requires s1.resets == s2.resets
    ensures Refill(s, s1, ps, n) == Refill(s, s2, ps, n)
  {
  }

  lemma OneRefill(s: State, s': State, ps: seq<Provider>, n: nat)
    requires s'.resets == s.resets + 1
    ensures Refill(s, s', ps, n) == |ps| * n
  {
  }

  lemma {:induction false} SearchSpendsRoom(s: State, o: Oracle, qs: seq<Provider>, ps: seq<Provider>, n: nat)
    requires Valid(s) && Known(s, ps) && Known(s, qs) && ThresholdsWithin(s, n) && forall q :: q in qs ==> q in ps
    ensures var s' := GetProvider(s, o, qs).0;
      && ThresholdsWithin(s', n) && s.resets <= s'.resets
      && TotalRoom(s', ps) <= TotalRoom(s, ps) + Refill(s, s', ps, n)
    decreases |qs|
  {
    if qs != [] {
      AvailabilitySpendsRoom(s, o, qs[0], ps, n);
      AvailabilityKeepsValid(s, o, qs[0]);
      var (s1, ok) := IsAvailable(s, o, qs[0]);
      if !ok {
        SearchSpendsRoom(s1, o, qs[1..], ps, n);
        var s' := GetProvider(s1, o, qs[1..]).0;
        RefillAdds(s, s1, s', ps, n);
      }
    }
  }

  lemma RefillAdds(s: State, s1: State, s2: State, ps: seq<Provider>, n: nat)
    ensures Refill(s, s1, ps, n) + Refill(s1, s2, ps, n) == Refill(s, s2, ps, n)
  {
    var m := |ps| * n;
    assert m * (s1.resets - s.resets) + m * (s2.resets - s1.resets) == m * (s2.resets - s.resets);
  }

  lemma {:induction false} RoomOfSameCircuits(s: State, s': State, ps: seq<Provider>)
    requires Known(s, ps) && Known(s', ps) && s'.circuits == s.circuits
    ensures TotalRoom(s', ps) == TotalRoom(s, ps)
    decreases |ps|
  {
    if ps != [] {
      RoomOfSameCircuits(s, s', ps[1..]);
    }
  }

  lemma FailureKeepsThresholds(s: State, o: Oracle, p: Provider, n: nat)
    requires KeyOf(p) in s.circuits && KeyOf(p) in s.metrics && ThresholdsWithin(s, n)
    ensures ThresholdsWithin(RecordFailure(s, o, p), n) && RecordFailure(s, o, p).resets == s.resets
  {
  }

  /** A failed call costs the provider's circuit one unit of room. */
  lemma FailureSpendsRoom(s: State, o: Oracle, p: Provider, ps: seq<Provider>)
    requires Known(s, ps) && p in ps && s.circuits[KeyOf(p)].state.Closed? && CircuitValid(s.circuits[KeyOf(p)])
    ensures Known(RecordFailure(s, o, p), ps) && TotalRoom(RecordFailure(s, o, p), ps) < TotalRoom(s, ps)
  {
    RoomShrinks(s, RecordFailure(s, o, p), KeyOf(p), ps);
  }

  /** After a provider was found: its call, and the record of how it went. */
  lemma CallSpendsRoom(s: State, o: Oracle, ps: seq<Provider>, n: nat, s1: State, p: Provider)
    requires Known(s, ps) && GetProvider(s, o, ps) == (s1, Some(p)) && ThresholdsWithin(s1, n)
    requires s1.circuits[KeyOf(p)].state.Closed? && CircuitValid(s1.circuits[KeyOf(p)])
    ensures var (s', found, result) := Failing(s, o, ps);
      && found == Some(p) && ThresholdsWithin(s', n) && s'.resets == s1.resets
      && TotalRoom(s', ps) <= TotalRoom(s1, ps)
      && (result.Threw? ==> TotalRoom(s', ps) < TotalRoom(s1, ps))
  {
    hide GetProvider, TotalRoom, RecordFailure;
    var s3 := StartRequest(s1, KeyOf(p)).(tick := s1.tick + 2);
    RoomOfSameCircuits(s1, s3, ps);
    FailureKeepsThresholds(s3, o, p, n);
    if o.call(s1.tick + 1, p).Threw? {
      FailureSpendsRoom(s3, o, p, ps);
    } else {
      RoomOfSameCircuits(s1, Failing(s, o, ps).0, ps);
    }
  }

  lemma FailedRequestSpendsRoom(s: State, o: Oracle, ps: seq<Provider>, n: nat)
    requires Valid(s) && Known(s, ps) && ThresholdsWithin(s, n)
    ensures var (s', found, result) := Failing(s, o, ps);
      && ThresholdsWithin(s', n) && s.resets <= s'.resets
      && TotalRoom(s', ps) <= TotalRoom(s, ps) + Refill(s, s', ps, n)
      && (found.Some? && result.Threw? ==> TotalRoom(s', ps) < TotalRoom(s, ps) + Refill(s, s', ps, n))
  {
    SearchSpendsRoom(s, o, ps, ps, n);
    SearchKeepsValid(s, o, ps);
    var (s1, found) := GetProvider(s, o, ps);
    hide GetProvider, Refill, TotalRoom, RecordFailure;
    if found.Some? {
      CallSpendsRoom(s, o, ps, n, s1, found.value);
      RefillOfSameResets(s, s1, Failing(s, o, ps).0, ps, n);
    }
  }

  /** Every failover is paid for: by room in the circuits at the start, or by a circuit closed again. */
  lemma {:induction false} FailoversArePaidFor(s: State, o: Oracle, ps: seq<Provider>, fuel: nat, n: nat)
    requires Valid(s) && Known(s, ps) && ThresholdsWithin(s, n)
    ensures var (s', outcome, failovers) := Execute(s, o, ps, fuel);
      && SameKeys(s, s')
      && failovers + TotalRoom(s', ps) <= TotalRoom(s, ps) + Refill(s, s', ps, n)
      && (outcome.OutOfFuel? ==> failovers == fuel)
    decreases fuel
  {
    hide Failing, GetProvider, Refill, TotalRoom, Valid, ThresholdsWithin;
    if fuel > 0 {
      var (s1, found, result) := Failing(s, o, ps);
      FailedRequestSpendsRoom(s, o, ps, n);
      RequestKeepsValid(s, o, ps);
      if found.Some? && result.Threw? {
        SearchSpendsRoom(s1, o, ps, ps, n);
        SearchKeepsValid(s1, o, ps);
        var (s2, next) := GetProvider(s1, o, ps);
        RefillAdds(s, s1, s2, ps, n);
        if next.Some? && next.value.id != found.value.id {
          FailoversArePaidFor(s2, o, ps, fuel - 1, n);
          RefillAdds(s, s2, Execute(s2, o, ps, fuel - 1).0, ps, n);
        }
      }
    } else {
      NoRefill(s, s, ps, n);
    }
  }

  // ----- While no open circuit reaches its timeout -----

  /** From now on the clock stays within [from, to], and no timeout fits in between. */
  ghost predicate Calm(s: State, o: Oracle, from: int, to: int) {
    && (forall i: nat :: s.tick <= i ==> from <= o.clock(i) <= to)
    && (forall k :: k in s.circuits ==>
      && to - from <= s.circuits[k].timeout
      && (s.circuits[k].state.Open? ==> to - s.circuits[k].lastFailure <= s.circuits[k].timeout))
  }

  lemma AvailabilityKeepsCalm(s: State, o: Oracle, p: Provider, from: int, to: int)
    requires Valid(s) && KeyOf(p) in s.circuits && KeyOf(p) in s.metrics && Calm(s, o, from, to)
    ensures Calm(IsAvailable(s, o, p).0, o, from, to) && IsAvailable(s, o, p).0.resets == s.resets
  {
    assert from <= o.clock(s.tick) <= to && from <= o.clock(s.tick + 1) <= to;
  }

  lemma {:induction false} SearchKeepsCalm(s: State, o: Oracle, ps: seq<Provider>, from: int, to: int)
    requires Valid(s) && Known(s, ps) && Calm(s, o, from, to)
    ensures Calm(GetProvider(s, o, ps).0, o, from, to) && GetProvider(s, o, ps).0.resets == s.resets
    decreases |ps|
  {
    if ps != [] {
      AvailabilityKeepsCalm(s, o, ps[0], from, to);
      AvailabilityKeepsValid(s, o, ps[0]);
      var (s1, ok) := IsAvailable(s, o, ps[0]);
      if !ok {
        SearchKeepsCalm(s1, o, ps[1..], from, to);
      }
    }
  }

  lemma RequestKeepsCalm(s: State, o: Oracle, ps: seq<Provider>, from: int, to: int)
    requires Valid(s) && Known(s, ps) && Calm(s, o, from, to)
    ensures Calm(Failing(s, o, ps).0, o, from, to) && Failing(s, o, ps).0.resets == s.resets
  {
    SearchKeepsCalm(s, o, ps, from, to);
    var s1 := GetProvider(s, o, ps).0;
    assert from <= o.clock(s1.tick + 2) <= to;
  }

  /** While the clock is calm no circuit is closed again, and fuel beyond the room left is never used. */
  lemma {:induction false} CalmFailoverTerminates(s: State, o: Oracle, ps: seq<Provider>, fuel: nat, from: int, to: int,
                                                  n: nat)
    requires Valid(s) && Known(s, ps) && ThresholdsWithin(s, n) && Calm(s, o, from, to)
    requires fuel > TotalRoom(s, ps)
    ensures var (s', outcome, failovers) := Execute(s, o, ps, fuel);
      !outcome.OutOfFuel? && failovers <= TotalRoom(s, ps) && s'.resets == s.resets
    ensures forall more: nat :: more >= fuel ==> Execute(s, o, ps, more) == Execute(s, o, ps, fuel)
    decreases fuel
  {
    hide Failing, GetProvider, TotalRoom, Valid, ThresholdsWithin, Calm, Refill;
    var (s1, found, result) := Failing(s, o, ps);
    FailedRequestSpendsRoom(s, o, ps, n);
    RequestKeepsValid(s, o, ps);
    RequestKeepsCalm(s, o, ps, from, to);
    NoRefill(s, s1, ps, n);
    if found.Some? && result.Threw? {
      SearchSpendsRoom(s1, o, ps, ps, n);
      SearchKeepsValid(s1, o, ps);
      SearchKeepsCalm(s1, o, ps, from, to);
      var (s2, next) := GetProvider(s1, o, ps);
      NoRefill(s1, s2, ps, n);
      if next.Some? && next.value.id != found.value.id {
        CalmFailoverTerminates(s2, o, ps, fuel - 1, from, to, n);
        forall more: nat | more >= fuel
          ensures Execute(s, o, ps, more) == Execute(s, o, ps, fuel)
        {
          assert Execute(s2, o, ps, more - 1) == Execute(s2, o, ps, fuel - 1);
        }
      }
    }
  }

  // ----- When failover happens -----

  /** Health checks of p always succeed. */
  ghost predicate LooksHealthy(o: Oracle, p: Provider) {
    forall i: nat :: o.health(i, p) == Healthy
  }

  lemma FirstIsChosen(s: State, o: Oracle, ps: seq<Provider>)
    requires Known(s, ps) && |ps| >= 1 && s.circuits[KeyOf(ps[0])].state.Closed? && LooksHealthy(o, ps[0])
    ensures GetProvider(s, o, ps) == (s.(tick := s.tick + 1), Some(ps[0]))
  {
  }

  /** An open circuit whose timeout has not passed leaves the choice to the providers after it. */
  lemma OpenIsSkipped(s: State, o: Oracle, ps: seq<Provider>)
    requires Known(s, ps) && |ps| >= 1
    requires var c := s.circuits[KeyOf(ps[0])]; c.state.Open? && o.clock(s.tick) - c.lastFailure <= c.timeout
    ensures GetProvider(s, o, ps) == GetProvider(s.(tick := s.tick + 1), o, ps[1..])
  {
    assert IsAvailable(s, o, ps[0]) == (s.(tick := s.tick + 1), false);
  }

  /** Once its timeout has passed, a provider that looks healthy is chosen again. */
  lemma RestedIsChosen(s: State, o: Oracle, ps: seq<Provider>)
    requires Known(s, ps) && |ps| >= 1 && LooksHealthy(o, ps[0])
    requires var c := s.circuits[KeyOf(ps[0])]; c.state.Open? && o.clock(s.tick) - c.lastFailure > c.timeout
    ensures GetProvider(s, o, ps).1 == Some(ps[0])
  {
  }

  /** What a call to the first provider leaves when it throws. */
  lemma FirstThrows(s: State, o: Oracle, ps: seq<Provider>)
    requires Valid(s) && Known(s, ps) && |ps| >= 1 && s.circuits[KeyOf(ps[0])].state.Closed? && LooksHealthy(o, ps[0])
    requires Failing(s, o, ps).2.Threw?
    ensures var (s1, found, _) := Failing(s, o, ps);
      var c, c1 := s.circuits[KeyOf(ps[0])], s1.circuits[KeyOf(ps[0])];
      && found == Some(ps[0]) && c1.failures == c.failures + 1 && c1.threshold == c.threshold
      && (c1.state.Open? <==> c.failures + 1 >= c.threshold) && (c1.state.Closed? <==> c.failures + 1 < c.threshold)
  {
    hide GetProvider, IsAvailable;
    FirstIsChosen(s, o, ps);
  }

  /** Exactly when a failed call is failed over, for a first provider that looks healthy throughout: only if this
      failure opens its circuit, the timeout does not pass at once, and a provider after it is available. Otherwise
      the caller sees the failure. */
  lemma FailsOverOnlyWhenTheCircuitOpens(s: State, o: Oracle, ps: seq<Provider>, fuel: nat)
    requires Valid(s) && Known(s, ps) && fuel >= 1 && |ps| >= 1
    requires forall p :: p in ps[1..] ==> p.id != ps[0].id
    requires s.circuits[KeyOf(ps[0])].state.Closed? && LooksHealthy(o, ps[0])
    requires Failing(s, o, ps).2.Threw?
    ensures var s1, c := Failing(s, o, ps).0, s.circuits[KeyOf(ps[0])];
      var (_, outcome, failovers) := Execute(s, o, ps, fuel);
      && (failovers > 0 <==>
          && c.failures + 1 >= c.threshold
          && o.clock(s1.tick) - s1.circuits[KeyOf(ps[0])].lastFailure <= s1.circuits[KeyOf(ps[0])].timeout
          && GetProvider(s1.(tick := s1.tick + 1), o, ps[1..]).1.Some?)
      && (failovers == 0 ==> outcome == CallFailed(ps[0].id))
  {
    hide GetProvider, IsAvailable, Failing;
    var s1 := Failing(s, o, ps).0;
    var c1 := s1.circuits[KeyOf(ps[0])];
    FirstThrows(s, o, ps);
    if c1.state.Closed? {
      FirstIsChosen(s1, o, ps);
    } else if o.clock(s1.tick) - c1.lastFailure <= c1.timeout {
      OpenIsSkipped(s1, o, ps);
    } else {
      RestedIsChosen(s1, o, ps);
    }
  }

  const FIRST: Provider := Provider(0, "first", AI, 0, true)
  const SECOND: Provider := Provider(1, "second", AI, 1, false)

  /** Health checks succeed and the clock stands still; calls to the first provider throw, others return. */
  const FLAKY: Oracle := Oracle(_ => 0, (_, _) => Healthy, (_, p: Provider) => if p.id == 0 then Threw else Value(7))

  /** Two fresh providers of which the first throws: no failover, and the second one's circuit stays closed. */
  lemma FreshFailureIsNotFailedOver(s: State)
    requires s.circuits == map[KeyOf(FIRST) := FRESH_CIRCUIT, KeyOf(SECOND) := FRESH_CIRCUIT]
    requires s.metrics == map[KeyOf(FIRST) := FRESH_METRICS, KeyOf(SECOND) := FRESH_METRICS]
    ensures Known(s, [FIRST, SECOND])
    ensures var (s', outcome, failovers) := Execute(s, FLAKY, [FIRST, SECOND], 2);
      && outcome == CallFailed(0) && failovers == 0 && SameKeys(s, s')
      && s'.circuits[KeyOf(SECOND)] == FRESH_CIRCUIT
  {
    var ps := [FIRST, SECOND];
    var k := KeyOf(FIRST);
    assert k != KeyOf(SECOND);
    FirstIsChosen(s, FLAKY, ps);
    hide GetProvider, IsAvailable;
    var s1 := Failing(s, FLAKY, ps).0;
    assert s1.circuits == s.circuits[k := s1.circuits[k]] && s1.circuits[k].state.Closed?;
    FirstIsChosen(s1, FLAKY, ps);
  }

  method RegisterTwo() returns (manager: ProviderManager)
    ensures fresh(manager) && fresh(manager.world) && manager.Consistent() && manager.world.oracle == FLAKY
    ensures manager.Registered(AI) == [FIRST, SECOND]
    ensures manager.circuits == map[KeyOf(FIRST) := FRESH_CIRCUIT, KeyOf(SECOND) := FRESH_CIRCUIT]
    ensures manager.metrics == map[KeyOf(FIRST) := FRESH_METRICS, KeyOf(SECOND) := FRESH_METRICS]
  {
    var world := new World(FLAKY);
    manager := new ProviderManager(world);
    assert manager.Consistent();
    hide *;
    manager.RegisterProvider(FIRST);
    manager.RegisterProvider(SECOND);
    NextToFirst();
  }

  lemma NextToFirst()
    ensures InsertByPriority(SECOND, InsertByPriority(FIRST, [])) == [FIRST, SECOND]
  {
  }

  /** Two providers are registered and the first one throws: the caller sees the failure, although the second one is
      available. */
  method FirstFailureReachesTheCaller() returns (outcome: Outcome, available: bool)
    ensures outcome == CallFailed(0) && available
  {
    hide Execute, Valid, GetProvider, RegistryValid;
    var manager := RegisterTwo();
    FreshFailureIsNotFailedOver(manager.View());
    ghost var failovers;
    outcome, failovers := manager.ExecuteWithProvider(AI, 2);
    available := manager.IsProviderAvailable(SECOND);
  }
}
