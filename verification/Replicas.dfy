/** Primary failover and weighted read balancing: backend/core/database_replicas.py. */
module Replicas {
  import opened Options
  import opened OrderedDicts

  type Name = string

  datatype Role = Primary | Replica | Standby

  datatype Health = Healthy | Degraded | Unhealthy | Maintenance

  datatype Config = Config(role: Role, readOnly: bool, weight: real)

  datatype State = State(replicas: Dict<Name, Config>, sessions: set<Name>, health: Dict<Name, Health>,
                         weights: map<Name, real>)

  /** Every pool has a configuration, a health status and a session maker; a name without one is never healthy. */
  ghost predicate Inv(s: State) {
    && Valid(s.replicas) && Valid(s.health)
    && s.replicas.entries.Keys == s.sessions
    && s.sessions <= s.health.entries.Keys
    && s.weights.Keys <= s.sessions
    && (forall n :: n in s.health.entries && s.health.entries[n].Healthy? ==> n in s.sessions)
  }

  predicate IsHealthy(s: State, n: Name) {
    n in s.health.entries && s.health.entries[n].Healthy?
  }

  predicate IsPrimary(s: State, n: Name) {
    n in s.replicas.entries && s.replicas.entries[n].role.Primary?
  }

  // ----- Looking up the primary -----

  /** k is the first place, in order, whose name passes a test. */
  ghost predicate FirstIndex(order: seq<Name>, test: Name -> bool, k: nat) {
    k < |order| && test(order[k]) && forall j :: 0 <= j < k ==> !test(order[j])
  }

  function First(order: seq<Name>, test: Name -> bool): (r: Option<Name>)
    ensures r.None? <==> forall k :: 0 <= k < |order| ==> !test(order[k])
    ensures r.Some? ==> r.value in order && test(r.value)
    decreases |order|
  {
    if order == [] then None
    else if test(order[0]) then Some(order[0])
    else
      var r := First(order[1..], test);
      assert forall k :: 1 <= k < |order| ==> order[k] == order[1..][k - 1];
      r
  }

  lemma {:induction false} FirstAt(order: seq<Name>, test: Name -> bool, k: nat)
    requires FirstIndex(order, test, k)
    ensures First(order, test) == Some(order[k])
    decreases |order|
  {
    if k > 0 {
      FirstAt(order[1..], test, k - 1);
    }
  }

  lemma {:induction false} FirstHasIndex(order: seq<Name>, test: Name -> bool) returns (k: nat)
    requires First(order, test).Some?
    ensures FirstIndex(order, test, k) && First(order, test) == Some(order[k])
    decreases |order|
  {
    if test(order[0]) {
      k := 0;
    } else {
      k := FirstHasIndex(order[1..], test);
      k := k + 1;
      assert forall j :: 1 <= j < |order| ==> order[j] == order[1..][j - 1];
    }
  }

  predicate Distinct(order: seq<Name>) {
    forall i, j :: 0 <= i < j < |order| ==> order[i] != order[j]
  }

  lemma FirstExactly(order: seq<Name>, test: Name -> bool, k: nat)
    requires Distinct(order) && k < |order|
    ensures First(order, test) == Some(order[k]) <==> FirstIndex(order, test, k)
  {
    if FirstIndex(order, test, k) {
      FirstAt(order, test, k);
    }
    if First(order, test) == Some(order[k]) {
      var i := FirstHasIndex(order, test);
      assert i == k;
    }
  }

  function HealthyPrimary(s: State): Name -> bool {
    (n: Name) => IsPrimary(s, n) && IsHealthy(s, n)
  }

  /** The healthy primary that was registered first. */
  function PrimaryOf(s: State): Option<Name> {
    First(s.replicas.order, HealthyPrimary(s))
  }

  /** The names configured as primaries, in order. */
  function Primaries(replicas: Dict<Name, Config>, order: seq<Name>): (ps: seq<Name>)
    ensures forall n :: n in ps <==> n in order && n in replicas.entries && replicas.entries[n].role.Primary?
    decreases |order|
  {
    if order == [] then []
    else (if order[0] in replicas.entries && replicas.entries[order[0]].role.Primary? then [order[0]] else [])
         + Primaries(replicas, order[1..])
  }

  function HealthyIn(health: Dict<Name, Health>): Name -> bool {
    (n: Name) => n in health.entries && health.entries[n].Healthy?
  }

  lemma {:induction false} FirstOfPrimaries(s: State, order: seq<Name>)
    ensures First(Primaries(s.replicas, order), HealthyIn(s.health)) == First(order, HealthyPrimary(s))
    decreases |order|
  {
    if order != [] {
      FirstOfPrimaries(s, order[1..]);
      var ps := Primaries(s.replicas, order);
      if IsPrimary(s, order[0]) {
        assert ps[1..] == Primaries(s.replicas, order[1..]);
      } else {
        assert ps == Primaries(s.replicas, order[1..]);
      }
    }
  }

  /** The two lookups, first among all primaries and first healthy one after it, find the first healthy primary. */
  lemma FirstPrimaryIsPrimaryOf(s: State)
    requires Inv(s)
    ensures PrimaryOf(s) == First(Primaries(s.replicas, s.replicas.order), HealthyIn(s.health))
    ensures forall n :: n in Primaries(s.replicas, s.replicas.order) ==> n in s.health.entries
    ensures PrimaryOf(s).Some? ==>
      PrimaryOf(s).value in s.sessions && IsPrimary(s, PrimaryOf(s).value) && IsHealthy(s, PrimaryOf(s).value)
  {
    FirstOfPrimaries(s, s.replicas.order);
  }

  function FailoverTarget(s: State, failed: Name): Option<Name> {
    First(s.health.order, (n: Name) => IsHealthy(s, n) && n != failed)
  }

  function Promoted(s: State, n: Name): State
    requires n in s.replicas.entries && Valid(s.replicas)
  {
    s.(replicas := Put(s.replicas, n, s.replicas.entries[n].(role := Primary, readOnly := false)))
  }

  datatype Event =
    | CreatePool(name: Name, config: Config, connects: bool)
    | RemovePool(name: Name)
    | HealthCheck(name: Name, healthy: bool)
    | Failover(failed: Name)

  function Next(s: State, e: Event): State
    requires Inv(s)
  {
    match e
    case CreatePool(n, config, connects) =>
      if connects then
        State(Put(s.replicas, n, config), s.sessions + {n}, Put(s.health, n, Healthy),
              if config.role.Replica? then s.weights[n := config.weight] else s.weights)
      else s.(health := Put(s.health, n, Unhealthy))
    case RemovePool(n) =>
      if n in s.sessions
      then State(Delete(s.replicas, n), s.sessions - {n}, Delete(s.health, n), s.weights - {n}) else s
    case HealthCheck(n, healthy) =>
      if n in s.sessions then s.(health := Put(s.health, n, if healthy then Healthy else Unhealthy)) else s
    case Failover(failed) => (
      match FailoverTarget(s, failed)
      case None => s
      case Some(n) => Promoted(s, n)
    )
  }

  class Manager {
    var replicas: Dict<Name, Config>
    var sessions: set<Name>
    var health: Dict<Name, Health>
    var weights: map<Name, real>

    constructor ()
      ensures View() == EMPTY
    {
      replicas, sessions, health, weights := Dict([], map[]), {}, Dict([], map[]), map[];
    }

    ghost function View(): State
      reads this
    {
      State(replicas, sessions, health, weights)
    }

    /** connects tells whether the engine could be created. */
    method CreateReplicaPool(n: Name, config: Config, connects: bool)
      requires Inv(View())
      modifies this
      ensures View() == Next(old(View()), CreatePool(n, config, connects))
      ensures IsHealthy(View(), n) <==> connects
      ensures connects ==> n in sessions && n in replicas.entries && replicas.entries[n] == config
      ensures connects && config.role == Replica ==> n in weights && weights[n] == config.weight
      ensures !connects ==> sessions == old(sessions) && replicas == old(replicas) && weights == old(weights)
      ensures Inv(View())
    {
      CreateKeepsInv(View(), n, config, connects);
      if connects {
        sessions := sessions + {n};
        replicas := Put(replicas, n, config);
        health := Put(health, n, Healthy);
        if config.role == Replica {
          weights := weights[n := config.weight];
        }
      } else {
        health := Put(health, n, Unhealthy);
      }
    }

    method RemoveReplica(n: Name)
      requires Inv(View())
      modifies this
      ensures View() == Next(old(View()), RemovePool(n))
      ensures sessions == old(sessions) - {n}
      ensures n in old(sessions) ==> n !in replicas.entries && n !in health.entries && n !in weights
      ensures Inv(View())
    {
      RemoveKeepsInv(View(), n);
      if n in sessions {
        sessions := sessions - {n};
        replicas := Delete(replicas, n);
        health := Delete(health, n);
        weights := weights - {n};
      }
    }

    /** Writes go to the first registered primary if it is healthy, else to the first healthy one after it. */
    method GetPrimarySession() returns (r: Option<Name>)
      requires Inv(View())
      ensures r == PrimaryOf(View())
      ensures r.Some? ==> r.value in sessions && IsPrimary(View(), r.value) && IsHealthy(View(), r.value)
    {
      hide First, PrimaryOf, Primaries, Inv, IsPrimary, IsHealthy;
      var primaries := Primaries(replicas, replicas.order);
      FirstPrimaryIsPrimaryOf(View());
      if primaries == [] {
        return None;
      }
      if health.entries[primaries[0]].Healthy? {
        FirstAt(primaries, HealthyIn(health), 0);
        return Some(primaries[0]);
      }
      for i := 1 to |primaries|
        invariant forall j :: 0 <= j < i ==> !HealthyIn(health)(primaries[j])
      {
        if health.entries[primaries[i]].Healthy? {
          FirstAt(primaries, HealthyIn(health), i);
          return Some(primaries[i]);
        }
      }
      return None;
    }

    method FailoverToReplica(failed: Name) returns (promoted: bool)
      requires Inv(View())
      modifies this`replicas
      ensures View() == Next(old(View()), Failover(failed))
      ensures promoted <==> exists n :: n != failed && IsHealthy(old(View()), n)
      ensures Inv(View())
    {
      FailoverKeepsInv(View(), failed);
      var order := health.order;
      ghost var test := (n: Name) => IsHealthy(old(View()), n) && n != failed;
      for k := 0 to |order|
        invariant replicas == old(replicas)
        invariant forall j :: 0 <= j < k ==> !test(order[j])
      {
        var n := order[k];
        if health.entries[n].Healthy? && n != failed {
          FirstAt(order, test, k);
          var config := replicas.entries[n];
          replicas := Put(replicas, n, Config(Primary, false, config.weight));
          return true;
        }
      }
      return false;
    }

    /** draw is the uniform number taken from zero to the total weight, choice the index of a plain random choice. */
    method SelectWeightedReplica(names: seq<Name>, draw: real, choice: nat) returns (r: Name)
      requires choice < |names|
      ensures r in names
      ensures weights == map[] || Prefix(weights, names, |names|) == 0.0 ==> r == names[choice]
      ensures weights != map[] && Prefix(weights, names, |names|) != 0.0 ==> r == names[Selected(weights, names, draw)]
    {
      if weights == map[] {
        return names[choice];
      }
      var total := 0.0;
      for i := 0 to |names|
        invariant total == Prefix(weights, names, i)
      {
        total := total + Weight(weights, names[i]);
      }
      if total == 0.0 {
        return names[choice];
      }
      var current := 0.0;
      for i := 0 to |names|
        invariant current == Prefix(weights, names, i)
        invariant forall j :: 0 <= j < i ==> !Reached(weights, names, draw, j)
      {
        current := current + Weight(weights, names[i]);
        if draw <= current {
          ReachingSkips(weights, names, draw, 0, i);
          return names[i];
        }
      }
      ReachingSkips(weights, names, draw, 0, |names|);
      return names[0];
    }

    /** Reads go to a healthy pool that is not read-only, or to the primary when there is none. */
    method GetReadSession(draw: real, choice: nat) returns (r: Option<Name>)
      requires Inv(View())
      ensures r.Some? ==> r.value in sessions && IsHealthy(View(), r.value)
      ensures r == PrimaryOf(View()) || (r.Some? && Readable(View(), r.value))
      ensures (exists n :: Usable(View(), n)) ==> r.Some? && Readable(View(), r.value)
      ensures var names := UsableNames(View(), replicas.order);
        r == if names == [] then PrimaryOf(View())
             else if weights == map[] || Prefix(weights, names, |names|) == 0.0 then Some(names[choice % |names|])
             else Some(names[Selected(weights, names, draw)])
    {
      var names: seq<Name> := [];
      for k := 0 to |replicas.order|
        invariant names == UsableNames(View(), replicas.order[..k])
      {
        assert replicas.order[..k + 1][..k] == replicas.order[..k];
        var n := replicas.order[k];
        if (replicas.entries[n].role.Primary? || replicas.entries[n].role.Replica?) && !replicas.entries[n].readOnly &&
          health.entries[n].Healthy? {
          names := names + [n];
        }
      }
      assert replicas.order[..|replicas.order|] == replicas.order;
      if names == [] {
        r := GetPrimarySession();
      } else {
        var n := SelectWeightedReplica(names, draw, choice % |names|);
        r := Some(n);
      }
    }
  }

  /** The usable names, in the order they were registered. */
  function UsableNames(s: State, order: seq<Name>): (names: seq<Name>)
    ensures forall n :: n in names <==> n in order && Usable(s, n)
  {
    if order == [] then []
    else
      var last := |order| - 1;
      assert order == order[..last] + [order[last]];
      UsableNames(s, order[..last]) + if Usable(s, order[last]) then [order[last]] else []
  }

  predicate Usable(s: State, n: Name) {
    Readable(s, n) && IsHealthy(s, n)
  }

  predicate Readable(s: State, n: Name) {
    n in s.replicas.entries && !s.replicas.entries[n].role.Standby? && !s.replicas.entries[n].readOnly
  }

  // ----- Invariant -----

  lemma CreateKeepsInv(s: State, n: Name, config: Config, connects: bool)
    requires Inv(s)
    ensures Inv(Next(s, CreatePool(n, config, connects)))
  {
  }

  lemma RemoveKeepsInv(s: State, n: Name)
    requires Inv(s)
    ensures Inv(Next(s, RemovePool(n)))
  {
  }

  lemma FailoverKeepsInv(s: State, failed: Name)
    requires Inv(s)
    ensures Inv(Next(s, Failover(failed)))
  {
  }

  lemma NextKeepsInv(s: State, e: Event)
    requires Inv(s)
    ensures Inv(Next(s, e))
  {
    match e
    case CreatePool(n, config, connects) => CreateKeepsInv(s, n, config, connects);
    case RemovePool(n) => RemoveKeepsInv(s, n);
    case HealthCheck(n, healthy) =>
    case Failover(failed) => FailoverKeepsInv(s, failed);
  }

  ghost predicate Leads(s: State, es: seq<Event>, s': State)
    decreases |es|
  {
    if es == [] then s == s' else Inv(s) && Leads(Next(s, es[0]), es[1..], s')
  }

  const EMPTY := State(Dict([], map[]), {}, Dict([], map[]), map[])

  lemma {:induction false} InvHolds(s: State, es: seq<Event>, s': State)
    requires Inv(s) && Leads(s, es, s')
    ensures Inv(s')
    decreases |es|
  {
    if es != [] {
      NextKeepsInv(s, es[0]);
      InvHolds(Next(s, es[0]), es[1..], s');
    }
  }

  // ----- Failover -----

  /** The promoted pool is the healthy one, other than the failed, that was first given a status; writes may go to it
      and so may reads. */
  lemma PromotedIsUsable(s: State, failed: Name, n: Name)
    requires Inv(s) && FailoverTarget(s, failed) == Some(n)
    ensures var s' := Next(s, Failover(failed));
      && n != failed && IsHealthy(s, n) && Usable(s', n) && IsPrimary(s', n)
      && (forall m :: m != n && m in s.replicas.entries ==> s'.replicas.entries[m] == s.replicas.entries[m])
      && s'.replicas.entries.Keys == s.replicas.entries.Keys && s'.replicas.order == s.replicas.order
      && exists k ::
        0 <= k < |s.health.order| && s.health.order[k] == n &&
        forall j :: 0 <= j < k ==> s.health.order[j] == failed || !IsHealthy(s, s.health.order[j])
  {
    var k := FirstHasIndex(s.health.order, (m: Name) => IsHealthy(s, m) && m != failed);
  }

  /** After any run a failover succeeds when some other pool is healthy, and then the lookup finds a healthy primary
      with a session maker. */
  lemma FailoverFindsAPrimary(es: seq<Event>, s: State, failed: Name)
    requires Leads(EMPTY, es, s)
    ensures Inv(s)
    ensures (exists n :: n != failed && IsHealthy(s, n)) ==> FailoverTarget(s, failed).Some?
    ensures FailoverTarget(s, failed).Some? ==>
      var s' := Next(s, Failover(failed));
      && PrimaryOf(s').Some?
      && IsPrimary(s', PrimaryOf(s').value) && IsHealthy(s', PrimaryOf(s').value) && PrimaryOf(s').value in s'.sessions
  {
    hide Leads;
    InvHolds(EMPTY, es, s);
    if FailoverTarget(s, failed).Some? {
      PromotedIsFound(s, failed);
      NextKeepsInv(s, Failover(failed));
      FirstPrimaryIsPrimaryOf(Next(s, Failover(failed)));
      hide First, Inv, Next, IsPrimary, IsHealthy;
    }
  }

  lemma PromotedIsFound(s: State, failed: Name)
    requires Inv(s) && FailoverTarget(s, failed).Some?
    ensures PrimaryOf(Next(s, Failover(failed))).Some?
  {
    hide First;
    var s' := Next(s, Failover(failed));
    var target := FailoverTarget(s, failed).value;
    assert HealthyPrimary(s')(target) && target in s'.replicas.order;
  }

  /** a was registered before b. */
  predicate Before(order: seq<Name>, a: Name, b: Name) {
    exists i, j :: 0 <= i < j < |order| && order[i] == a && order[j] == b
  }

  /** How letting one more name pass a test changes what is found first. */
  lemma FirstWithOneMore(order: seq<Name>, test: Name -> bool, test': Name -> bool, extra: Name, n: Name)
    requires Distinct(order) && extra in order && n != extra
    requires forall x :: test'(x) <==> test(x) || x == extra
    ensures First(order, test') == Some(n) <==> First(order, test) == Some(n) && Before(order, n, extra)
  {
    if n in order {
      var k: nat :| k < |order| && order[k] == n;
      var t: nat :| t < |order| && order[t] == extra;
      FirstExactly(order, test, k);
      FirstExactly(order, test', k);
      assert Before(order, n, extra) <==> k < t;
    }
  }

  /** The lookup still returns the failed primary exactly when it returned it before, because its health was not yet
      marked, and it was registered before the promoted pool. */
  lemma FailoverReturnsTheFailedPrimary(s: State, failed: Name)
    requires Inv(s) && FailoverTarget(s, failed).Some?
    ensures PrimaryOf(Next(s, Failover(failed))) == Some(failed) <==>
      PrimaryOf(s) == Some(failed) && Before(s.replicas.order, failed, FailoverTarget(s, failed).value)
  {
    hide First;
    var target := FailoverTarget(s, failed).value;
    var s' := Next(s, Failover(failed));
    assert s'.replicas.order == s.replicas.order;
    FirstWithOneMore(s.replicas.order, HealthyPrimary(s), HealthyPrimary(s'), target, failed);
  }

  const PRIMARY_CONFIG: Config := Config(Primary, false, 1.0)
  const REPLICA_CONFIG: Config := Config(Replica, false, 1.0)

  /** Pool "a" is created as the primary and pool "b" as a replica. */
  lemma CreatesTwoPools() returns (es: seq<Event>, s: State)
    ensures Leads(EMPTY, es, s) && Inv(s)
    ensures s.replicas == Dict(["a", "b"], map["a" := PRIMARY_CONFIG, "b" := REPLICA_CONFIG])
    ensures s.health == Dict(["a", "b"], map["a" := Healthy, "b" := Healthy])
  {
    var first, second := CreatePool("a", PRIMARY_CONFIG, true), CreatePool("b", REPLICA_CONFIG, true);
    var s1 := Next(EMPTY, first);
    NextKeepsInv(EMPTY, first);
    s := Next(s1, second);
    NextKeepsInv(s1, second);
    es := [first, second];
    assert es[1..][1..] == [] && Leads(s, [], s);
    assert Leads(s1, es[1..], s);
  }

  /** A run of two pool creations and a failover from "a", whose health was not marked: writes still go to "a". */
  lemma FailoverMayKeepTheFailedPrimary() returns (es: seq<Event>, s: State)
    ensures Leads(EMPTY, es, s) && Inv(s) && FailoverTarget(s, "a") == Some("b")
    ensures PrimaryOf(s) == Some("a") && PrimaryOf(Next(s, Failover("a"))) == Some("a")
  {
    hide First, Leads, Inv, Next;
    es, s := CreatesTwoPools();
    FirstAt(s.health.order, (n: Name) => IsHealthy(s, n) && n != "a", 1);
    FirstAt(s.replicas.order, HealthyPrimary(s), 0);
    assert Before(s.replicas.order, "a", "b");
    FailoverReturnsTheFailedPrimary(s, "a");
  }

  // ----- Weighted choice -----

  /** A pool without a weight of its own counts one. */
  function Weight(weights: map<Name, real>, n: Name): real {
    if n in weights then weights[n] else 1.0
  }

  function Prefix(weights: map<Name, real>, names: seq<Name>, i: nat): real
    requires i <= |names|
  {
    if i == 0 then 0.0 else Prefix(weights, names, i - 1) + Weight(weights, names[i - 1])
  }

  predicate Reached(weights: map<Name, real>, names: seq<Name>, draw: real, i: nat)
    requires i < |names|
  {
    draw <= Prefix(weights, names, i + 1)
  }

  /** The first index from i on whose accumulated weight reaches the draw, or zero when none does. */
  function Reaching(weights: map<Name, real>, names: seq<Name>, draw: real, i: nat): (r: nat)
    requires i <= |names| && names != []
    ensures r < |names|
    decreases |names| - i
  {
    if i == |names| then 0
    else if Reached(weights, names, draw, i) then i
    else Reaching(weights, names, draw, i + 1)
  }

  function Selected(weights: map<Name, real>, names: seq<Name>, draw: real): (r: nat)
    requires names != []
    ensures r < |names|
  {
    Reaching(weights, names, draw, 0)
  }

  lemma {:induction false} ReachingSkips(weights: map<Name, real>, names: seq<Name>, draw: real, from: nat, i: nat)
    requires from <= i <= |names| && names != []
    requires forall j :: from <= j < i ==> !Reached(weights, names, draw, j)
    ensures Reaching(weights, names, draw, from) == Reaching(weights, names, draw, i)
    decreases i - from
  {
    if from < i {
      ReachingSkips(weights, names, draw, from + 1, i);
    }
  }

  ghost predicate NonNegative(weights: map<Name, real>, names: seq<Name>) {
    forall k :: 0 <= k < |names| ==> Weight(weights, names[k]) >= 0.0
  }

  lemma {:induction false} PrefixGrows(weights: map<Name, real>, names: seq<Name>, i: nat, j: nat)
    requires i <= j <= |names| && NonNegative(weights, names)
    ensures Prefix(weights, names, i) <= Prefix(weights, names, j)
    decreases j
  {
    if i < j {
      PrefixGrows(weights, names, i, j - 1);
    }
  }

  /** With weights that are not negative and a positive total, the draws that select a pool are exactly the interval of
      its own weight; only the draw zero, of no measure, falls to the first pool whatever its weight. Some accumulated
      weight always reaches the draw, so the loop never runs out. */
  lemma ShareIsWeight(weights: map<Name, real>, names: seq<Name>, draw: real, i: nat)
    requires NonNegative(weights, names) && i < |names|
    requires 0.0 <= draw <= Prefix(weights, names, |names|) && Prefix(weights, names, |names|) > 0.0
    ensures Selected(weights, names, draw) == i <==>
      Prefix(weights, names, i) < draw <= Prefix(weights, names, i) + Weight(weights, names[i]) ||
      (draw == 0.0 && i == 0)
    ensures Reached(weights, names, draw, Selected(weights, names, draw))
  {
    var k := FirstReached(weights, names, draw, |names|);
    ReachingSkips(weights, names, draw, 0, k);
    PrefixGrows(weights, names, 0, i);
    if i < k {
      assert !Reached(weights, names, draw, i);
    } else if k < i {
      PrefixGrows(weights, names, k + 1, i);
    } else if k > 0 {
      assert !Reached(weights, names, draw, k - 1);
    }
  }

  lemma {:induction false} FirstReached(weights: map<Name, real>, names: seq<Name>, draw: real, bound: nat)
    returns (k: nat)
    requires 0 < bound <= |names| && Reached(weights, names, draw, bound - 1)
    ensures k < bound && Reached(weights, names, draw, k)
    ensures forall j :: 0 <= j < k ==> !Reached(weights, names, draw, j)
  {
    k := bound - 1;
    if j: nat :| j < bound - 1 && Reached(weights, names, draw, j) {
      k := FirstReached(weights, names, draw, j + 1);
    }
  }
}
