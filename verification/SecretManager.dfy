/** The secret manager of backend/core/secret_manager.py: an in-process cache in front of a priority search through
    several providers. A read asks one provider after the other, and others act in between. */
module SecretManager {
  import opened Options
  import OrderedDicts

  type Name = string
  type ReadId = nat
  type Dict = OrderedDicts.Dict<ProviderType, Provider>

  datatype ProviderType = AwsSecretsManager | HashiCorpVault | EnvironmentVariables | File | Redis | EncryptedFile

  /** A provider with what it stores; providers that answer over a network can refuse an update. */
  datatype Provider = Environment(store: map<Name, string>) | Vault(store: map<Name, string>)
    | Aws(store: map<Name, string>)

  function Read(p: Provider, name: Name): Option<string> {
    if name !in p.store || (p.Environment? && p.store[name] == "") then None else Some(p.store[name])
  }

  predicate CanSet(p: Provider, accepts: bool) {
    p.Environment? || accepts
  }

  predicate CanDelete(p: Provider, name: Name, accepts: bool) {
    if p.Environment? then name in p.store else accepts
  }

  /** Only AWS rotates, and only what it stores. */
  predicate CanRotate(p: Provider, name: Name, accepts: bool) {
    p.Aws? && name in p.store && accepts
  }

  /** The key of the latest version of a secret. */
  function CacheKey(name: Name): string {
    "secret:" + name + ":latest"
  }

  lemma CacheKeyInjective(a: Name, b: Name)
    requires CacheKey(a) == CacheKey(b)
    ensures a == b
  {
    var x, y := CacheKey(a), CacheKey(b);
    assert |x| == |a| + 14 && |y| == |b| + 14;
    assert x[7..|x| - 7] == a && y[7..|y| - 7] == b;
  }

  /** A read that found nothing cached: the types it has yet to ask, and the value it was given. */
  datatype Reading = Reading(name: Name, useCache: bool, rest: seq<ProviderType>, found: Option<string>)

  datatype State = State(
    providers: Dict,
    priorities: seq<(int, ProviderType)>,
    cache: map<string, string>,
    readings: map<ReadId, Reading>)

  // ----- Priorities -----

  /** Where a stable descending sort puts a new last entry. */
  function InsertByPriority(ps: seq<(int, ProviderType)>, x: (int, ProviderType)): seq<(int, ProviderType)> {
    if ps == [] then [x]
    else if ps[0].0 >= x.0 then [ps[0]] + InsertByPriority(ps[1..], x)
    else [x] + ps
  }

  predicate Descending(ps: seq<(int, ProviderType)>) {
    forall i, j :: 0 <= i < j < |ps| ==> ps[i].0 >= ps[j].0
  }

  lemma {:induction false} InsertionPoint(ps: seq<(int, ProviderType)>, x: (int, ProviderType)) returns (k: nat)
    requires Descending(ps)
    ensures k <= |ps| && InsertByPriority(ps, x) == ps[..k] + [x] + ps[k..]
    ensures forall i :: 0 <= i < k ==> ps[i].0 >= x.0
    ensures forall i :: k <= i < |ps| ==> ps[i].0 < x.0
    decreases |ps|
  {
    if ps == [] || ps[0].0 < x.0 {
      k := 0;
    } else {
      k := InsertionPoint(ps[1..], x);
      k := k + 1;
      assert ps[k..] == ps[1..][k - 1..];
      assert forall i :: 1 <= i < |ps| ==> ps[i] == ps[1..][i - 1];
    }
  }

  /** The list stays sorted, and the new entry goes behind every entry of the same priority. */
  lemma InsertionIsStable(ps: seq<(int, ProviderType)>, x: (int, ProviderType)) returns (k: nat)
    requires Descending(ps)
    ensures k <= |ps| && InsertByPriority(ps, x) == ps[..k] + [x] + ps[k..]
    ensures forall i :: 0 <= i < k ==> ps[i].0 >= x.0
    ensures forall i :: k <= i < |ps| ==> ps[i].0 < x.0
    ensures Descending(InsertByPriority(ps, x))
  {
    k := InsertionPoint(ps, x);
  }

  // ----- The search -----

  predicate Holds(providers: Dict, t: ProviderType, name: Name) {
    t in providers.entries && Read(providers.entries[t], name).Some?
  }

  /** The uncached search: the value of the first provider, by descending priority, that has one. */
  function Search(providers: Dict, ps: seq<(int, ProviderType)>, name: Name): (r: Option<string>)
    ensures r.None? <==> forall k :: 0 <= k < |ps| ==> !Holds(providers, ps[k].1, name)
    decreases |ps|
  {
    if ps == [] then None
    else if Holds(providers, ps[0].1, name) then Read(providers.entries[ps[0].1], name)
    else
      var r := Search(providers, ps[1..], name);
      assert forall k :: 1 <= k < |ps| ==> ps[k] == ps[1..][k - 1];
      r
  }

  /** The k-th entry decides when it has a value and no earlier entry has one. */
  lemma {:induction false} FirstHolderDecides(providers: Dict, ps: seq<(int, ProviderType)>, name: Name, k: nat)
    requires k < |ps| && Holds(providers, ps[k].1, name)
    requires forall i :: 0 <= i < k ==> !Holds(providers, ps[i].1, name)
    ensures Search(providers, ps, name) == Read(providers.entries[ps[k].1], name)
    decreases |ps|
  {
    if k > 0 {
      FirstHolderDecides(providers, ps[1..], name, k - 1);
    }
  }

  /** The first entry, up to a given one, that has a value. */
  lemma {:induction false} FirstHolder(providers: Dict, ps: seq<(int, ProviderType)>, name: Name, k: nat)
    returns (first: nat)
    requires k < |ps| && Holds(providers, ps[k].1, name)
    ensures first <= k && Holds(providers, ps[first].1, name)
    ensures forall i :: 0 <= i < first ==> !Holds(providers, ps[i].1, name)
  {
    first := k;
    if i :| 0 <= i < k && Holds(providers, ps[i].1, name) {
      first := FirstHolder(providers, ps, name, i);
    }
  }

  function SearchIn(s: State, name: Name): Option<string> {
    Search(s.providers, s.priorities, name)
  }

  /** What get_secret answers, with its cache. */
  function Lookup(s: State, name: Name): Option<string> {
    if CacheKey(name) in s.cache then Some(s.cache[CacheKey(name)]) else SearchIn(s, name)
  }

  // ----- Operations -----

  function Added(s: State, t: ProviderType, p: Provider, priority: int): State
    requires OrderedDicts.Valid(s.providers)
  {
    s.(providers := OrderedDicts.Put(s.providers, t, p), priorities := InsertByPriority(s.priorities, (priority, t)))
  }

  function Types(ps: seq<(int, ProviderType)>): seq<ProviderType> {
    seq(|ps|, k requires 0 <= k < |ps| => ps[k].1)
  }

  function Begun(s: State, x: ReadId, name: Name, useCache: bool): State {
    if useCache && CacheKey(name) in s.cache then s
    else s.(readings := s.readings[x := Reading(name, useCache, Types(s.priorities), None)])
  }

  /** The answer of the next provider. */
  function Asked(s: State, q: Reading): Reading
    requires q.rest != []
  {
    q.(rest := q.rest[1..],
       found := if q.rest[0] in s.providers.entries then Read(s.providers.entries[q.rest[0]], q.name) else None)
  }

  /** The read ends, and caches what it found. */
  function Finished(s: State, x: ReadId): State
    requires x in s.readings
  {
    var q := s.readings[x];
    s.(readings := s.readings - {x},
       cache := if q.useCache && q.found.Some? then s.cache[CacheKey(q.name) := q.found.value] else s.cache)
  }

  /** A provider changed what it stores under a name, and the cached value is dropped. */
  function Updated(s: State, t: ProviderType, p: Provider, name: Name): State
    requires OrderedDicts.Valid(s.providers) && t in s.providers.entries
  {
    s.(providers := OrderedDicts.Put(s.providers, t, p), cache := s.cache - {CacheKey(name)})
  }

  function Stored(p: Provider, name: Name, value: string): Provider {
    p.(store := p.store[name := value])
  }

  function Erased(p: Provider, name: Name): Provider {
    p.(store := p.store - {name})
  }

  /** The first of the types, in order, that satisfies a test. */
  function FirstOf(order: seq<ProviderType>, test: ProviderType -> bool): (r: Option<ProviderType>)
    ensures r.Some? ==> r.value in order && test(r.value)
    ensures r.None? <==> forall k :: 0 <= k < |order| ==> !test(order[k])
    decreases |order|
  {
    if order == [] then None
    else if test(order[0]) then Some(order[0])
    else
      var r := FirstOf(order[1..], test);
      assert forall k :: 1 <= k < |order| ==> order[k] == order[1..][k - 1];
      r
  }

  lemma {:induction false} FirstOfIsFirst(order: seq<ProviderType>, test: ProviderType -> bool, k: nat)
    requires k < |order| && test(order[k]) && forall i :: 0 <= i < k ==> !test(order[i])
    ensures FirstOf(order, test) == Some(order[k])
    decreases |order|
  {
    if k > 0 {
      FirstOfIsFirst(order[1..], test, k - 1);
    }
  }

  function Deletes(s: State, name: Name, accepting: set<ProviderType>): ProviderType -> bool {
    (t: ProviderType) => t in s.providers.entries && CanDelete(s.providers.entries[t], name, t in accepting)
  }

  function Rotates(s: State, name: Name, accepting: set<ProviderType>): ProviderType -> bool {
    (t: ProviderType) => t in s.providers.entries && CanRotate(s.providers.entries[t], name, t in accepting)
  }

  /** The types an update tries: the named one, or all of them in the order they were registered. */
  function Candidates(s: State, target: Option<ProviderType>): seq<ProviderType> {
    match target
    case Some(t) => [t]
    case None => s.providers.order
  }

  datatype Event =
    | AddProvider(t: ProviderType, provider: Provider, priority: int)
    | BeginGet(read: ReadId, name: Name, useCache: bool)
    | AskProvider(read: ReadId)
    | FinishGet(read: ReadId)
    | Set(name: Name, value: string, t: ProviderType, accepts: bool)
    | Delete(name: Name, target: Option<ProviderType>, accepting: set<ProviderType>)
    | Rotate(name: Name, target: Option<ProviderType>, value: string, accepting: set<ProviderType>)
    | ClearCache

  predicate Enabled(s: State, e: Event) {
    match e
    case BeginGet(x, _, _) => x !in s.readings
    case AskProvider(x) => x in s.readings && s.readings[x].found.None? && s.readings[x].rest != []
    case FinishGet(x) => x in s.readings && (s.readings[x].found.Some? || s.readings[x].rest == [])
    case _ => true
  }

  function Next(s: State, e: Event): State
    requires OrderedDicts.Valid(s.providers) && Enabled(s, e)
  {
    match e
    case AddProvider(t, p, priority) => Added(s, t, p, priority)
    case BeginGet(x, name, useCache) => Begun(s, x, name, useCache)
    case AskProvider(x) => s.(readings := s.readings[x := Asked(s, s.readings[x])])
    case FinishGet(x) => Finished(s, x)
    case Set(name, value, t, accepts) =>
      if t in s.providers.entries && CanSet(s.providers.entries[t], accepts)
      then Updated(s, t, Stored(s.providers.entries[t], name, value), name) else s
    case Delete(name, target, accepting) => (
      match FirstOf(Candidates(s, target), Deletes(s, name, accepting))
      case Some(t) => Updated(s, t, Erased(s.providers.entries[t], name), name)
      case None => s
    )
    case Rotate(name, target, value, accepting) => (
      match FirstOf(Candidates(s, target), Rotates(s, name, accepting))
      case Some(t) => Updated(s, t, Stored(s.providers.entries[t], name, value), name)
      case None => s
    )
    case ClearCache => s.(cache := map[])
  }

  /** The providers without type t. */
  function Others(d: Dict, t: ProviderType): Dict {
    d.(entries := d.entries - {t})
  }

  /** The cached value stays the one the search finds when p is registered as type t: p has the same value, or none and
      t did not matter, or another provider with a value ranks before every entry of t. */
  predicate KeepsCached(s: State, t: ProviderType, p: Provider, priority: int, name: Name)
    requires CacheKey(name) in s.cache
  {
    var value := s.cache[CacheKey(name)];
    || Read(p, name) == Some(value)
    || (Read(p, name).None? && Search(Others(s.providers, t), s.priorities, name) == Some(value))
    || OutrankedAt(s, t, priority, name)
  }

  /** Another provider with a value ranks before type t, whose new entry has this priority. */
  predicate OutrankedAt(s: State, t: ProviderType, priority: int, name: Name) {
    exists k :: 0 <= k < |s.priorities| && Outranks(s, t, priority, name, k)
  }

  predicate Outranks(s: State, t: ProviderType, priority: int, name: Name, k: int)
    requires 0 <= k < |s.priorities|
  {
    && Holds(Others(s.providers, t), s.priorities[k].1, name)
    && s.priorities[k].0 >= priority
    && forall j :: 0 <= j < k ==> s.priorities[j].1 != t
  }

  /** A registration must keep every cached value current, and what a read caches must be what the search still
      finds. */
  ghost predicate Harmless(s: State, e: Event) {
    match e
    case AddProvider(t, p, priority) =>
      forall name :: CacheKey(name) in s.cache ==> KeepsCached(s, t, p, priority, name)
    case FinishGet(x) =>
      x in s.readings && s.readings[x].useCache && s.readings[x].found.Some? ==>
        SearchIn(s, s.readings[x].name) == s.readings[x].found
    case _ => true
  }

  class Manager {
    var providers: Dict
    var priorities: seq<(int, ProviderType)>
    var cache: map<string, string>
    var pendingReads: map<ReadId, Reading>

    constructor ()
      ensures View() == EMPTY
    {
      providers, priorities, cache, pendingReads := OrderedDicts.Dict([], map[]), [], map[], map[];
    }

    function View(): State
      reads this
    {
      State(providers, priorities, cache, pendingReads)
    }

    /** Any step, whoever takes it. */
    method Take(e: Event)
      requires OrderedDicts.Valid(providers) && Enabled(View(), e)
      modifies this
      ensures View() == Next(old(View()), e)
    {
      var s := Next(View(), e);
      providers, priorities, cache, pendingReads := s.providers, s.priorities, s.cache, s.readings;
    }

    method RegisterProvider(t: ProviderType, p: Provider, priority: int)
      requires OrderedDicts.Valid(providers)
      modifies this
      ensures View() == Next(old(View()), AddProvider(t, p, priority))
    {
      providers := OrderedDicts.Put(providers, t, p);
      priorities := InsertByPriority(priorities, (priority, t));
    }

    /** get_secret up to the first provider: the cached value ends it. */
    method StartGet(x: ReadId, name: Name, useCache: bool) returns (cached: Option<string>)
      requires OrderedDicts.Valid(providers) && x !in pendingReads
      modifies this`pendingReads
      ensures View() == Next(old(View()), BeginGet(x, name, useCache))
      ensures cached.Some? ==> useCache && cached == Lookup(View(), name) && View() == old(View())
      ensures cached.None? ==> pendingReads == old(pendingReads)[x := Reading(name, useCache, Types(priorities), None)]
      ensures cached.None? ==> !useCache || CacheKey(name) !in cache
    {
      if useCache && CacheKey(name) in cache {
        return Some(cache[CacheKey(name)]);
      }
      pendingReads := pendingReads[x := Reading(name, useCache, Types(priorities), None)];
      return None;
    }

    method AskProvider(x: ReadId) returns (found: Option<string>)
      requires OrderedDicts.Valid(providers) && Enabled(View(), Event.AskProvider(x))
      modifies this`pendingReads
      ensures View() == Next(old(View()), Event.AskProvider(x))
      ensures x in pendingReads && pendingReads[x].found == found
    {
      var q := pendingReads[x];
      var t := q.rest[0];
      found := if t in providers.entries then Read(providers.entries[t], q.name) else None;
      pendingReads := pendingReads[x := q.(rest := q.rest[1..], found := found)];
    }

    method FinishGet(x: ReadId) returns (value: Option<string>)
      requires OrderedDicts.Valid(providers) && Enabled(View(), Event.FinishGet(x))
      modifies this`pendingReads, this`cache
      ensures View() == Next(old(View()), Event.FinishGet(x))
      ensures value == old(pendingReads[x].found)
    {
      var q := pendingReads[x];
      value := q.found;
      if q.useCache && value.Some? {
        cache := cache[CacheKey(q.name) := value.value];
      }
      pendingReads := pendingReads - {x};
    }

    method SetSecret(name: Name, value: string, t: ProviderType, accepts: bool) returns (success: bool)
      requires OrderedDicts.Valid(providers)
      modifies this`providers, this`cache
      ensures View() == Next(old(View()), Set(name, value, t, accepts))
      ensures success ==> t in providers.entries && CanSet(old(providers).entries[t], accepts)
      ensures !success ==> View() == old(View())
    {
      if t !in providers.entries {
        return false;
      }
      success := CanSet(providers.entries[t], accepts);
      if success {
        providers := OrderedDicts.Put(providers, t, Stored(providers.entries[t], name, value));
        cache := cache - {CacheKey(name)};
      }
    }

    /** Asks the types in turn, stopping at the first that deletes the secret. */
    method DeleteSecret(name: Name, target: Option<ProviderType>, accepting: set<ProviderType>) returns (success: bool)
      requires OrderedDicts.Valid(providers)
      modifies this`providers, this`cache
      ensures View() == Next(old(View()), Delete(name, target, accepting))
      ensures success <==> FirstOf(Candidates(old(View()), target), Deletes(old(View()), name, accepting)).Some?
    {
      hide FirstOf, CacheKey, OrderedDicts.Put;
      var types := if target.Some? then [target.value] else providers.order;
      ghost var test := Deletes(View(), name, accepting);
      for k := 0 to |types|
        invariant View() == old(View())
        invariant forall i :: 0 <= i < k ==> !test(types[i])
      {
        var t := types[k];
        if t in providers.entries && CanDelete(providers.entries[t], name, t in accepting) {
          FirstOfIsFirst(types, test, k);
          providers := OrderedDicts.Put(providers, t, Erased(providers.entries[t], name));
          cache := cache - {CacheKey(name)};
          return true;
        }
      }
      return false;
    }

    method RotateSecret(name: Name, target: Option<ProviderType>, value: string, accepting: set<ProviderType>)
      returns (success: bool)
      requires OrderedDicts.Valid(providers)
      modifies this`providers, this`cache
      ensures View() == Next(old(View()), Rotate(name, target, value, accepting))
      ensures success <==> FirstOf(Candidates(old(View()), target), Rotates(old(View()), name, accepting)).Some?
    {
      hide FirstOf, CacheKey, OrderedDicts.Put;
      var types := if target.Some? then [target.value] else providers.order;
      ghost var test := Rotates(View(), name, accepting);
      for k := 0 to |types|
        invariant View() == old(View())
        invariant forall i :: 0 <= i < k ==> !test(types[i])
      {
        var t := types[k];
        if t in providers.entries && CanRotate(providers.entries[t], name, t in accepting) {
          FirstOfIsFirst(types, test, k);
          providers := OrderedDicts.Put(providers, t, Stored(providers.entries[t], name, value));
          cache := cache - {CacheKey(name)};
          return true;
        }
      }
      return false;
    }

    method ClearSecrets()
      requires OrderedDicts.Valid(providers)
      modifies this`cache
      ensures View() == Next(old(View()), Event.ClearCache)
    {
      cache := map[];
    }
  }

  // ----- Coherence -----

  /** Every cached value is the one the search would find. */
  ghost predicate Coherent(s: State) {
    && OrderedDicts.Valid(s.providers)
    && Descending(s.priorities)
    && (forall k :: 0 <= k < |s.priorities| ==> s.priorities[k].1 in s.providers.entries)
    && (forall name {:trigger CacheKey(name)} :: CacheKey(name) in s.cache ==>
        SearchIn(s, name) == Some(s.cache[CacheKey(name)]))
  }

  /** The search depends only on what the listed providers answer for the name. */
  lemma {:induction false} SearchAgrees(d: Dict, d': Dict, ps: seq<(int, ProviderType)>, name: Name)
    requires forall k :: 0 <= k < |ps| ==> ps[k].1 in d.entries && ps[k].1 in d'.entries
    requires forall k :: 0 <= k < |ps| ==> Read(d.entries[ps[k].1], name) == Read(d'.entries[ps[k].1], name)
    ensures Search(d, ps, name) == Search(d', ps, name)
    decreases |ps|
  {
    if ps != [] {
      SearchAgrees(d, d', ps[1..], name);
    }
  }

  lemma UpdateKeepsCoherence(s: State, t: ProviderType, p: Provider, name: Name)
    requires Coherent(s) && t in s.providers.entries
    requires forall other :: other != name ==> Read(p, other) == Read(s.providers.entries[t], other)
    ensures Coherent(Updated(s, t, p, name))
  {
    var s' := Updated(s, t, p, name);
    forall other {:trigger CacheKey(other)} | CacheKey(other) in s'.cache
      ensures SearchIn(s', other) == Some(s'.cache[CacheKey(other)])
    {
      assert other != name;
      SearchAgrees(s.providers, s'.providers, s.priorities, other);
    }
  }

  /** A new entry whose provider has no value changes nothing. */
  lemma {:induction false} SearchIgnoresEmpty(d: Dict, ps: seq<(int, ProviderType)>, x: (int, ProviderType), name: Name)
    requires !Holds(d, x.1, name)
    ensures Search(d, InsertByPriority(ps, x), name) == Search(d, ps, name)
    decreases |ps|
  {
    var r := InsertByPriority(ps, x);
    if ps == [] || ps[0].0 < x.0 {
      assert r[1..] == ps;
    } else {
      assert r[1..] == InsertByPriority(ps[1..], x);
      SearchIgnoresEmpty(d, ps[1..], x, name);
    }
  }

  /** A type without a value may as well be missing. */
  lemma {:induction false} SearchWithout(d: Dict, t: ProviderType, ps: seq<(int, ProviderType)>, name: Name)
    requires !Holds(d, t, name)
    ensures Search(d, ps, name) == Search(Others(d, t), ps, name)
    decreases |ps|
  {
    if ps != [] {
      SearchWithout(d, t, ps[1..], name);
    }
  }

  lemma AddedWithoutValue(s: State, t: ProviderType, p: Provider, priority: int, name: Name)
    requires Coherent(s) && Read(p, name).None?
    ensures SearchIn(Added(s, t, p, priority), name) == Search(Others(s.providers, t), s.priorities, name)
  {
    var d := Added(s, t, p, priority).providers;
    SearchIgnoresEmpty(d, s.priorities, (priority, t), name);
    SearchWithout(d, t, s.priorities, name);
    assert Others(d, t).entries == Others(s.providers, t).entries;
    SearchReadsEntries(Others(d, t), Others(s.providers, t), s.priorities, name);
  }

  lemma {:induction false} SearchReadsEntries(d: Dict, d': Dict, ps: seq<(int, ProviderType)>, name: Name)
    requires d.entries == d'.entries
    ensures Search(d, ps, name) == Search(d', ps, name)
    decreases |ps|
  {
    if ps != [] {
      SearchReadsEntries(d, d', ps[1..], name);
    }
  }

  lemma AddedKeepsOtherType(s: State, t: ProviderType, p: Provider, priority: int, x: ProviderType, name: Name)
    requires OrderedDicts.Valid(s.providers) && x != t
    ensures var d := Added(s, t, p, priority).providers;
      && (Holds(d, x, name) <==> Holds(s.providers, x, name))
      && (Holds(Others(s.providers, t), x, name) <==> Holds(s.providers, x, name))
      && (Holds(d, x, name) ==> d.entries[x] == s.providers.entries[x])
  {
    assert Added(s, t, p, priority).providers.entries == s.providers.entries[t := p];
    hide InsertByPriority, Read;
  }

  lemma AddedKeepsOtherTypes(s: State, t: ProviderType, p: Provider, priority: int, name: Name)
    requires OrderedDicts.Valid(s.providers)
    ensures var d := Added(s, t, p, priority).providers;
      forall x: ProviderType {:trigger Holds(d, x, name)} :: x != t ==>
        && (Holds(d, x, name) <==> Holds(s.providers, x, name))
        && (Holds(Others(s.providers, t), x, name) <==> Holds(s.providers, x, name))
        && (Holds(d, x, name) ==> d.entries[x] == s.providers.entries[x])
  {
    var d := Added(s, t, p, priority).providers;
    forall x: ProviderType {:trigger Holds(d, x, name)} | x != t
      ensures Holds(d, x, name) <==> Holds(s.providers, x, name)
      ensures Holds(Others(s.providers, t), x, name) <==> Holds(s.providers, x, name)
      ensures Holds(d, x, name) ==> x in d.entries && x in s.providers.entries
      ensures Holds(d, x, name) ==> d.entries[x] == s.providers.entries[x]
    {
      AddedKeepsOtherType(s, t, p, priority, x, name);
    }
  }

  /** What ranks before every entry of t decides as before. */
  lemma AddedBelow(s: State, t: ProviderType, p: Provider, priority: int, name: Name)
    requires Coherent(s) && OutrankedAt(s, t, priority, name)
    ensures SearchIn(Added(s, t, p, priority), name) == SearchIn(s, name)
  {
    hide Search, InsertByPriority, Read;
    var ps, d := s.priorities, Added(s, t, p, priority).providers;
    AddedKeepsOtherTypes(s, t, p, priority, name);
    var k: nat :| k < |ps| && Outranks(s, t, priority, name, k);
    var first := FirstHolder(Others(s.providers, t), ps, name, k);
    var at := InsertionIsStable(ps, (priority, t));
    var ps' := InsertByPriority(ps, (priority, t));
    assert ps[first].0 >= priority && first < at;
    hide Holds, OrderedDicts.Put, OrderedDicts.Valid;
    assert forall j :: 0 <= j <= first ==> ps'[j] == ps[j] && ps[j].1 != t;
    assert forall j :: 0 <= j <= first ==> (Holds(d, ps[j].1, name) <==> Holds(s.providers, ps[j].1, name));
    FirstHolderDecides(s.providers, ps, name, first);
    FirstHolderDecides(d, ps', name, first);
  }

  /** Otherwise the new provider's value decides. */
  lemma AddedDecides(s: State, t: ProviderType, p: Provider, priority: int, name: Name)
    requires Coherent(s) && Read(p, name).Some? && !OutrankedAt(s, t, priority, name)
    ensures SearchIn(Added(s, t, p, priority), name) == Read(p, name)
  {
    var ps, d := s.priorities, Added(s, t, p, priority).providers;
    var at := InsertionIsStable(ps, (priority, t));
    var ps' := InsertByPriority(ps, (priority, t));
    assert ps'[at].1 == t;
    var first := FirstHolder(d, ps', name, at);
    if ps'[first].1 != t {
      assert ps'[first] == ps[first] && forall j :: 0 <= j < first ==> ps'[j] == ps[j] && ps[j].1 != t;
      assert Outranks(s, t, priority, name, first);
    }
    FirstHolderDecides(d, ps', name, first);
  }

  /** Exactly when a registration, late or not, leaves a cached read current. */
  lemma RegistrationKeepsExactly(s: State, t: ProviderType, p: Provider, priority: int, name: Name)
    requires Coherent(s) && CacheKey(name) in s.cache
    ensures var s' := Added(s, t, p, priority);
      Lookup(s', name) == SearchIn(s', name) <==> KeepsCached(s, t, p, priority, name)
  {
    hide Search, Added, OutrankedAt;
    assert CacheKey(name) in Added(s, t, p, priority).cache by {
      AddedKeepsCache(s, t, p, priority);
    }
    AddedKeepsCache(s, t, p, priority);
    if OutrankedAt(s, t, priority, name) {
      AddedBelow(s, t, p, priority, name);
    } else if Read(p, name).Some? {
      AddedDecides(s, t, p, priority, name);
    } else {
      AddedWithoutValue(s, t, p, priority, name);
    }
  }

  lemma AddedKeepsCache(s: State, t: ProviderType, p: Provider, priority: int)
    requires OrderedDicts.Valid(s.providers)
    ensures Added(s, t, p, priority).cache == s.cache
  {
  }

  /** For a type not seen before: the cached read goes stale exactly when the new provider has another value and no
      provider of its priority or above has any. */
  lemma LateRegistrationStalesExactly(s: State, t: ProviderType, p: Provider, priority: int, name: Name)
    requires Coherent(s) && CacheKey(name) in s.cache && t !in s.providers.entries
    ensures var s' := Added(s, t, p, priority);
      Lookup(s', name) != SearchIn(s', name) <==>
        && Read(p, name).Some? && Read(p, name) != Some(s.cache[CacheKey(name)])
        && forall k :: 0 <= k < |s.priorities| && s.priorities[k].0 >= priority ==>
          !Holds(s.providers, s.priorities[k].1, name)
  {
    RegistrationKeepsExactly(s, t, p, priority, name);
    assert Others(s.providers, t).entries == s.providers.entries;
    SearchReadsEntries(Others(s.providers, t), s.providers, s.priorities, name);
    if k: nat :| k < |s.priorities| && s.priorities[k].0 >= priority && Holds(s.providers, s.priorities[k].1, name) {
      assert Outranks(s, t, priority, name, k);
    }
  }

  lemma AddKeepsCoherence(s: State, t: ProviderType, p: Provider, priority: int)
    requires Coherent(s)
    ensures Coherent(Added(s, t, p, priority)) <==> Harmless(s, AddProvider(t, p, priority))
  {
    var s' := Added(s, t, p, priority);
    var x := (priority, t);
    var k := InsertionIsStable(s.priorities, x);
    forall i | 0 <= i < |s'.priorities| ensures s'.priorities[i].1 in s'.providers.entries {
      assert s'.priorities[i] == if i < k then s.priorities[i] else if i == k then x else s.priorities[i - 1];
    }
    hide Search, InsertByPriority, KeepsCached;
    forall name {:trigger CacheKey(name)} | CacheKey(name) in s.cache
      ensures SearchIn(s', name) == Some(s'.cache[CacheKey(name)]) <==> KeepsCached(s, t, p, priority, name)
    {
      RegistrationKeepsExactly(s, t, p, priority, name);
    }
  }

  /** What a read caches is current exactly when the search still finds it. */
  lemma FinishKeepsExactly(s: State, x: ReadId)
    requires Coherent(s) && x in s.readings
    ensures Coherent(Finished(s, x)) <==> Harmless(s, FinishGet(x))
  {
    hide Search;
    var q, s' := s.readings[x], Finished(s, x);
    forall name {:trigger CacheKey(name)} | CacheKey(name) == CacheKey(q.name) ensures name == q.name {
      CacheKeyInjective(name, q.name);
    }
    assert SearchIn(s', q.name) == SearchIn(s, q.name);
    assert q.useCache && q.found.Some? ==> CacheKey(q.name) in s'.cache && s'.cache[CacheKey(q.name)] == q.found.value;
    hide CacheKey;
  }

  /** Exactly the harmless steps keep every cached value current. */
  lemma NextKeepsExactly(s: State, e: Event)
    requires Coherent(s) && Enabled(s, e)
    ensures Coherent(Next(s, e)) <==> Harmless(s, e)
  {
    hide Search, FirstOf, InsertByPriority, OrderedDicts.Put;
    match e
    case AddProvider(t, p, priority) => AddKeepsCoherence(s, t, p, priority);
    case BeginGet(_, _, _) =>
    case AskProvider(_) =>
    case FinishGet(x) => FinishKeepsExactly(s, x);
    case Set(name, value, t, accepts) =>
      if t in s.providers.entries {
        UpdateKeepsCoherence(s, t, Stored(s.providers.entries[t], name, value), name);
      }
    case Delete(name, target, accepting) =>
      var found := FirstOf(Candidates(s, target), Deletes(s, name, accepting));
      if found.Some? {
        UpdateKeepsCoherence(s, found.value, Erased(s.providers.entries[found.value], name), name);
      }
    case Rotate(name, target, value, accepting) =>
      var found := FirstOf(Candidates(s, target), Rotates(s, name, accepting));
      if found.Some? {
        UpdateKeepsCoherence(s, found.value, Stored(s.providers.entries[found.value], name, value), name);
      }
    case ClearCache =>
  }

  ghost predicate Leads(s: State, es: seq<Event>, s': State)
    decreases |es|
  {
    if es == [] then s == s'
    else OrderedDicts.Valid(s.providers) && Enabled(s, es[0]) && Leads(Next(s, es[0]), es[1..], s')
  }

  /** As Leads, every step being harmless. */
  ghost predicate LeadsHarmlessly(s: State, es: seq<Event>, s': State)
    decreases |es|
  {
    if es == [] then s == s'
    else
      OrderedDicts.Valid(s.providers) && Enabled(s, es[0]) && Harmless(s, es[0]) &&
      LeadsHarmlessly(Next(s, es[0]), es[1..], s')
  }

  const EMPTY := State(OrderedDicts.Dict([], map[]), [], map[], map[])

  lemma {:induction false} CoherenceHolds(s: State, es: seq<Event>, s': State)
    requires Coherent(s) && LeadsHarmlessly(s, es, s')
    ensures Coherent(s')
    decreases |es|
  {
    if es != [] {
      NextKeepsExactly(s, es[0]);
      CoherenceHolds(Next(s, es[0]), es[1..], s');
    }
  }

  /** Over every run of harmless steps, a cached read is the uncached priority search. */
  lemma CachedReadsAreFresh(es: seq<Event>, s: State, name: Name)
    requires LeadsHarmlessly(EMPTY, es, s)
    ensures Lookup(s, name) == SearchIn(s, name)
  {
    CoherenceHolds(EMPTY, es, s);
  }

  /** After an accepted set, a read gives the new value, unless a provider of better rank answers: then it gives what
      it would have given before. */
  lemma SetIsReadBack(es: seq<Event>, s: State, name: Name, value: string, accepts: bool, k: nat)
    requires LeadsHarmlessly(EMPTY, es, s) && k < |s.priorities|
    requires forall i :: 0 <= i < k ==> s.priorities[i].1 != s.priorities[k].1
    requires OrderedDicts.Valid(s.providers)
    requires s.priorities[k].1 in s.providers.entries && CanSet(s.providers.entries[s.priorities[k].1], accepts)
    requires s.providers.entries[s.priorities[k].1].Environment? ==> value != ""
    ensures Lookup(Next(s, Set(name, value, s.priorities[k].1, accepts)), name) ==
      if exists i :: 0 <= i < k && Holds(s.providers, s.priorities[i].1, name) then Lookup(s, name) else Some(value)
  {
    CoherenceHolds(EMPTY, es, s);
    var ps := s.priorities;
    var s' := Next(s, Set(name, value, ps[k].1, accepts));
    assert forall i :: 0 <= i < k ==> (Holds(s'.providers, ps[i].1, name) <==> Holds(s.providers, ps[i].1, name));
    if i :| 0 <= i < k && Holds(s.providers, ps[i].1, name) {
      var first := FirstHolder(s.providers, ps, name, i);
      FirstHolderDecides(s.providers, ps, name, first);
      FirstHolderDecides(s'.providers, ps, name, first);
    } else {
      FirstHolderDecides(s'.providers, ps, name, k);
    }
  }

  /** Setting a variable of the environment to the empty string unsets it: a read goes on to the other providers. */
  lemma SettingEmptyUnsets(es: seq<Event>, s: State, name: Name, t: ProviderType, accepts: bool)
    requires LeadsHarmlessly(EMPTY, es, s) && OrderedDicts.Valid(s.providers)
    requires t in s.providers.entries && s.providers.entries[t].Environment?
    ensures Lookup(Next(s, Set(name, "", t, accepts)), name) == Search(Others(s.providers, t), s.priorities, name)
  {
    CoherenceHolds(EMPTY, es, s);
    var d := Next(s, Set(name, "", t, accepts)).providers;
    SearchWithout(d, t, s.priorities, name);
    assert Others(d, t).entries == Others(s.providers, t).entries;
    SearchReadsEntries(Others(d, t), Others(s.providers, t), s.priorities, name);
  }

  /** Provider t alone changed, and only what it stores under a name; of the cache that name's value alone is
      dropped. */
  ghost predicate OnlyTouches(s: State, s': State, t: ProviderType, name: Name) {
    && t in s.providers.entries && s'.providers.entries.Keys == s.providers.entries.Keys
    && (forall u :: u in s.providers.entries && u != t ==> s'.providers.entries[u] == s.providers.entries[u])
    && (forall n :: n != name ==> Read(s'.providers.entries[t], n) == Read(s.providers.entries[t], n))
    && s'.providers.order == s.providers.order && s'.priorities == s.priorities && s'.readings == s.readings
    && (forall key :: key in s'.cache <==> key in s.cache && key != CacheKey(name))
    && (forall key :: key in s'.cache ==> s'.cache[key] == s.cache[key])
  }

  lemma UpdatedTouches(s: State, t: ProviderType, p: Provider, name: Name)
    requires OrderedDicts.Valid(s.providers) && t in s.providers.entries
    requires forall n :: n != name ==> Read(p, n) == Read(s.providers.entries[t], n)
    ensures var s' := Updated(s, t, p, name); OnlyTouches(s, s', t, name) && s'.providers.entries[t] == p
  {
    hide CacheKey, Read;
  }

  /** A deletion that succeeds takes the secret from one provider and touches nothing else. */
  lemma DeletedIsGone(s: State, name: Name, target: Option<ProviderType>, accepting: set<ProviderType>)
    requires OrderedDicts.Valid(s.providers)
    ensures var s' := Next(s, Delete(name, target, accepting));
      match FirstOf(Candidates(s, target), Deletes(s, name, accepting))
      case Some(t) =>
        && OnlyTouches(s, s', t, name) && name !in s'.providers.entries[t].store
        && (if s.providers.entries[t].Environment? then name in s.providers.entries[t].store else t in accepting)
      case None =>
        && s' == s
        && forall k :: 0 <= k < |Candidates(s, target)| && Candidates(s, target)[k] in s.providers.entries ==>
          var t := Candidates(s, target)[k];
          if s.providers.entries[t].Environment? then name !in s.providers.entries[t].store else t !in accepting
  {
    hide FirstOf, CacheKey, Updated, OnlyTouches;
    var found := FirstOf(Candidates(s, target), Deletes(s, name, accepting));
    if found.Some? {
      UpdatedTouches(s, found.value, Erased(s.providers.entries[found.value], name), name);
    }
  }

  /** A rotation that succeeds leaves its value in one AWS provider and touches nothing else. */
  lemma RotatedIsStored(s: State, name: Name, target: Option<ProviderType>, value: string,
                        accepting: set<ProviderType>)
    requires OrderedDicts.Valid(s.providers)
    ensures var s' := Next(s, Rotate(name, target, value, accepting));
      match FirstOf(Candidates(s, target), Rotates(s, name, accepting))
      case Some(t) =>
        && OnlyTouches(s, s', t, name)
        && s.providers.entries[t].Aws? && name in s.providers.entries[t].store && t in accepting
        && Read(s'.providers.entries[t], name) == Some(value)
      case None =>
        && s' == s
        && forall k :: 0 <= k < |Candidates(s, target)| && Candidates(s, target)[k] in s.providers.entries ==>
          var t := Candidates(s, target)[k];
          !s.providers.entries[t].Aws? || name !in s.providers.entries[t].store || t !in accepting
  {
    hide FirstOf, CacheKey, Updated, OnlyTouches;
    var found := FirstOf(Candidates(s, target), Rotates(s, name, accepting));
    if found.Some? {
      UpdatedTouches(s, found.value, Stored(s.providers.entries[found.value], name, value), name);
    }
  }

  lemma HarmlessFirst(s: State, e: Event, es: seq<Event>, s': State) returns (all: seq<Event>)
    requires OrderedDicts.Valid(s.providers) && Enabled(s, e) && Harmless(s, e) && LeadsHarmlessly(Next(s, e), es, s')
    ensures LeadsHarmlessly(s, all, s')
  {
    hide Next, Enabled, Harmless;
    all := [e] + es;
    assert all[1..] == es;
  }

  const ENVIRONMENT: Provider := Environment(map["db" := "old"])

  /** Only the environment is registered. */
  function WithEnvironment(cache: map<string, string>, readings: map<ReadId, Reading>): State {
    State(OrderedDicts.Dict([EnvironmentVariables], map[EnvironmentVariables := ENVIRONMENT]),
          [(0, EnvironmentVariables)], cache, readings)
  }

  lemma EnvironmentIsSearched(cache: map<string, string>, readings: map<ReadId, Reading>)
    ensures SearchIn(WithEnvironment(cache, readings), "db") == Some("old")
  {
    FirstHolderDecides(WithEnvironment(cache, readings).providers, [(0, EnvironmentVariables)], "db", 0);
  }

  /** Read 0 has been given the old value and not yet cached it. */
  const HALFWAY: State := WithEnvironment(map[], map[0 := Reading("db", true, [], Some("old"))])

  lemma ReadsHalfway(es: seq<Event>, s: State) returns (all: seq<Event>)
    requires LeadsHarmlessly(HALFWAY, es, s)
    ensures LeadsHarmlessly(EMPTY, all, s)
  {
    hide LeadsHarmlessly;
    var first := AddProvider(EnvironmentVariables, ENVIRONMENT, 0);
    var s1 := WithEnvironment(map[], map[]);
    assert Next(EMPTY, first) == s1;
    var s2 := WithEnvironment(map[], map[0 := Reading("db", true, [EnvironmentVariables], None)]);
    assert Types(s1.priorities) == [EnvironmentVariables];
    assert Next(s1, BeginGet(0, "db", true)) == s2;
    assert [EnvironmentVariables][1..] == [] && Next(s2, Event.AskProvider(0)) == HALFWAY;
    all := HarmlessFirst(s2, Event.AskProvider(0), es, s);
    all := HarmlessFirst(s1, BeginGet(0, "db", true), all, s);
    all := HarmlessFirst(EMPTY, first, all, s);
  }

  /** One provider is registered and read through the cache. */
  lemma RegistersAndReads() returns (es: seq<Event>, s: State)
    ensures LeadsHarmlessly(EMPTY, es, s) && Coherent(s)
    ensures s == WithEnvironment(map[CacheKey("db") := "old"], map[])
  {
    hide CacheKey, Search;
    s := WithEnvironment(map[CacheKey("db") := "old"], map[]);
    assert LeadsHarmlessly(s, [], s);
    EnvironmentIsSearched(HALFWAY.cache, HALFWAY.readings);
    assert Next(HALFWAY, Event.FinishGet(0)) == s;
    es := HarmlessFirst(HALFWAY, Event.FinishGet(0), [], s);
    es := ReadsHalfway(es, s);
    CoherenceHolds(EMPTY, es, s);
  }

  /** A run after which registering one more provider makes a cached read stale. */
  lemma LateRegistrationStalesTheCache() returns (es: seq<Event>, s: State, add: Event, name: Name)
    ensures LeadsHarmlessly(EMPTY, es, s) && add.AddProvider? && OrderedDicts.Valid(s.providers) && !Harmless(s, add)
    ensures Lookup(Next(s, add), name) == Some("old") && SearchIn(Next(s, add), name) == Some("new")
  {
    hide LeadsHarmlessly, Search, CacheKey, InsertByPriority;
    name := "db";
    var vault := Vault(map[name := "new"]);
    es, s := RegistersAndReads();
    add := AddProvider(HashiCorpVault, vault, 5);
    LateRegistrationStalesExactly(s, HashiCorpVault, vault, 5, name);
    RegistrationKeepsExactly(s, HashiCorpVault, vault, 5, name);
    hide Coherent;
    assert !OutrankedAt(s, HashiCorpVault, 5, name);
    AddedDecides(s, HashiCorpVault, vault, 5, name);
  }

  /** A secret is set between a read's answer and its caching of it: the old value is cached after all. */
  lemma SetDuringReadStalesTheCache() returns (es: seq<Event>, s: State)
    ensures LeadsHarmlessly(EMPTY, es, s) && OrderedDicts.Valid(s.providers)
    ensures Enabled(s, Event.FinishGet(0)) && !Harmless(s, Event.FinishGet(0))
    ensures var s' := Next(s, Event.FinishGet(0)); Lookup(s', "db") == Some("old") && SearchIn(s', "db") == Some("new")
  {
    hide Search;
    var change := Set("db", "new", EnvironmentVariables, true);
    s := Next(HALFWAY, change);
    assert LeadsHarmlessly(s, [], s);
    es := HarmlessFirst(HALFWAY, change, [], s);
    es := ReadsHalfway(es, s);
    FirstHolderDecides(s.providers, s.priorities, "db", 0);
    FirstHolderDecides(Next(s, Event.FinishGet(0)).providers, s.priorities, "db", 0);
  }

  // ----- Reads nobody disturbs -----

  /** The event changes what a provider answers, or who is asked. */
  predicate ChangesProviders(e: Event) {
    e.AddProvider? || e.Set? || e.Delete? || e.Rotate?
  }

  /** Read x has come as far as the search would have: it was given what the search finds, or nobody asked so far has
      the secret. */
  ghost predicate OnTrack(s: State, x: ReadId) {
    x in s.readings &&
    var q := s.readings[x];
    if q.found.Some? then SearchIn(s, q.name) == q.found
    else
      exists k: nat :: k <= |s.priorities| && q.rest == Types(s.priorities[k..]) &&
        forall i :: 0 <= i < k ==> !Holds(s.providers, s.priorities[i].1, q.name)
  }

  lemma BeginsOnTrack(s: State, x: ReadId, name: Name, useCache: bool)
    requires !useCache || CacheKey(name) !in s.cache
    ensures OnTrack(Begun(s, x, name, useCache), x)
  {
    assert s.priorities[0..] == s.priorities;
  }

  lemma AskKeepsOnTrack(s: State, x: ReadId)
    requires OnTrack(s, x) && Enabled(s, Event.AskProvider(x))
    ensures OnTrack(s.(readings := s.readings[x := Asked(s, s.readings[x])]), x)
  {
    var q := s.readings[x];
    var k: nat :| k <= |s.priorities| && q.rest == Types(s.priorities[k..]) &&
      forall i :: 0 <= i < k ==> !Holds(s.providers, s.priorities[i].1, q.name);
    assert k < |s.priorities| && q.rest[0] == s.priorities[k].1;
    if Holds(s.providers, q.rest[0], q.name) {
      FirstHolderDecides(s.providers, s.priorities, q.name, k);
    } else {
      assert q.rest[1..] == Types(s.priorities[k + 1..]);
    }
  }

  lemma QuietKeepsOnTrack(s: State, e: Event, x: ReadId)
    requires OrderedDicts.Valid(s.providers) && Enabled(s, e) && OnTrack(s, x) && !ChangesProviders(e)
    requires e != FinishGet(x)
    ensures OnTrack(Next(s, e), x) && Next(s, e).readings[x].name == s.readings[x].name
    ensures SearchIn(Next(s, e), s.readings[x].name) == SearchIn(s, s.readings[x].name)
  {
    if e == Event.AskProvider(x) {
      AskKeepsOnTrack(s, x);
    }
    hide Search;
  }

  lemma {:induction false} QuietReadsStayOnTrack(s: State, es: seq<Event>, s': State, x: ReadId)
    requires Leads(s, es, s') && OnTrack(s, x)
    requires forall e :: e in es ==> !ChangesProviders(e) && e != FinishGet(x)
    ensures OnTrack(s', x) && s'.readings[x].name == s.readings[x].name
    ensures SearchIn(s', s.readings[x].name) == SearchIn(s, s.readings[x].name)
    decreases |es|
  {
    hide Next, Enabled, Search;
    if es != [] {
      assert es[0] in es && forall e :: e in es[1..] ==> e in es;
      QuietKeepsOnTrack(s, es[0], x);
      QuietReadsStayOnTrack(Next(s, es[0]), es[1..], s', x);
    }
  }

  /** A read on its track that has come to its end was given what the search finds. */
  lemma EndsWithTheSearch(s: State, x: ReadId)
    requires OnTrack(s, x) && Enabled(s, Event.FinishGet(x))
    ensures s.readings[x].found == SearchIn(s, s.readings[x].name)
  {
    var q := s.readings[x];
    if q.found.None? {
      var k: nat :| k <= |s.priorities| && q.rest == Types(s.priorities[k..]) &&
        forall i :: 0 <= i < k ==> !Holds(s.providers, s.priorities[i].1, q.name);
      assert |q.rest| == |s.priorities| - k;
    }
  }

  /** When no provider changes between the beginning and the end of a read, it gives what the search found in the
      beginning and still finds, and its caching of that is harmless. */
  lemma QuietReadsAreHarmless(s: State, x: ReadId, name: Name, useCache: bool, es: seq<Event>, s': State)
    requires !useCache || CacheKey(name) !in s.cache
    requires Leads(Begun(s, x, name, useCache), es, s') && Enabled(s', Event.FinishGet(x))
    requires forall e :: e in es ==> !ChangesProviders(e) && e != FinishGet(x)
    ensures s'.readings[x].found == SearchIn(s, name) == SearchIn(s', name) && Harmless(s', Event.FinishGet(x))
  {
    hide Search;
    BeginsOnTrack(s, x, name, useCache);
    QuietReadsStayOnTrack(Begun(s, x, name, useCache), es, s', x);
    EndsWithTheSearch(s', x);
  }
}
