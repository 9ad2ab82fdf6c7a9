/** Ordering of decided actions: backend/ai/decision_engine.py. Actions are named action_0, action_1, ... */
module ExecutionOrder {
  import opened Options

  datatype Priority = Critical | High | Medium | Low

  datatype Action = Action(tool: string, priority: Priority, immediate: bool, dependsOn: seq<string>)

  // ----- Action identifiers -----

  function Decimal(n: nat): string {
    var digit := ['0' + (n % 10) as char];
    if n < 10 then digit else Decimal(n / 10) + digit
  }

  /** int() on a string of digits. */
  function Value(s: string): int {
    if s == [] then 0 else 10 * Value(s[..|s| - 1]) + (s[|s| - 1] as int - '0' as int)
  }

  function ActionId(i: nat): string {
    "action_" + Decimal(i)
  }

  lemma {:induction false} ValueOfDecimal(n: nat)
    ensures Value(Decimal(n)) == n
  {
    var s := Decimal(n);
    assert s[|s| - 1] as int == '0' as int + n % 10;
    if n >= 10 {
      ValueOfDecimal(n / 10);
      assert s[..|s| - 1] == Decimal(n / 10);
    }
  }

  lemma ActionIdInjective(i: nat, j: nat)
    requires ActionId(i) == ActionId(j)
    ensures i == j
  {
    assert ActionId(i)[7..] == Decimal(i) && ActionId(j)[7..] == Decimal(j);
    ValueOfDecimal(i);
    ValueOfDecimal(j);
  }

  // ----- Dependency names: an action id, or else a tool standing for all its actions -----

  function FindId(n: nat, name: string): Option<nat> {
    if n == 0 then None else if ActionId(n - 1) == name then Some(n - 1) else FindId(n - 1, name)
  }

  function WithTool(actions: seq<Action>, tool: string): seq<nat> {
    if actions == [] then []
    else
      var last := |actions| - 1;
      WithTool(actions[..last], tool) + if actions[last].tool == tool then [last] else []
  }

  function Resolve(actions: seq<Action>, name: string): Option<seq<nat>> {
    var id := FindId(|actions|, name);
    if id.Some? then Some([id.value])
    else
      var ids := WithTool(actions, name);
      if ids != [] then Some(ids) else None
  }

  lemma {:induction false} FindIdIsExact(n: nat, name: string, i: nat)
    ensures FindId(n, name) == Some(i) <==> i < n && ActionId(i) == name
  {
    if n > 0 {
      if ActionId(n - 1) == name {
        if ActionId(i) == name {
          ActionIdInjective(i, n - 1);
        }
      } else {
        FindIdIsExact(n - 1, name, i);
      }
    }
  }

  lemma {:induction false} WithToolIsExact(actions: seq<Action>, tool: string, i: nat)
    ensures i in WithTool(actions, tool) <==> i < |actions| && actions[i].tool == tool
  {
    if actions != [] {
      WithToolIsExact(actions[..|actions| - 1], tool, i);
    }
  }

  /** Every dependency of action i is known and all it stands for is among done. */
  predicate Ready(actions: seq<Action>, i: nat, done: seq<nat>) {
    && i < |actions|
    && forall d :: d in actions[i].dependsOn ==>
      Resolve(actions, d).Some? && forall x :: x in Resolve(actions, d).value ==> x in done
  }

  lemma ReadyIsMonotone(actions: seq<Action>, i: nat, done: seq<nat>, more: seq<nat>)
    requires Ready(actions, i, done) && forall x :: x in done ==> x in more
    ensures Ready(actions, i, more)
  {
  }

  // ----- Candidates: by priority, immediate actions first, then in the order they were decided -----

  function Rank(p: Priority): nat {
    match p case Critical => 0 case High => 1 case Medium => 2 case Low => 3
  }

  predicate Before(actions: seq<Action>, i: nat, j: nat) {
    && i < |actions| && j < |actions|
    && var a, b := actions[i], actions[j];
    if a.priority != b.priority then Rank(a.priority) < Rank(b.priority)
    else if a.immediate != b.immediate then a.immediate
    else i < j
  }

  ghost predicate Sorted(actions: seq<Action>, s: seq<nat>) {
    forall k, l :: 0 <= k < l < |s| ==> Before(actions, s[k], s[l])
  }

  function Insert(actions: seq<Action>, i: nat, s: seq<nat>): (r: seq<nat>)
    ensures forall x :: x in r <==> x == i || x in s
    ensures |r| == |s| + 1
  {
    if s == [] || Before(actions, i, s[0]) then [i] + s else [s[0]] + Insert(actions, i, s[1..])
  }

  lemma {:induction false} InsertKeepsSorted(actions: seq<Action>, i: nat, s: seq<nat>)
    requires Sorted(actions, s) && i < |actions| && i !in s
    requires forall k :: 0 <= k < |s| ==> s[k] < |actions|
    ensures Sorted(actions, Insert(actions, i, s))
  {
    if s != [] && !Before(actions, i, s[0]) {
      InsertKeepsSorted(actions, i, s[1..]);
      var rest := Insert(actions, i, s[1..]);
      forall k | 0 <= k < |rest|
        ensures Before(actions, s[0], rest[k])
      {
        assert rest[k] in rest;
        assert rest[k] == i || rest[k] in s[1..];
      }
    }
  }

  /** sorted() on the first n action ids. */
  function SortedIds(actions: seq<Action>, n: nat): (r: seq<nat>)
    requires n <= |actions|
    ensures |r| == n
    ensures forall x :: x in r <==> 0 <= x < n
    ensures Sorted(actions, r)
  {
    if n == 0 then []
    else
      var s := SortedIds(actions, n - 1);
      assert forall k :: 0 <= k < |s| ==> s[k] in s;
      InsertKeepsSorted(actions, n - 1, s);
      Insert(actions, n - 1, s)
  }

  function Candidates(actions: seq<Action>): seq<nat> {
    SortedIds(actions, |actions|)
  }

  predicate Distinct<T(==)>(s: seq<T>) {
    forall k, l :: 0 <= k < l < |s| ==> s[k] != s[l]
  }

  // ----- The schedule: passes over the candidates, then whatever is blocked -----

  /** One pass: each candidate not yet placed is placed as soon as it is ready. */
  function Pass(actions: seq<Action>, candidates: seq<nat>, ordered: seq<nat>): (r: seq<nat>)
    ensures ordered <= r
  {
    if candidates == [] then ordered
    else
      var last := |candidates| - 1;
      var o := Pass(actions, candidates[..last], ordered);
      if candidates[last] in o || !Ready(actions, candidates[last], o) then o else o + [candidates[last]]
  }

  /** The candidates not placed, in order. */
  function Rest(candidates: seq<nat>, ordered: seq<nat>): seq<nat> {
    if candidates == [] then []
    else
      var last := |candidates| - 1;
      Rest(candidates[..last], ordered) + if candidates[last] in ordered then [] else [candidates[last]]
  }

  /** The order so far respects dependencies. */
  ghost predicate Respects(actions: seq<Action>, o: seq<nat>) {
    Distinct(o) && forall k :: 0 <= k < |o| ==> Ready(actions, o[k], o[..k])
  }

  function Range(n: nat): (r: set<nat>)
    ensures |r| == n && forall x :: x in r <==> 0 <= x < n
  {
    if n == 0 then {} else Range(n - 1) + {n - 1}
  }

  function Members(s: seq<nat>): (r: set<nat>)
    ensures forall x :: x in r <==> x in s
    ensures Distinct(s) ==> |r| == |s|
  {
    if s == [] then {} else Members(s[1..]) + {s[0]}
  }

  lemma DistinctIsShort(n: nat, s: seq<nat>)
    requires Distinct(s) && forall k :: 0 <= k < |s| ==> s[k] < n
    ensures |s| <= n
    ensures |s| == n ==> forall x: nat :: x < n ==> x in s
  {
    hide Range, Members;
    assert Range(n) == Members(s) + (Range(n) - Members(s));
    assert |Range(n)| == |Members(s)| + |Range(n) - Members(s)|;
  }

  lemma {:induction false} PassRespects(actions: seq<Action>, candidates: seq<nat>, ordered: seq<nat>)
    requires Respects(actions, ordered)
    ensures Respects(actions, Pass(actions, candidates, ordered))
    ensures |Pass(actions, candidates, ordered)| <= |actions|
  {
    if candidates != [] {
      var last := |candidates| - 1;
      PassRespects(actions, candidates[..last], ordered);
      var o := Pass(actions, candidates[..last], ordered);
      if candidates[last] !in o && Ready(actions, candidates[last], o) {
        PlacingRespects(actions, o, candidates[last]);
      }
    }
    RespectsIsShort(actions, Pass(actions, candidates, ordered));
  }

  lemma PlacingRespects(actions: seq<Action>, o: seq<nat>, c: nat)
    requires Respects(actions, o) && c !in o && Ready(actions, c, o)
    ensures Respects(actions, o + [c])
  {
    var r := o + [c];
    forall k | 0 <= k < |r|
      ensures Ready(actions, r[k], r[..k])
    {
      assert r[..k] == if k < |o| then o[..k] else o;
    }
  }

  lemma RespectsIsShort(actions: seq<Action>, o: seq<nat>)
    requires Respects(actions, o)
    ensures |o| <= |actions|
    ensures |o| == |actions| ==> forall x: nat :: x < |actions| ==> x in o
  {
    assert forall k :: 0 <= k < |o| ==> Ready(actions, o[k], o[..k]);
    DistinctIsShort(|actions|, o);
  }

  /** Passes until one of them places nothing. */
  function Saturate(actions: seq<Action>, ordered: seq<nat>): (r: seq<nat>)
    requires Respects(actions, ordered)
    ensures ordered <= r
    decreases |actions| - |ordered|
  {
    var o := Pass(actions, Candidates(actions), ordered);
    PassRespects(actions, Candidates(actions), ordered);
    if |ordered| >= |actions| || |o| == |ordered| then ordered else Saturate(actions, o)
  }

  function Placed(actions: seq<Action>): seq<nat> {
    Saturate(actions, [])
  }

  function Schedule(actions: seq<Action>): seq<nat> {
    Placed(actions) + Rest(Candidates(actions), Placed(actions))
  }

  function Ids(s: seq<nat>): seq<string> {
    seq(|s|, k requires 0 <= k < |s| => ActionId(s[k]))
  }

  /** A set of actions closed under: if all I depend on is in, so am I. */
  ghost predicate Closed(actions: seq<Action>, done: seq<nat>) {
    forall i: nat :: i < |actions| && Ready(actions, i, done) ==> i in done
  }

  lemma {:induction false} SaturateRespects(actions: seq<Action>, ordered: seq<nat>)
    requires Respects(actions, ordered)
    ensures Respects(actions, Saturate(actions, ordered))
    decreases |actions| - |ordered|
  {
    var o := Pass(actions, Candidates(actions), ordered);
    PassRespects(actions, Candidates(actions), ordered);
    if |ordered| < |actions| && |o| != |ordered| {
      SaturateRespects(actions, o);
    }
  }

  /** A pass that places nothing has found nobody ready. */
  lemma {:induction false} IdlePassFindsNobody(actions: seq<Action>, candidates: seq<nat>, ordered: seq<nat>, i: nat)
    requires |Pass(actions, candidates, ordered)| == |ordered|
    requires i in candidates && Ready(actions, i, ordered)
    ensures i in ordered
  {
    var last := |candidates| - 1;
    assert candidates == candidates[..last] + [candidates[last]];
    assert Pass(actions, candidates[..last], ordered) == ordered;
    if i in candidates[..last] {
      IdlePassFindsNobody(actions, candidates[..last], ordered, i);
    }
  }

  lemma {:induction false} SaturateIsClosed(actions: seq<Action>, ordered: seq<nat>)
    requires Respects(actions, ordered)
    ensures Closed(actions, Saturate(actions, ordered))
    decreases |actions| - |ordered|
  {
    var o := Pass(actions, Candidates(actions), ordered);
    PassRespects(actions, Candidates(actions), ordered);
    if |ordered| >= |actions| {
      RespectsIsShort(actions, ordered);
    } else if |o| == |ordered| {
      forall i: nat | i < |actions| && Ready(actions, i, ordered)
        ensures i in ordered
      {
        IdlePassFindsNobody(actions, Candidates(actions), ordered, i);
      }
    } else {
      SaturateIsClosed(actions, o);
    }
  }

  // ----- Dependencies run first -----

  /** All that dependency d names is among the ids done: the action of that id; or, if there is none, every action with
      that tool, of which there must be one. */
  ghost predicate HasRun(actions: seq<Action>, d: string, done: seq<string>) {
    if exists i: nat :: i < |actions| && ActionId(i) == d then d in done
    else
      && (exists i :: 0 <= i < |actions| && actions[i].tool == d)
      && (forall i :: 0 <= i < |actions| && actions[i].tool == d ==> ActionId(i) in done)
  }

  lemma IdIsIn(s: seq<nat>, i: nat)
    ensures ActionId(i) in Ids(s) <==> i in s
  {
    hide ActionId;
    if ActionId(i) in Ids(s) {
      var k :| 0 <= k < |s| && Ids(s)[k] == ActionId(i);
      ActionIdInjective(s[k], i);
    }
    if i in s {
      var k :| 0 <= k < |s| && s[k] == i;
      assert Ids(s)[k] == ActionId(i);
    }
  }

  lemma ResolvesExactly(actions: seq<Action>, d: string, done: seq<nat>)
    ensures HasRun(actions, d, Ids(done)) <==>
      Resolve(actions, d).Some? && forall x :: x in Resolve(actions, d).value ==> x in done
  {
    hide ActionId, Ids;
    var id := FindId(|actions|, d);
    if id.Some? {
      FindIdIsExact(|actions|, d, id.value);
      IdIsIn(done, id.value);
    } else {
      forall i: nat
        ensures !(i < |actions| && ActionId(i) == d)
        ensures ActionId(i) in Ids(done) <==> i in done
        ensures i in WithTool(actions, d) <==> i < |actions| && actions[i].tool == d
      {
        FindIdIsExact(|actions|, d, i);
        IdIsIn(done, i);
        WithToolIsExact(actions, d, i);
      }
      if WithTool(actions, d) != [] {
        assert WithTool(actions, d)[0] in WithTool(actions, d);
      }
    }
  }

  /** An action is ready exactly when all its dependencies have run. */
  lemma ReadyExactly(actions: seq<Action>, i: nat, done: seq<nat>)
    ensures Ready(actions, i, done) <==>
      i < |actions| && forall d :: d in actions[i].dependsOn ==> HasRun(actions, d, Ids(done))
  {
    hide HasRun, Ids, Resolve;
    if i < |actions| {
      forall d | d in actions[i].dependsOn
        ensures HasRun(actions, d, Ids(done)) <==>
          Resolve(actions, d).Some? && forall x :: x in Resolve(actions, d).value ==> x in done
      {
        ResolvesExactly(actions, d, done);
      }
    }
  }

  /** The first placed actions of the order each come after all they depend on; every other action depends on something
      that is no action's id or tool, or that is not among them. */
  ghost predicate DependenciesFirst(actions: seq<Action>, order: seq<string>, placed: nat) {
    && placed <= |order|
    && (forall k, i: nat, d ::
      0 <= k < placed && i < |actions| && order[k] == ActionId(i) && d in actions[i].dependsOn ==>
        HasRun(actions, d, order[..k]))
    && (forall i: nat :: i < |actions| && ActionId(i) !in order[..placed] ==>
      exists d :: d in actions[i].dependsOn && !HasRun(actions, d, order[..placed]))
  }

  lemma PrefixOfIds(s: seq<nat>, t: seq<nat>, k: nat)
    requires k <= |s|
    ensures Ids(s + t)[..k] == Ids(s[..k])
  {
  }

  /** Dependencies run first, and what is left to the fallback is exactly what cannot. */
  lemma DependenciesRunFirst(actions: seq<Action>)
    ensures DependenciesFirst(actions, Ids(Schedule(actions)), |Placed(actions)|)
  {
    hide ActionId, HasRun, Placed, Rest, Ready, Ids;
    var p, rest := Placed(actions), Rest(Candidates(actions), Placed(actions));
    var order := Ids(p + rest);
    SaturateRespectsAndCloses(actions);
    PrefixOfIds(p, rest, |p|);
    assert p[..|p|] == p;
    IdsLength(p + rest);
    forall k, i: nat, d | 0 <= k < |p| && i < |actions| && order[k] == ActionId(i) && d in actions[i].dependsOn
      ensures HasRun(actions, d, order[..k])
    {
      IdsAt(p + rest, k);
      ActionIdInjective(p[k], i);
      ReadyExactly(actions, i, p[..k]);
      PrefixOfIds(p, rest, k);
    }
    forall i: nat | i < |actions| && ActionId(i) !in order[..|p|]
      ensures exists d :: d in actions[i].dependsOn && !HasRun(actions, d, order[..|p|])
    {
      IdIsIn(p, i);
      ReadyExactly(actions, i, p);
    }
  }

  lemma IdsLength(s: seq<nat>)
    ensures |Ids(s)| == |s|
  {
  }

  lemma IdsAt(s: seq<nat>, k: nat)
    requires k < |s|
    ensures |Ids(s)| == |s| && Ids(s)[k] == ActionId(s[k])
  {
  }

  lemma SaturateRespectsAndCloses(actions: seq<Action>)
    ensures Respects(actions, Placed(actions)) && Closed(actions, Placed(actions))
  {
    SaturateRespects(actions, []);
    SaturateIsClosed(actions, []);
  }

  /** The inner loop of _determine_execution_order. */
  method OnePass(actions: seq<Action>, candidates: seq<nat>, before: seq<nat>)
    returns (ordered: seq<nat>, progress: bool)
    ensures ordered == Pass(actions, candidates, before)
    ensures progress <==> |ordered| > |before|
  {
    ordered, progress := before, false;
    for k := 0 to |candidates|
      invariant ordered == Pass(actions, candidates[..k], before)
      invariant progress <==> |ordered| > |before|
    {
      var c := candidates[k];
      assert candidates[..k + 1][..k] == candidates[..k];
      if c in ordered {
        continue;
      }
      if Ready(actions, c, ordered) {
        ordered := ordered + [c];
        progress := true;
      }
    }
    assert candidates[..|candidates|] == candidates;
  }

  /** Its fallback: what is blocked goes last, by priority. */
  method AppendBlocked(candidates: seq<nat>, before: seq<nat>) returns (ordered: seq<nat>)
    requires Distinct(candidates)
    ensures ordered == before + Rest(candidates, before)
  {
    ordered := before;
    for k := 0 to |candidates|
      invariant ordered == before + Rest(candidates[..k], before)
    {
      var c := candidates[k];
      assert candidates[..k + 1][..k] == candidates[..k];
      RestIsExact(candidates[..k], before, c);
      if c !in ordered {
        ordered := ordered + [c];
      }
    }
    assert candidates[..|candidates|] == candidates;
  }

  /** _determine_execution_order. */
  method DetermineExecutionOrder(actions: seq<Action>) returns (order: seq<string>)
    ensures order == Ids(Schedule(actions))
    ensures DependenciesFirst(actions, order, |Placed(actions)|)
  {
    DependenciesRunFirst(actions);
    hide DependenciesFirst;
    var candidates := Candidates(actions);
    var ordered: seq<nat> := [];
    while |ordered| < |actions|
      invariant Respects(actions, ordered) && Saturate(actions, ordered) == Placed(actions)
      decreases |actions| - |ordered|
    {
      var before := ordered;
      var progress;
      PassRespects(actions, candidates, before);
      ordered, progress := OnePass(actions, candidates, before);
      if !progress {
        assert ordered == before;
        CandidatesAreDistinct(actions);
        ordered := AppendBlocked(candidates, ordered);
        return Ids(ordered);
      }
    }
    RespectsIsShort(actions, ordered);
    NothingLeft(candidates, ordered);
    assert Placed(actions) + [] == ordered;
    order := Ids(ordered);
  }

  lemma CandidatesAreDistinct(actions: seq<Action>)
    ensures Distinct(Candidates(actions))
  {
    var c := Candidates(actions);
    assert forall k, l :: 0 <= k < l < |c| ==> Before(actions, c[k], c[l]);
  }

  lemma {:induction false} RestIsExact(candidates: seq<nat>, ordered: seq<nat>, x: nat)
    ensures x in Rest(candidates, ordered) <==> x in candidates && x !in ordered
  {
    if candidates != [] {
      var last := |candidates| - 1;
      RestIsExact(candidates[..last], ordered, x);
      assert candidates == candidates[..last] + [candidates[last]];
    }
  }

  lemma NothingLeft(candidates: seq<nat>, ordered: seq<nat>)
    requires forall x :: x in candidates ==> x in ordered
    ensures Rest(candidates, ordered) == []
  {
    if Rest(candidates, ordered) != [] {
      RestIsExact(candidates, ordered, Rest(candidates, ordered)[0]);
    }
  }
}
