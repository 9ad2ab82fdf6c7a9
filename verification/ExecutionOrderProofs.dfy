/** What the execution order promises, for every list of actions. */
module ExecutionOrderProofs {
  import opened ExecutionOrder

  ghost predicate Subset(s: seq<nat>, t: seq<nat>) {
    forall x :: x in s ==> x in t
  }

  lemma {:induction false} RespectingIsInsideClosed(actions: seq<Action>, o: seq<nat>, k: nat, closed: seq<nat>)
    requires Respects(actions, o) && Closed(actions, closed) && k <= |o|
    ensures Subset(o[..k], closed)
    decreases k
  {
    if k > 0 {
      RespectingIsInsideClosed(actions, o, k - 1, closed);
      ReadyIsMonotone(actions, o[k - 1], o[..k - 1], closed);
      assert o[..k] == o[..k - 1] + [o[k - 1]];
    }
  }

  /** The actions placed before the fallback are the least closed set, each after all it depends on. */
  lemma PlacedIsLeastClosed(actions: seq<Action>)
    ensures Respects(actions, Placed(actions))
    ensures Closed(actions, Placed(actions))
    ensures forall closed: seq<nat> :: Closed(actions, closed) ==> Subset(Placed(actions), closed)
  {
    SaturateRespects(actions, []);
    SaturateIsClosed(actions, []);
    forall closed: seq<nat> | Closed(actions, closed)
      ensures Subset(Placed(actions), closed)
    {
      var p := Placed(actions);
      RespectingIsInsideClosed(actions, p, |p|, closed);
      assert p[..|p|] == p;
    }
  }

  /** Two lists that share out the numbers below n between them. */
  lemma SharedOutIsPermutation(p: seq<nat>, rest: seq<nat>, n: nat)
    requires Distinct(p) && Distinct(rest)
    requires forall x: nat :: x < n <==> x in p || x in rest
    requires forall x: nat :: x in rest ==> x !in p
    ensures Distinct(p + rest) && |p + rest| == n
  {
    var s := p + rest;
    forall k, l | 0 <= k < l < |s|
      ensures s[k] != s[l]
    {
      if k < |p| <= l {
        assert s[k] in p && s[l] in rest;
      }
    }
    assert Members(s) == Range(n);
  }

  lemma RespectingAreActions(actions: seq<Action>, o: seq<nat>)
    requires Respects(actions, o)
    ensures forall x :: x in o ==> x < |actions|
  {
    assert forall k :: 0 <= k < |o| ==> Ready(actions, o[k], o[..k]);
  }

  /** Nothing is blocked exactly when some order of all actions respects every dependency. */
  lemma NothingBlockedIffOrderable(actions: seq<Action>)
    ensures |Placed(actions)| == |actions| <==> exists o :: Respects(actions, o) && |o| == |actions|
  {
    hide Placed, Ready, Closed;
    PlacedIsLeastClosed(actions);
    var p := Placed(actions);
    if o :| Respects(actions, o) && |o| == |actions| {
      RespectsIsShort(actions, o);
      RespectingIsInsideClosed(actions, o, |o|, p);
      assert o[..|o|] == o;
      RespectingAreActions(actions, p);
      SharedOutIsPermutation(p, [], |actions|);
      assert p + [] == p;
    }
  }

  // ----- The whole order -----

  /** The candidates go from critical to low; of one priority the immediate actions come first, and otherwise the order
      in which they were decided stands. */
  lemma CandidatesFollowUrgency(actions: seq<Action>, k: nat, l: nat)
    requires k < l < |actions|
    ensures Candidates(actions)[k] < |actions| && Candidates(actions)[l] < |actions|
    ensures var c := Candidates(actions);
      var a, b := actions[c[k]], actions[c[l]];
      && (b.priority == Critical ==> a.priority == Critical)
      && (b.priority == High ==> a.priority in {Critical, High})
      && (b.priority == Medium ==> a.priority in {Critical, High, Medium})
      && (a.priority == b.priority && b.immediate ==> a.immediate)
      && (a.priority == b.priority && a.immediate == b.immediate ==> c[k] < c[l])
  {
    assert Before(actions, Candidates(actions)[k], Candidates(actions)[l]);
  }

  lemma {:induction false} RestKeepsDistinct(candidates: seq<nat>, ordered: seq<nat>)
    requires Distinct(candidates)
    ensures Distinct(Rest(candidates, ordered))
  {
    if candidates != [] {
      var last := |candidates| - 1;
      RestKeepsDistinct(candidates[..last], ordered);
      RestIsExact(candidates[..last], ordered, candidates[last]);
    }
  }

  lemma {:induction false} RestIsSorted(actions: seq<Action>, candidates: seq<nat>, ordered: seq<nat>)
    requires Sorted(actions, candidates)
    ensures Sorted(actions, Rest(candidates, ordered))
  {
    if candidates != [] {
      var last := |candidates| - 1;
      RestIsSorted(actions, candidates[..last], ordered);
      var r := Rest(candidates[..last], ordered);
      forall k | 0 <= k < |r|
        ensures Before(actions, r[k], candidates[last])
      {
        RestIsExact(candidates[..last], ordered, r[k]);
      }
    }
  }

  /** The order names every action exactly once; what the passes could not place comes last, by priority. */
  lemma ScheduleIsPermutation(actions: seq<Action>)
    ensures var s, p := Schedule(actions), Placed(actions);
      && |s| == |actions| && Distinct(s) && (forall x :: x in s <==> 0 <= x < |actions|)
      && p <= s && Sorted(actions, s[|p|..])
  {
    hide Placed, Rest, Sorted, Closed, Subset, Ready;
    var c, p := Candidates(actions), Placed(actions);
    var rest := Rest(c, p);
    PlacedIsLeastClosed(actions);
    CandidatesAreDistinct(actions);
    RestKeepsDistinct(c, p);
    RestIsSorted(actions, c, p);
    assert Schedule(actions)[|p|..] == rest;
    forall x: nat
      ensures x in rest <==> x in c && x !in p
    {
      RestIsExact(c, p, x);
    }
    RespectingAreActions(actions, p);
    SharedOutIsPermutation(p, rest, |actions|);
  }

  lemma IdsAreDistinct(s: seq<nat>)
    requires Distinct(s)
    ensures |Ids(s)| == |s| && Distinct(Ids(s))
  {
    forall k, l | 0 <= k < l < |s|
      ensures Ids(s)[k] != Ids(s)[l]
    {
      if ActionId(s[k]) == ActionId(s[l]) {
        ActionIdInjective(s[k], s[l]);
      }
    }
  }

  /** The returned list has each of action_0 .. action_{n-1} exactly once. */
  lemma OrderIsPermutationOfIds(actions: seq<Action>)
    ensures var order := Ids(Schedule(actions));
      |order| == |actions| && Distinct(order) && forall i: nat :: i < |actions| <==> ActionId(i) in order
  {
    ScheduleIsPermutation(actions);
    IdsAreDistinct(Schedule(actions));
    var s := Schedule(actions);
    var order := Ids(s);
    forall i: nat
      ensures i < |actions| <==> ActionId(i) in order
    {
      if i < |actions| {
        assert i in s;
        var k :| 0 <= k < |s| && s[k] == i;
        assert order[k] == ActionId(i);
      }
      if ActionId(i) in order {
        var k :| 0 <= k < |order| && order[k] == ActionId(i);
        ActionIdInjective(s[k], i);
        assert s[k] in s;
      }
    }
  }

  // ----- Order among actions that never wait -----

  lemma {:induction false} PassSplits(actions: seq<Action>, c1: seq<nat>, c2: seq<nat>, ordered: seq<nat>)
    ensures Pass(actions, c1 + c2, ordered) == Pass(actions, c2, Pass(actions, c1, ordered))
    decreases |c2|
  {
    if c2 == [] {
      assert c1 + c2 == c1;
    } else {
      var last := |c2| - 1;
      assert (c1 + c2)[..|c1| + last] == c1 + c2[..last];
      PassSplits(actions, c1, c2[..last], ordered);
    }
  }

  ghost predicate ComesBefore(s: seq<nat>, a: nat, b: nat) {
    exists k, l :: 0 <= k < l < |s| && s[k] == a && s[l] == b
  }

  lemma {:induction false} PassOnlyAddsCandidates(actions: seq<Action>, candidates: seq<nat>, ordered: seq<nat>, x: nat)
    requires x in Pass(actions, candidates, ordered)
    ensures x in ordered || x in candidates
  {
    if candidates != [] {
      var last := |candidates| - 1;
      if x in Pass(actions, candidates[..last], ordered) {
        PassOnlyAddsCandidates(actions, candidates[..last], ordered, x);
      }
    }
  }

  predicate Independent(actions: seq<Action>, i: nat) {
    i < |actions| && actions[i].dependsOn == []
  }

  lemma IndependentInPassOrder(actions: seq<Action>, c: seq<nat>, k: nat, l: nat)
    requires Distinct(c) && k < l < |c| && Independent(actions, c[k]) && Independent(actions, c[l])
    ensures ComesBefore(Pass(actions, c, []), c[k], c[l])
  {
    var o1 := Pass(actions, c[..k + 1], []);
    assert c[..k + 1][..k] == c[..k];
    assert c[k] in o1;
    var o2 := Pass(actions, c[..l], []);
    assert c[..l] == c[..k + 1] + c[k + 1..l];
    PassSplits(actions, c[..k + 1], c[k + 1..l], []);
    if c[l] in o2 {
      PassOnlyAddsCandidates(actions, c[..l], [], c[l]);
      assert false;
    }
    var o3 := Pass(actions, c[..l + 1], []);
    assert c[..l + 1][..l] == c[..l];
    assert o3 == o2 + [c[l]];
    var x :| 0 <= x < |o1| && o1[x] == c[k];
    assert o3[x] == c[k] && o3[|o2|] == c[l] && x < |o2|;
    assert c == c[..l + 1] + c[l + 1..];
    PassSplits(actions, c[..l + 1], c[l + 1..], []);
    var s := Pass(actions, c, []);
    assert s[x] == c[k] && s[|o2|] == c[l];
  }

  /** Two actions without dependencies are executed in the order of the priority sort. */
  lemma DependencyFreeKeepCandidateOrder(actions: seq<Action>, k: nat, l: nat)
    requires k < l < |actions|
    requires Independent(actions, Candidates(actions)[k]) && Independent(actions, Candidates(actions)[l])
    ensures ComesBefore(Schedule(actions), Candidates(actions)[k], Candidates(actions)[l])
  {
    var c := Candidates(actions);
    CandidatesAreDistinct(actions);
    IndependentInPassOrder(actions, c, k, l);
    FirstPassIsKept(actions);
    var pass, s := Pass(actions, c, []), Schedule(actions);
    assert forall x :: 0 <= x < |pass| ==> s[x] == pass[x];
  }

  lemma FirstPassIsKept(actions: seq<Action>)
    ensures Pass(actions, Candidates(actions), []) <= Schedule(actions)
  {
    PassRespects(actions, Candidates(actions), []);
  }

  lemma RespectsPrefix(actions: seq<Action>, o: seq<nat>, k: nat)
    requires Respects(actions, o) && k <= |o|
    ensures Respects(actions, o[..k])
  {
    forall l | 0 <= l < k
      ensures Ready(actions, o[..k][l], o[..k][..l])
    {
      assert o[..k][..l] == o[..l];
    }
  }

  lemma {:induction false} ReadyPassPlacesAll(actions: seq<Action>, candidates: seq<nat>)
    requires Respects(actions, candidates)
    ensures Pass(actions, candidates, []) == candidates
  {
    if candidates != [] {
      var last := |candidates| - 1;
      RespectsPrefix(actions, candidates, last);
      ReadyPassPlacesAll(actions, candidates[..last]);
      assert Ready(actions, candidates[last], candidates[..last]);
      assert candidates == candidates[..last] + [candidates[last]];
    }
  }

  /** If the priority sort already puts dependencies first, the order is the priority sort. */
  lemma ReadyCandidatesAreTheSchedule(actions: seq<Action>)
    requires Respects(actions, Candidates(actions))
    ensures Schedule(actions) == Candidates(actions)
  {
    var c := Candidates(actions);
    ReadyPassPlacesAll(actions, c);
    FirstPassIsKept(actions);
    ScheduleIsPermutation(actions);
  }

  // ----- The lists that _decide_actions builds -----

  datatype AutoAction = NotifyManager | CreateFollowupTask | NoAutoAction

  datatype Analysis = Analysis(attendees: seq<string>, vip: bool, highRisk: bool, textable: bool,
  rules: seq<AutoAction>)

  const EVENT := "create_calendar_event"

  function Free(tool: string, priority: Priority, immediate: bool): Action {
    Action(tool, priority, immediate, [])
  }

  function Invites(n: nat): seq<Action> {
    seq(n, i => Action("send_calendar_invite", Critical, true, [EVENT]))
  }

  function FromRules(rules: seq<AutoAction>): seq<Action> {
    if rules == [] then []
    else
      FromRules(rules[..|rules| - 1]) +
      match rules[|rules| - 1]
      case NotifyManager => [Free("send_email", High, true)]
      case CreateFollowupTask => [Free("create_task", Medium, false)]
      case NoAutoAction => []
  }

  /** What attendee and risk add to the event and its invitations. */
  function Extras(a: Analysis): seq<Action> {
    (if a.vip then [Free("send_email", High, true), Free("post_to_slack", Medium, false),
                   Free("create_task", High, false)]
     else [])
    + (if a.highRisk && a.textable then [Free("send_sms", High, false)] else [])
    + (if a.highRisk then [Free("send_email", High, false)] else [])
  }

  /** The actions decided, keeping of each what the ordering looks at. */
  function Plan(a: Analysis): seq<Action> {
    [Free(EVENT, Critical, true)] + Invites(|a.attendees|) + Extras(a) + FromRules(a.rules)
    + [Free("analyze_booking_pattern", Low, false)]
  }

  /** _decide_actions. */
  method DecideActions(a: Analysis) returns (actions: seq<Action>)
    ensures actions == Plan(a)
  {
    actions := [Free(EVENT, Critical, true)];
    for k := 0 to |a.attendees|
      invariant actions == [Free(EVENT, Critical, true)] + Invites(k)
    {
      actions := actions + [Action("send_calendar_invite", Critical, true, [EVENT])];
    }
    if a.vip {
      actions := actions + [Free("send_email", High, true), Free("post_to_slack", Medium, false),
                           Free("create_task", High, false)];
    }
    if a.highRisk {
      if a.textable {
        actions := actions + [Free("send_sms", High, false)];
      }
      actions := actions + [Free("send_email", High, false)];
    }
    actions := ApplyRules(actions, a.rules);
    actions := actions + [Free("analyze_booking_pattern", Low, false)];
  }

  method ApplyRules(fixed: seq<Action>, rules: seq<AutoAction>) returns (actions: seq<Action>)
    ensures actions == fixed + FromRules(rules)
  {
    actions := fixed;
    for k := 0 to |rules|
      invariant actions == fixed + FromRules(rules[..k])
    {
      assert rules[..k + 1][..k] == rules[..k];
      match rules[k]
      case NotifyManager => actions := actions + [Free("send_email", High, true)];
      case CreateFollowupTask => actions := actions + [Free("create_task", Medium, false)];
      case NoAutoAction =>
    }
    assert rules[..|rules|] == rules;
  }

  /** The shape of every list _decide_actions builds. */
  ghost predicate Decided(actions: seq<Action>) {
    && |actions| >= 1
    && actions[0] == Free(EVENT, Critical, true)
    && forall i :: 0 < i < |actions| ==>
      actions[i].tool != EVENT && (actions[i].dependsOn == [] || actions[i].dependsOn == [EVENT])
  }

  lemma {:induction false} RulesAreIndependent(rules: seq<AutoAction>)
    ensures forall x :: x in FromRules(rules) ==> x.tool != EVENT && x.dependsOn == []
  {
    if rules != [] {
      RulesAreIndependent(rules[..|rules| - 1]);
    }
  }

  lemma {:induction false} RulesAddTwoTools(rules: seq<AutoAction>)
    ensures forall x :: x in FromRules(rules) ==>
      x == Free("send_email", High, true) || x == Free("create_task", Medium, false)
    ensures Free("send_email", High, true) in FromRules(rules) <==> NotifyManager in rules
    ensures Free("create_task", Medium, false) in FromRules(rules) <==> CreateFollowupTask in rules
  {
    if rules != [] {
      RulesAddTwoTools(rules[..|rules| - 1]);
      assert rules == rules[..|rules| - 1] + [rules[|rules| - 1]];
    }
  }

  lemma ExtrasContents(a: Analysis)
    ensures var x := Extras(a);
      && (forall y :: y in x ==>
        y.tool !in {EVENT, "send_calendar_invite"} && y.dependsOn == [] && y != Free("create_task", Medium, false))
      && (a.vip <==> Free("post_to_slack", Medium, false) in x)
      && (a.vip <==> Free("create_task", High, false) in x)
      && (a.highRisk && a.textable <==> Free("send_sms", High, false) in x)
      && (a.highRisk <==> Free("send_email", High, false) in x)
      && (a.vip <==> Free("send_email", High, true) in x)
  {
  }

  /** The event, one invitation for each attendee, what the analysis asks for, and the pattern analysis last. */
  lemma PlanContents(a: Analysis)
    ensures var p, n := Plan(a), |a.attendees|;
      && |p| >= n + 2 && p[0].tool == EVENT && p[|p| - 1] == Free("analyze_booking_pattern", Low, false)
      && (forall i :: 0 <= i < |p| ==> (p[i].tool == "send_calendar_invite" <==> 1 <= i <= n))
      && (a.vip <==> Free("post_to_slack", Medium, false) in p)
      && (a.vip <==> Free("create_task", High, false) in p)
      && (a.highRisk && a.textable <==> Free("send_sms", High, false) in p)
      && (a.highRisk <==> Free("send_email", High, false) in p)
      && (a.vip || NotifyManager in a.rules <==> Free("send_email", High, true) in p)
      && (CreateFollowupTask in a.rules <==> Free("create_task", Medium, false) in p)
  {
    ExtrasContents(a);
    RulesAddTwoTools(a.rules);
    hide Extras, FromRules;
    var p, n, x := Plan(a), |a.attendees|, Extras(a) + FromRules(a.rules);
    forall i | 0 <= i < |p|
      ensures p[i].tool == "send_calendar_invite" <==> 1 <= i <= n
    {
      if n < i < |p| - 1 {
        assert p[i] == x[i - n - 1];
        assert x[i - n - 1] in x;
      }
    }
  }

  lemma PlanIsDecided(a: Analysis)
    ensures Decided(Plan(a))
  {
    RulesAreIndependent(a.rules);
    forall i | 0 < i < |Plan(a)|
      ensures Plan(a)[i].tool != EVENT && (Plan(a)[i].dependsOn == [] || Plan(a)[i].dependsOn == [EVENT])
    {
      assert Plan(a)[i] in Plan(a)[1..];
    }
  }

  /** Whatever the analysis, the decided actions run exactly in priority order, the calendar event first. */
  lemma PlansFollowPriority(a: Analysis)
    ensures Ids(Schedule(Plan(a))) == Ids(Candidates(Plan(a)))
    ensures Ids(Schedule(Plan(a)))[0] == "action_0" && Plan(a)[0].tool == EVENT
  {
    PlanIsDecided(a);
    DecidedActionsFollowPriority(Plan(a));
  }

  /** For such a list the order is exactly the priority sort, the calendar event first. */
  lemma DecidedActionsFollowPriority(actions: seq<Action>)
    requires Decided(actions)
    ensures Schedule(actions) == Candidates(actions)
    ensures Candidates(actions)[0] == 0
    ensures Ids(Schedule(actions))[0] == "action_0"
  {
    var c := Candidates(actions);
    EventComesFirst(actions);
    CandidatesAreDistinct(actions);
    EventResolves(actions);
    forall k | 0 <= k < |c|
      ensures Ready(actions, c[k], c[..k])
    {
      assert c[k] in c;
      if k == 0 {
        assert actions[0].dependsOn == [];
      } else {
        assert c[k] != 0;
        assert 0 in c[..k] by {
          assert c[..k][0] == 0;
        }
      }
    }
    ReadyCandidatesAreTheSchedule(actions);
    assert Ids(Schedule(actions))[0] == ActionId(0) == "action_" + Decimal(0);
  }

  lemma NothingBeforeEvent(actions: seq<Action>, i: nat)
    requires Decided(actions)
    ensures !Before(actions, i, 0)
  {
  }

  lemma EventComesFirst(actions: seq<Action>)
    requires Decided(actions)
    ensures Candidates(actions)[0] == 0
  {
    var c := Candidates(actions);
    assert 0 in c;
    var k :| 0 <= k < |c| && c[k] == 0;
    NothingBeforeEvent(actions, c[0]);
    assert k == 0;
  }

  lemma EventIsNoId(i: nat)
    ensures ActionId(i) != EVENT
  {
    assert ActionId(i)[0] == 'a';
  }

  lemma EventResolves(actions: seq<Action>)
    requires Decided(actions)
    ensures Resolve(actions, EVENT).Some?
    ensures forall x :: x in Resolve(actions, EVENT).value ==> x == 0
  {
    if FindId(|actions|, EVENT).Some? {
      var i := FindId(|actions|, EVENT).value;
      EventIsNoId(i);
      FindIdIsExact(|actions|, EVENT, i);
    }
    var ids := WithTool(actions, EVENT);
    WithToolIsExact(actions, EVENT, 0);
    forall x | x in ids
      ensures x == 0
    {
      WithToolIsExact(actions, EVENT, x);
    }
  }
}
