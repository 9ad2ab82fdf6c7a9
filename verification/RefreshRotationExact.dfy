/** When exactly a run of refresh-token rotation is safe, whatever its timing. */
module RefreshRotationExact {
  import opened ExpiringMap
  import opened RefreshRotation
  import opened RefreshRotationProofs

  /** Request r of the event mints. */
  predicate Mints(s: State, e: Event) {
    e.Advance? && e.request in s.requests && s.requests[e.request].phase.Rotating?
  }

  /** What a request can look up before it mints: the token is not blacklisted, and no request is about to do it. */
  predicate Unspoken(s: State, t: Token) {
    && Lookup(s.blacklist, t, s.now).None?
    && forall r :: r in s.requests && s.requests[r].phase.Blacklisting? ==> s.requests[r].token != t
  }

  predicate MintsFreely(s: State, e: Event) {
    Mints(s, e) ==> Unspoken(s, s.requests[e.request].token)
  }

  ghost predicate AllMintFreely(s: State, es: seq<Event>, s': State)
    requires Leads(s, es, s')
    decreases |es|
  {
    es == [] || (MintsFreely(s, es[0]) && AllMintFreely(Next(s, es[0]), es[1..], s'))
  }

  // ----- What the cache says about the pairs -----

  /** A pair whose parent is not blacklisted on its account has its minter about to do it. */
  ghost predicate UnsealedAwaited(s: State) {
    && (forall i: PairId, t: Token :: IsChild(s, i, t) && i !in s.sealed ==>
      var r := s.issued[i].origin.minter;
      && r in s.requests && s.requests[r].token == t
      && s.requests[r].phase.Blacklisting? && s.requests[r].phase.pair == i)
    && (forall r :: r in s.requests && s.requests[r].phase.Blacklisting? ==>
      var pair := s.requests[r].phase.pair;
      && IsChild(s, pair, s.requests[r].token) && pair !in s.sealed && s.issued[pair].origin.minter == r)
  }

  /** The blacklist entry of a token is the latest that any of its pairs earned it. */
  ghost predicate SealsCovered(s: State) {
    && (forall i :: i in s.sealed ==> i < |s.issued| && s.sealed[i] <= s.now)
    && (forall i: PairId, t: Token :: IsChild(s, i, t) && i in s.sealed ==>
      t in s.blacklist && LapseOf(s, i) <= s.blacklist[t].expiresAt)
    && (forall t :: t in s.blacklist ==> s.blacklist[t].expiresAt > 0 && Earned(s, t))
  }

  ghost predicate Earned(s: State, t: Token)
    requires t in s.blacklist
  {
    exists i: PairId :: IsChild(s, i, t) && i in s.sealed && LapseOf(s, i) == s.blacklist[t].expiresAt
  }

  ghost predicate Accounted(s: State) {
    && 0 <= s.now && 1 <= s.days
    && (forall i: PairId :: i < |s.issued| ==> s.issued[i].at <= s.now)
    && UnsealedAwaited(s) && SealsCovered(s)
  }

  lemma MintKeepsAccounted(s: State, r: RequestId, decodes: bool)
    requires Accounted(s) && Enabled(s, Advance(r, decodes)) && s.requests[r].phase.Rotating?
    ensures Accounted(Step(s, r, decodes))
  {
    var s' := Step(s, r, decodes);
    MintChanges(s, r, decodes);
    RotatingAddsChild(s, r, decodes);
    ChildIsIssued(s);
    hide Step, IsChild;
    forall t | t in s'.blacklist
      ensures Earned(s', t)
    {
      var i: PairId :| IsChild(s, i, t) && i in s.sealed && LapseOf(s, i) == s.blacklist[t].expiresAt;
      assert IsChild(s', i, t);
    }
  }

  lemma SealChanges(s: State, r: RequestId, decodes: bool)
    requires Enabled(s, Advance(r, decodes)) && s.requests[r].phase.Blacklisting? && 1 <= s.days
    ensures var s', t, pair := Step(s, r, decodes), s.requests[r].token, s.requests[r].phase.pair;
      && s'.sealed == s.sealed[pair := s.now]
      && s'.blacklist == s.blacklist[t := Entry("used", s.now + s.days * DAY)]
      && s'.requests[r].phase.Releasing?
  {
    hide Lookup, RemoveIfValue;
  }

  lemma SealKeepsAwaited(s: State, r: RequestId, decodes: bool)
    requires UnsealedAwaited(s) && 1 <= s.days && Enabled(s, Advance(r, decodes)) && s.requests[r].phase.Blacklisting?
    ensures UnsealedAwaited(Step(s, r, decodes))
  {
    StepMoves(s, r, decodes);
    SealChanges(s, r, decodes);
    SameChildren(s, Step(s, r, decodes));
    hide Step, IsChild, NextPhase;
  }

  /** Sealing pair for token t, now. */
  lemma SealingKeepsCovered(s: State, s': State, pair: PairId, t: Token)
    requires SealsCovered(s) && 0 <= s.now == s'.now && 1 <= s.days == s'.days && |s'.issued| == |s.issued|
    requires forall i: PairId, x: Token :: IsChild(s', i, x) <==> IsChild(s, i, x)
    requires (forall x: Token :: IsChild(s, pair, x) <==> x == t) && pair < |s.issued| && pair !in s.sealed
    requires s'.sealed == s.sealed[pair := s.now]
    requires s'.blacklist == s.blacklist[t := Entry("used", s.now + s.days * DAY)]
    ensures SealsCovered(s')
  {
    hide IsChild;
    forall x | x in s'.blacklist
      ensures Earned(s', x)
    {
      if x == t {
        assert IsChild(s', pair, t) && LapseOf(s', pair) == s'.blacklist[t].expiresAt;
      } else {
        var i: PairId :| IsChild(s, i, x) && i in s.sealed && LapseOf(s, i) == s.blacklist[x].expiresAt;
        assert IsChild(s', i, x) && i != pair;
      }
    }
    hide Earned;
  }

  lemma SealKeepsCovered(s: State, r: RequestId, decodes: bool)
    requires Accounted(s) && Enabled(s, Advance(r, decodes)) && s.requests[r].phase.Blacklisting?
    ensures SealsCovered(Step(s, r, decodes))
  {
    var s', t, pair := Step(s, r, decodes), s.requests[r].token, s.requests[r].phase.pair;
    StepMoves(s, r, decodes);
    SealChanges(s, r, decodes);
    SameChildren(s, s');
    assert pair !in s.sealed && forall x: Token :: IsChild(s, pair, x) <==> x == t;
    ChildIsIssued(s);
    hide Step, IsChild, NextPhase, UnsealedAwaited, SealsCovered;
    SealingKeepsCovered(s, s', pair, t);
  }

  lemma SealKeepsAccounted(s: State, r: RequestId, decodes: bool)
    requires Accounted(s) && Enabled(s, Advance(r, decodes)) && s.requests[r].phase.Blacklisting?
    ensures Accounted(Step(s, r, decodes))
  {
    SealKeepsAwaited(s, r, decodes);
    SealKeepsCovered(s, r, decodes);
    StepMoves(s, r, decodes);
    hide Step, NextPhase, UnsealedAwaited, SealsCovered;
  }

  /** Only a mint leads to the blacklist write. */
  lemma NotYetBlacklisting(s: State, r: RequestId, decodes: bool)
    requires Enabled(s, Advance(r, decodes)) && !s.requests[r].phase.Rotating?
    ensures !NextPhase(s, r, decodes).Blacklisting?
  {
    hide Lookup;
  }

  lemma QuietStep(s: State, r: RequestId, decodes: bool)
    requires Enabled(s, Advance(r, decodes)) && !s.requests[r].phase.Rotating? && !s.requests[r].phase.Blacklisting?
    ensures Step(s, r, decodes).sealed == s.sealed && Step(s, r, decodes).blacklist == s.blacklist
  {
    hide NextPhase, Lookup, Put, RemoveIfValue;
  }

  /** A step that leaves pairs, seals and blacklist alone, and of the requests those that are to blacklist. */
  lemma SameAccounts(s: State, s': State)
    requires Accounted(s) && s.now <= s'.now && s'.days == s.days
    requires forall i: PairId, t: Token :: IsChild(s', i, t) <==> IsChild(s, i, t)
    requires s.issued <= s'.issued && forall i: PairId :: i < |s'.issued| ==> s'.issued[i].at <= s'.now
    requires s'.sealed == s.sealed && s'.blacklist == s.blacklist
    requires forall r :: r in s'.requests && s'.requests[r].phase.Blacklisting? ==>
      r in s.requests && s'.requests[r] == s.requests[r]
    requires forall r :: r in s.requests && s.requests[r].phase.Blacklisting? ==>
      r in s'.requests && s'.requests[r] == s.requests[r]
    ensures Accounted(s')
  {
    ChildIsIssued(s);
    hide IsChild;
    forall t | t in s'.blacklist
      ensures Earned(s', t)
    {
      var i: PairId :| IsChild(s, i, t) && i in s.sealed && LapseOf(s, i) == s.blacklist[t].expiresAt;
      assert IsChild(s', i, t);
    }
  }

  lemma NextKeepsAccounted(s: State, e: Event)
    requires Accounted(s) && Enabled(s, e)
    ensures Accounted(Next(s, e))
  {
    match e
    case Advance(r, decodes) =>
      if s.requests[r].phase.Rotating? {
        MintKeepsAccounted(s, r, decodes);
      } else if s.requests[r].phase.Blacklisting? {
        SealKeepsAccounted(s, r, decodes);
      } else {
        StepMoves(s, r, decodes);
        QuietStep(s, r, decodes);
        NotYetBlacklisting(s, r, decodes);
        SameChildren(s, Step(s, r, decodes));
        hide Step, NextPhase, IsChild, UnsealedAwaited, SealsCovered;
        SameAccounts(s, Step(s, r, decodes));
      }
    case LogIn(u) =>
      assert forall i: PairId, t: Token :: IsChild(Next(s, e), i, t) <==> IsChild(s, i, t);
      hide IsChild, UnsealedAwaited, SealsCovered;
      SameAccounts(s, Next(s, e));
    case _ =>
      SameChildren(s, Next(s, e));
      hide IsChild, UnsealedAwaited, SealsCovered;
      SameAccounts(s, Next(s, e));
  }

  // ----- When a mint keeps the pairs apart -----

  /** The blacklist entries of all earlier pairs of the token are written and lapsed. */
  ghost predicate AllLapsed(s: State, t: Token) {
    forall i: PairId :: IsChild(s, i, t) ==> i in s.sealed && LapseOf(s, i) <= s.now
  }

  /** And that is what the look-up tells. */
  lemma LookupTells(s: State, t: Token)
    requires Accounted(s)
    ensures Unspoken(s, t) <==> AllLapsed(s, t)
  {
    hide IsChild;
    if AllLapsed(s, t) && t in s.blacklist {
      var i: PairId :| IsChild(s, i, t) && i in s.sealed && LapseOf(s, i) == s.blacklist[t].expiresAt;
    }
  }

  /** What a step that mints nothing does to the tree: it may seal one pair, now. */
  ghost predicate SameTreeSealed(s: State, s': State) {
    && s'.days == s.days
    && (forall i: PairId, t: Token :: IsChild(s', i, t) <==> IsChild(s, i, t))
    && (forall i: PairId :: i < |s.issued| ==> i < |s'.issued| && s'.issued[i] == s.issued[i])
    && (forall i :: i in s.sealed ==> i in s'.sealed && s'.sealed[i] == s.sealed[i])
    && (forall i :: i in s'.sealed && i !in s.sealed ==> s'.sealed[i] == s.now)
  }

  lemma OthersLeaveTree(s: State, e: Event)
    requires Accounted(s) && Enabled(s, e) && !Mints(s, e)
    ensures SameTreeSealed(s, Next(s, e))
  {
    match e
    case Advance(r, decodes) =>
      StepMoves(s, r, decodes);
      SameChildren(s, Step(s, r, decodes));
      if s.requests[r].phase.Blacklisting? {
        SealChanges(s, r, decodes);
      } else {
        QuietStep(s, r, decodes);
      }
      hide Step, IsChild, NextPhase;
    case LogIn(u) =>
    case _ => SameChildren(s, Next(s, e));
  }

  lemma OthersKeepApartExactly(s: State, e: Event)
    requires Accounted(s) && Enabled(s, e) && !Mints(s, e)
    ensures ChildrenApart(Next(s, e)) <==> ChildrenApart(s)
  {
    OthersLeaveTree(s, e);
    ChildIsIssued(s);
    hide Next, IsChild;
    var s' := Next(s, e);
    if ChildrenApart(s') {
      forall i: PairId, j: PairId, t: Token | IsChild(s, i, t) && IsChild(s, j, t) && i < j
        ensures i in s.sealed && LapseOf(s, i) <= s.issued[j].at
      {
        assert IsChild(s', i, t) && IsChild(s', j, t);
      }
    }
  }

  /** A mint keeps the pairs apart exactly when it is free. */
  lemma MintKeepsApartExactly(s: State, e: Event)
    requires Accounted(s) && Enabled(s, e) && Mints(s, e)
    ensures ChildrenApart(Next(s, e)) <==> ChildrenApart(s) && MintsFreely(s, e)
  {
    var Advance(r, decodes) := e;
    var s', t := Next(s, e), s.requests[r].token;
    LookupTells(s, t);
    RotatingAddsChild(s, r, decodes);
    MintChanges(s, r, decodes);
    ChildIsIssued(s);
    hide Next, Step, IsChild, Accounted, Unspoken;
    if ChildrenApart(s') {
      forall i: PairId, j: PairId, x: Token | IsChild(s, i, x) && IsChild(s, j, x) && i < j
        ensures i in s.sealed && LapseOf(s, i) <= s.issued[j].at
      {
        assert IsChild(s', i, x) && IsChild(s', j, x);
      }
      forall i: PairId | IsChild(s, i, t)
        ensures i in s.sealed && LapseOf(s, i) <= s.now
      {
        assert IsChild(s', i, t) && IsChild(s', |s.issued|, t);
      }
    }
  }

  lemma {:induction false} ApartExactly(s: State, es: seq<Event>, s': State)
    requires Accounted(s) && Leads(s, es, s')
    ensures ChildrenApart(s') <==> ChildrenApart(s) && AllMintFreely(s, es, s')
    decreases |es|
  {
    hide ChildrenApart, Accounted, Unspoken, Next, Enabled;
    if es != [] {
      NextKeepsAccounted(s, es[0]);
      ApartExactly(Next(s, es[0]), es[1..], s');
      if Mints(s, es[0]) {
        MintKeepsApartExactly(s, es[0]);
      } else {
        OthersKeepApartExactly(s, es[0]);
      }
    }
  }

  /** Over every run, on time or not: each token gets a second pair only after the blacklist entry of the first has
      lapsed, exactly when every rotation happens while the token is not blacklisted and nobody is about to do it. */
  lemma SafeExactlyWhenMintsAreFree(s0: State, es: seq<Event>, s: State)
    requires Initial(s0) && Leads(s0, es, s)
    ensures (forall i: PairId, j: PairId, t: Token :: IsChild(s, i, t) && IsChild(s, j, t) && i < j ==>
               i in s.sealed && LapseOf(s, i) <= s.issued[j].at) <==> AllMintFreely(s0, es, s)
  {
    ApartExactly(s0, es, s);
  }
}
