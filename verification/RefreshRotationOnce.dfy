/** How many pairs one refresh token is ever good for, its own expiry taken into account. */
module RefreshRotationOnce {
  import opened ExpiringMap
  import opened RefreshRotation
  import opened RefreshRotationProofs

  /** Tokens are signed before they are used. */
  ghost predicate SecondsPast(s: State) {
    && (forall i: PairId :: i < |s.issued| ==> s.issued[i].token.second <= s.now / 1000)
    && (forall r :: r in s.requests ==>
      && s.requests[r].token.second <= s.now / 1000
      && (s.requests[r].phase.Rotating? ==> s.requests[r].phase.signed.second <= s.now / 1000))
    && (forall i: PairId, t: Token :: IsChild(s, i, t) ==> t.second <= s.issued[i].at / 1000)
  }

  ghost predicate PastExpiry(s: State, r: RequestId) {
    Fresh(s, r) && (s.requests[r].phase.Signing? || s.requests[r].phase.Rotating?)
  }

  /** A fresh holder whose token had not expired found every earlier child sealed in the second of the signing. */
  ghost predicate EarlierInTime(s: State) {
    forall r: RequestId, i: PairId :: PastExpiry(s, r) && IsChild(s, i, s.requests[r].token) ==>
      i in s.sealed && s.sealed[i] / 1000 <= s.requests[r].token.second
  }

  ghost predicate SiblingsInTime(s: State) {
    forall i: PairId, j: PairId, t: Token :: IsChild(s, i, t) && IsChild(s, j, t) && i < j ==>
      i in s.sealed && s.sealed[i] / 1000 <= t.second
  }

  // ----- Tokens are signed before they are used -----

  lemma MintKeepsSeconds(s: State, r: RequestId, decodes: bool)
    requires SecondsPast(s) && Enabled(s, Advance(r, decodes)) && s.requests[r].phase.Rotating?
    ensures SecondsPast(Step(s, r, decodes))
  {
    RotatingAddsChild(s, r, decodes);
    hide IsChild, Lookup, Put, RemoveIfValue;
  }

  lemma StepKeepsSeconds(s: State, r: RequestId, decodes: bool)
    requires SecondsPast(s) && Enabled(s, Advance(r, decodes)) && !s.requests[r].phase.Rotating?
    ensures SecondsPast(Step(s, r, decodes))
  {
    StepMoves(s, r, decodes);
    SameChildren(s, Step(s, r, decodes));
    SignedNow(s, r, decodes);
    hide Step, IsChild, NextPhase;
  }

  lemma SignedNow(s: State, r: RequestId, decodes: bool)
    requires Enabled(s, Advance(r, decodes)) && !s.requests[r].phase.Rotating?
    ensures NextPhase(s, r, decodes).Rotating? ==> NextPhase(s, r, decodes).signed.second == s.now / 1000
  {
    hide Lookup;
  }

  lemma NextKeepsSeconds(s: State, e: Event)
    requires SecondsPast(s) && Enabled(s, e)
    ensures SecondsPast(Next(s, e))
  {
    hide Step;
    match e
    case Advance(r, decodes) =>
      if s.requests[r].phase.Rotating? {
        MintKeepsSeconds(s, r, decodes);
      } else {
        StepKeepsSeconds(s, r, decodes);
      }
    case LogIn(u) =>
      assert forall i: PairId, t: Token :: IsChild(Next(s, e), i, t) <==> IsChild(s, i, t);
    case _ => SameChildren(s, Next(s, e));
  }

  // ----- The expiry test -----

  /** What has lapsed before the token expires was written in the second the token was signed, or before. */
  lemma LapsedBeforeExpiry(sealed: int, days: int, now: int, second: int)
    requires 0 <= sealed && sealed + days * DAY <= now && now / 1000 <= second + days * DAY_SECONDS
    ensures sealed / 1000 <= second
  {
    assert (sealed + days * DAY) / 1000 == sealed / 1000 + days * DAY_SECONDS;
  }

  /** A holder whose token has not expired finds its earlier children sealed in time. */
  lemma UnexpiredInTime(s: State, r: RequestId)
    requires ClearToMint(s) && SealsValid(s) && ChildrenValid(s) && PastBlacklist(s, r)
    requires !Expired(s, s.requests[r].token)
    ensures forall i: PairId :: IsChild(s, i, s.requests[r].token) ==>
      i in s.sealed && s.sealed[i] / 1000 <= s.requests[r].token.second
  {
    var t := s.requests[r].token;
    forall i: PairId | IsChild(s, i, t)
      ensures i in s.sealed && s.sealed[i] / 1000 <= t.second
    {
      LapsedBeforeExpiry(s.sealed[i], s.days, s.now, t.second);
    }
  }

  lemma LoadingMovesOn(s: State, r: RequestId, decodes: bool)
    requires Enabled(s, Advance(r, decodes)) && s.requests[r].phase.LoadingUser?
    ensures Step(s, r, decodes).sealed == s.sealed
    ensures var p := NextPhase(s, r, decodes); p.Signing? || p.Rotating? ==>
      !Expired(s, s.requests[r].token) && p.since == s.requests[r].phase.since
  {
    hide Lookup, Put, RemoveIfValue;
  }

  /** One request at most gets past the expiry test, and it does so in time. */
  lemma MovingKeepsEarlier(s: State, s': State, r: RequestId)
    requires EarlierInTime(s) && s'.sealed == s.sealed
    requires forall i: PairId, x: Token :: IsChild(s', i, x) <==> IsChild(s, i, x)
    requires forall r' :: r' != r && PastExpiry(s', r') ==> PastExpiry(s, r') && s'.requests[r'] == s.requests[r']
    requires PastExpiry(s', r) ==> forall i: PairId :: IsChild(s, i, s'.requests[r].token) ==>
      i in s.sealed && s.sealed[i] / 1000 <= s'.requests[r].token.second
    ensures EarlierInTime(s')
  {
    hide IsChild;
  }

  lemma LoadingKeepsEarlier(s: State, r: RequestId, decodes: bool)
    requires Inv(s) && EarlierInTime(s) && Enabled(s, Advance(r, decodes)) && s.requests[r].phase.LoadingUser?
    ensures EarlierInTime(Step(s, r, decodes))
  {
    var s' := Step(s, r, decodes);
    StepMoves(s, r, decodes);
    SameChildren(s, s');
    LoadingMovesOn(s, r, decodes);
    hide Step, IsChild, Expired, NextPhase, EarlierInTime;
    if PastExpiry(s', r) {
      UnexpiredInTime(s, r);
    }
    hide Inv;
    assert forall r' :: r' != r && PastExpiry(s', r') ==> PastExpiry(s, r') && s'.requests[r'] == s.requests[r'];
    hide PastExpiry;
    MovingKeepsEarlier(s, s', r);
  }

  /** Nobody but the minter is a fresh holder of the token. */
  lemma MintKeepsEarlier(s: State, r: RequestId, decodes: bool)
    requires LocksValid(s) && RequestsValid(s) && EarlierInTime(s) && Fresh(s, r)
    requires Enabled(s, Advance(r, decodes)) && s.requests[r].phase.Rotating?
    ensures EarlierInTime(Step(s, r, decodes))
  {
    var s' := Step(s, r, decodes);
    RotatingAddsChild(s, r, decodes);
    MintChanges(s, r, decodes);
    RotatingKeepsLocks(s, r, decodes);
    assert s'.sealed == s.sealed;
    hide Step, IsChild;
    forall r': RequestId, i: PairId | PastExpiry(s', r') && IsChild(s', i, s'.requests[r'].token)
      ensures i in s'.sealed && s'.sealed[i] / 1000 <= s'.requests[r'].token.second
    {
      assert r' != r && PastExpiry(s, r');
      if i == |s.issued| {
        OneFreshHolder(s, r, r');
      }
    }
  }

  lemma MintKeepsSiblings(s: State, r: RequestId, decodes: bool)
    requires EarlierInTime(s) && SiblingsInTime(s) && Fresh(s, r)
    requires Enabled(s, Advance(r, decodes)) && s.requests[r].phase.Rotating?
    ensures SiblingsInTime(Step(s, r, decodes))
  {
    RotatingAddsChild(s, r, decodes);
    assert Step(s, r, decodes).sealed == s.sealed && PastExpiry(s, r);
    ChildIsIssued(s);
    hide Step, IsChild;
  }

  /** A pair is sealed while it is the last of its token and nobody is past the expiry test. */
  lemma NobodyPastExpiry(s: State, r: RequestId)
    requires ClearToMint(s) && MintersValid(s) && ChildrenApart(s) && RotationValid(s)
    requires r in s.requests && s.requests[r].phase.Blacklisting?
    ensures var t, pair := s.requests[r].token, s.requests[r].phase.pair;
      && pair !in s.sealed
      && (forall t': Token :: IsChild(s, pair, t') <==> t' == t)
      && (forall j: PairId :: IsChild(s, j, t) ==> j <= pair)
      && (forall r' :: PastExpiry(s, r') ==> s.requests[r'].token != t)
  {
    MinterIsLast(s, r);
    assert forall r' :: PastExpiry(s, r') ==> PastBlacklist(s, r');
  }

  lemma SealMovesOn(s: State, r: RequestId, decodes: bool)
    requires Enabled(s, Advance(r, decodes)) && s.requests[r].phase.Blacklisting?
    ensures var s' := Step(s, r, decodes);
      s'.sealed == s.sealed[s.requests[r].phase.pair := s.now] && NextPhase(s, r, decodes).Releasing?
  {
    hide Lookup, Put, RemoveIfValue;
  }

  /** Sealing the last pair of token t. */
  lemma SealingKeepsSiblings(s: State, s': State, pair: PairId, t: Token)
    requires SiblingsInTime(s) && pair !in s.sealed && s'.sealed == s.sealed[pair := s.now]
    requires forall i: PairId, x: Token :: IsChild(s', i, x) <==> IsChild(s, i, x)
    requires (forall x: Token :: IsChild(s, pair, x) <==> x == t) && forall j: PairId :: IsChild(s, j, t) ==> j <= pair
    ensures SiblingsInTime(s')
  {
    hide IsChild;
  }

  lemma SealingKeepsEarlier(s: State, s': State, pair: PairId, t: Token)
    requires EarlierInTime(s) && s'.sealed == s.sealed[pair := s.now]
    requires forall i: PairId, x: Token :: IsChild(s', i, x) <==> IsChild(s, i, x)
    requires forall x: Token :: IsChild(s, pair, x) <==> x == t
    requires forall r :: PastExpiry(s, r) ==> s.requests[r].token != t
    requires forall r :: PastExpiry(s', r) ==> PastExpiry(s, r) && s'.requests[r] == s.requests[r]
    ensures EarlierInTime(s')
  {
    hide IsChild;
  }

  lemma SealKeepsInTime(s: State, r: RequestId, decodes: bool)
    requires Inv(s) && EarlierInTime(s) && SiblingsInTime(s)
    requires Enabled(s, Advance(r, decodes)) && s.requests[r].phase.Blacklisting?
    ensures EarlierInTime(Step(s, r, decodes)) && SiblingsInTime(Step(s, r, decodes))
  {
    var s' := Step(s, r, decodes);
    NobodyPastExpiry(s, r);
    StepMoves(s, r, decodes);
    SealMovesOn(s, r, decodes);
    SameChildren(s, s');
    hide Step, IsChild, Inv, NextPhase, EarlierInTime, SiblingsInTime;
    assert forall r' :: PastExpiry(s', r') ==> PastExpiry(s, r') && s'.requests[r'] == s.requests[r'];
    hide PastExpiry;
    SealingKeepsSiblings(s, s', s.requests[r].phase.pair, s.requests[r].token);
    SealingKeepsEarlier(s, s', s.requests[r].phase.pair, s.requests[r].token);
  }

  /** The other steps of a request leave both as they are. */
  lemma StepKeepsInTime(s: State, r: RequestId, decodes: bool)
    requires RequestsValid(s) && EarlierInTime(s) && SiblingsInTime(s) && Enabled(s, Advance(r, decodes))
    requires var p := s.requests[r].phase; !p.LoadingUser? && !p.Rotating? && !p.Blacklisting?
    ensures EarlierInTime(Step(s, r, decodes)) && SiblingsInTime(Step(s, r, decodes))
  {
    var s' := Step(s, r, decodes);
    StepMoves(s, r, decodes);
    SameChildren(s, s');
    NotPastExpiryYet(s, r, decodes);
    assert s'.now == s.now && s'.sealed == s.sealed;
    hide Step, IsChild, NextPhase;
    assert forall r' :: PastExpiry(s', r') ==> PastExpiry(s, r') && s'.requests[r'].token == s.requests[r'].token;
  }

  lemma NotPastExpiryYet(s: State, r: RequestId, decodes: bool)
    requires Enabled(s, Advance(r, decodes)) && !s.requests[r].phase.LoadingUser?
    ensures var p := NextPhase(s, r, decodes); p.Signing? || p.Rotating? ==>
      s.requests[r].phase.Signing? && p.since == s.requests[r].phase.since
  {
    hide Lookup;
  }

  lemma OthersKeepInTime(s: State, e: Event)
    requires EarlierInTime(s) && SiblingsInTime(s) && Enabled(s, e) && !e.Advance?
    ensures EarlierInTime(Next(s, e)) && SiblingsInTime(Next(s, e))
  {
    var s' := Next(s, e);
    assert forall i: PairId, t: Token :: IsChild(s', i, t) <==> IsChild(s, i, t);
    assert s'.sealed == s.sealed;
    assert forall r' :: PastExpiry(s', r') ==> PastExpiry(s, r') && s'.requests[r'] == s.requests[r'];
    hide IsChild, PastExpiry, Next;
  }

  ghost predicate InTime(s: State) {
    Inv(s) && SecondsPast(s) && EarlierInTime(s) && SiblingsInTime(s)
  }

  lemma NextKeepsInTime(s: State, e: Event)
    requires InTime(s) && Enabled(s, e) && OnTime(s, e)
    ensures InTime(Next(s, e))
  {
    NextKeepsInv(s, e);
    NextKeepsSeconds(s, e);
    if e.Advance? {
      var Advance(r, decodes) := e;
      var p := s.requests[r].phase;
      if p.Rotating? {
        MintKeepsEarlier(s, r, decodes);
        MintKeepsSiblings(s, r, decodes);
      } else if p.Blacklisting? {
        SealKeepsInTime(s, r, decodes);
      } else if p.LoadingUser? {
        LoadingKeepsEarlier(s, r, decodes);
        LoadingKeepsSiblings(s, r, decodes);
      } else {
        StepKeepsInTime(s, r, decodes);
      }
    } else {
      OthersKeepInTime(s, e);
    }
  }

  lemma LoadingKeepsSiblings(s: State, r: RequestId, decodes: bool)
    requires SiblingsInTime(s) && Enabled(s, Advance(r, decodes)) && s.requests[r].phase.LoadingUser?
    ensures SiblingsInTime(Step(s, r, decodes))
  {
    StepMoves(s, r, decodes);
    SameChildren(s, Step(s, r, decodes));
    assert Step(s, r, decodes).sealed == s.sealed;
    hide Step, IsChild;
  }

  lemma {:induction false} InTimeHolds(s: State, es: seq<Event>, s': State)
    requires InTime(s) && LeadsOnTime(s, es, s')
    ensures InTime(s')
    decreases |es|
  {
    hide InTime, Next, Enabled, OnTime;
    if es != [] {
      NextKeepsInTime(s, es[0]);
      InTimeHolds(Next(s, es[0]), es[1..], s');
    }
  }

  /** A refresh token is good for one pair ever, unless it was blacklisted in the very second it was signed. */
  lemma OnePairEver(s: State, t: Token, i: PairId, j: PairId)
    requires Reachable(s) && IsChild(s, i, t) && IsChild(s, j, t) && i < j
    ensures i in s.sealed && s.sealed[i] / 1000 == t.second
  {
    var s0: State, es: seq<Event> :| Initial(s0) && LeadsOnTime(s0, es, s);
    InTimeHolds(s0, es, s);
  }

  /** And then for two. */
  lemma NeverThreePairs(s: State, t: Token, i: PairId, j: PairId, k: PairId)
    requires Reachable(s) && i < j < k
    ensures !(IsChild(s, i, t) && IsChild(s, j, t) && IsChild(s, k, t))
  {
    if IsChild(s, i, t) && IsChild(s, j, t) && IsChild(s, k, t) {
      ReachableIsValid(s);
      OnePairPerBlacklisting(s, t, i, j);
      OnePairEver(s, t, i, j);
      OnePairEver(s, t, j, k);
      assert false;
    }
  }
}
