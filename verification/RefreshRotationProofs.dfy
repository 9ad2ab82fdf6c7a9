/** Safety of refresh-token rotation over every interleaving. */
module RefreshRotationProofs {
  import opened Options
  import opened ExpiringMap
  import opened RefreshRotation

  // ----- The invariant -----

  ghost predicate IsChild(s: State, i: PairId, t: Token) {
    i < |s.issued| && s.issued[i].origin.Refreshed? && s.issued[i].origin.from == t
  }

  predicate Holding(p: Phase) {
    || p.Rechecking? || p.CheckingBlacklist? || p.ReplayingUsed? || p.LoadingUser? || p.Signing? || p.Rotating?
    || p.Blacklisting?
  }

  /** Request r took the lock and it has not run out yet. */
  ghost predicate Fresh(s: State, r: RequestId) {
    r in s.requests && Holding(s.requests[r].phase) && s.now < s.requests[r].phase.since + LOCK_TTL
  }

  /** When the blacklist entry written for child i runs out. */
  function LapseOf(s: State, i: PairId): int
    requires i in s.sealed
  {
    s.sealed[i] + s.days * DAY
  }

  ghost predicate RequestsValid(s: State) {
    forall r :: r in s.requests ==>
      var q := s.requests[r];
      && 0 <= q.startedAt <= s.now
      && (Holding(q.phase) ==> q.startedAt <= q.phase.since <= s.now)
  }

  ghost predicate LocksValid(s: State) {
    forall r :: Fresh(s, r) ==>
      var q := s.requests[r];
      q.token in s.locks && s.locks[q.token] == Entry(r, q.phase.since + LOCK_TTL)
  }

  ghost predicate ChildrenValid(s: State) {
    forall i: PairId, t: Token :: IsChild(s, i, t) ==>
      && 0 <= s.issued[i].at <= s.now
      && s.issued[i].token.user == t.user && s.issued[i].token.version <= t.version
  }

  /** A second child is minted only once the blacklist entry of the first has run out. */
  ghost predicate ChildrenApart(s: State) {
    forall i: PairId, j: PairId, t: Token :: IsChild(s, i, t) && IsChild(s, j, t) && i < j ==>
      i in s.sealed && LapseOf(s, i) <= s.issued[j].at
  }

  ghost predicate RotationValid(s: State) {
    && (forall i: PairId, t: Token :: IsChild(s, i, t) ==> t in s.rotation && i <= s.rotation[t].value)
    && (forall t :: t in s.rotation ==>
      && IsChild(s, s.rotation[t].value, t)
      && s.rotation[t].expiresAt == s.issued[s.rotation[t].value].at + ROTATION_TTL)
  }

  ghost predicate SealsValid(s: State) {
    && (forall i :: i in s.sealed ==> i < |s.issued| && s.issued[i].origin.Refreshed?)
    && (forall i: PairId, t: Token :: IsChild(s, i, t) && i in s.sealed ==>
      && s.issued[i].at <= s.sealed[i] <= s.now
      && (t in s.rotation && s.rotation[t].value == i ==>
        t in s.blacklist && s.blacklist[t].expiresAt == LapseOf(s, i)))
  }

  /** A pair whose parent is not blacklisted yet has its minter about to do it, and its replay entry still lives. */
  ghost predicate MintersValid(s: State) {
    && (forall i: PairId, t: Token :: IsChild(s, i, t) && i !in s.sealed ==>
      var r := s.issued[i].origin.minter;
      && r in s.requests && s.requests[r].token == t && s.now < s.issued[i].at + ROTATION_TTL
      && s.requests[r].phase.Blacklisting? && s.requests[r].phase.pair == i)
    && (forall r :: r in s.requests && s.requests[r].phase.Blacklisting? ==>
      var q := s.requests[r];
      && IsChild(s, q.phase.pair, q.token) && q.phase.pair !in s.sealed
      && s.issued[q.phase.pair].origin.minter == r
      && q.startedAt <= s.issued[q.phase.pair].at)
  }

  ghost predicate PastReplay(s: State, r: RequestId) {
    Fresh(s, r) && s.requests[r].phase.CheckingBlacklist?
  }

  /** A fresh holder that found no replay entry has every earlier child's blacklist entry written. */
  ghost predicate SealedBeforeCheck(s: State) {
    forall r: RequestId, i: PairId :: PastReplay(s, r) && IsChild(s, i, s.requests[r].token) ==> i in s.sealed
  }

  ghost predicate PastBlacklist(s: State, r: RequestId) {
    Fresh(s, r) && var p := s.requests[r].phase; p.LoadingUser? || p.Signing? || p.Rotating?
  }

  /** A fresh holder past the blacklist test has every earlier child's entry behind it. */
  ghost predicate ClearToMint(s: State) {
    forall r: RequestId, i: PairId :: PastBlacklist(s, r) && IsChild(s, i, s.requests[r].token) ==>
      i in s.sealed && LapseOf(s, i) <= s.now
  }

  ghost predicate AnswerValid(s: State, q: Request, a: Answer) {
    a.Granted? ==>
      && IsChild(s, a.pair, q.token) && q.startedAt <= a.at <= s.now
      && s.issued[a.pair].at <= a.at < s.issued[a.pair].at + ROTATION_TTL
  }

  ghost predicate AnswersValid(s: State) {
    forall r :: r in s.requests && (s.requests[r].phase.Releasing? || s.requests[r].phase.Answered?) ==>
      AnswerValid(s, s.requests[r], s.requests[r].phase.answer)
  }

  /** No version above that of the token that is refreshed. */
  ghost predicate ReadVersionValid(q: Request) {
    && (q.phase.Signing? ==> q.phase.version <= q.token.version)
    && (q.phase.Rotating? ==> q.phase.signed.user == q.token.user && q.phase.signed.version <= q.token.version)
  }

  ghost predicate ReadsValid(s: State) {
    forall r :: r in s.requests ==> ReadVersionValid(s.requests[r])
  }

  /** Who holds locks, and what that entitles them to. */
  ghost predicate Holders(s: State) {
    RequestsValid(s) && LocksValid(s) && MintersValid(s) && SealedBeforeCheck(s) && ClearToMint(s)
  }

  /** The family tree of pairs, with the cache entries that belong to it. */
  ghost predicate Tree(s: State) {
    ChildrenValid(s) && ChildrenApart(s) && RotationValid(s) && SealsValid(s)
  }

  ghost predicate Inv(s: State) {
    && 0 <= s.now && 1 <= s.days <= 30
    && Holders(s) && Tree(s) && AnswersValid(s) && ReadsValid(s)
  }

  /** Two unexpired holds of one token's lock are the same hold. */
  lemma OneFreshHolder(s: State, r: RequestId, r': RequestId)
    requires LocksValid(s) && Fresh(s, r) && Fresh(s, r') && s.requests[r].token == s.requests[r'].token
    ensures r == r'
  {
  }

  // ----- Steps that leave the tree alone -----

  ghost predicate SameTree(s: State, s': State) {
    && s'.issued == s.issued && s'.sealed == s.sealed && s'.rotation == s.rotation
    && s'.blacklist == s.blacklist && s'.days == s.days && s.now <= s'.now
  }

  lemma SameChildren(s: State, s': State)
    requires s'.issued == s.issued
    ensures forall i: PairId, t: Token :: IsChild(s', i, t) <==> IsChild(s, i, t)
  {
  }

  lemma ChildIsIssued(s: State)
    ensures forall i: PairId, t: Token :: IsChild(s, i, t) ==> i < |s.issued|
  {
  }

  lemma SameTreeStaysValid(s: State, s': State)
    requires Tree(s) && SameTree(s, s')
    ensures Tree(s')
  {
    SameChildren(s, s');
  }

  /** Only the request named, if any, changed, and it has no answer or a valid one. */
  lemma AnswersStayValid(s: State, s': State, changed: Option<RequestId>)
    requires AnswersValid(s) && s.issued <= s'.issued && s.now <= s'.now
    requires forall r :: r in s'.requests && changed != Some(r) ==> r in s.requests && s'.requests[r] == s.requests[r]
    requires changed.Some? && changed.value in s'.requests ==>
      var q := s'.requests[changed.value];
      q.phase.Releasing? || q.phase.Answered? ==> AnswerValid(s', q, q.phase.answer)
    ensures AnswersValid(s')
  {
    assert forall i: PairId, t: Token :: IsChild(s, i, t) ==> IsChild(s', i, t);
  }

  lemma SameRequestsKeepAnswers(s: State, s': State)
    requires AnswersValid(s) && RequestsValid(s) && SameTree(s, s') && s'.requests == s.requests
    ensures AnswersValid(s') && RequestsValid(s')
  {
    SameChildren(s, s');
  }

  lemma SameRequestsKeepHolders(s: State, s': State)
    requires Holders(s) && SameTree(s, s') && s'.requests == s.requests && s'.now == s.now
    requires forall r :: Fresh(s, r) ==>
      s.requests[r].token in s'.locks &&
      (s.requests[r].token in s.locks ==> s'.locks[s.requests[r].token] == s.locks[s.requests[r].token])
    ensures Holders(s')
  {
    assert forall r :: Fresh(s', r) <==> Fresh(s, r);
    SameChildren(s, s');
  }

  /** Who was cleared stays cleared, while no child is added and nobody else gets that far. */
  lemma ClearanceKept(s: State, s': State)
    requires SealedBeforeCheck(s) && ClearToMint(s)
    requires s.now <= s'.now && s'.days == s.days
    requires forall i: PairId, t: Token :: IsChild(s', i, t) ==> IsChild(s, i, t)
    requires forall i :: i in s.sealed ==> i in s'.sealed && s'.sealed[i] == s.sealed[i]
    requires forall r :: PastReplay(s', r) ==> PastReplay(s, r) && s'.requests[r].token == s.requests[r].token
    requires forall r :: PastBlacklist(s', r) ==> PastBlacklist(s, r) && s'.requests[r].token == s.requests[r].token
    ensures SealedBeforeCheck(s') && ClearToMint(s')
  {
  }

  lemma TickKeepsInv(s: State, to: int)
    requires Inv(s) && Enabled(s, Tick(to)) && OnTime(s, Tick(to))
    ensures Inv(Next(s, Tick(to)))
  {
    var s' := Next(s, Tick(to));
    SameTreeStaysValid(s, s');
    SameRequestsKeepAnswers(s, s');
    TickKeepsHolders(s, to);
  }

  lemma TickKeepsHolders(s: State, to: int)
    requires Holders(s) && Enabled(s, Tick(to)) && OnTime(s, Tick(to))
    ensures Holders(Next(s, Tick(to)))
  {
    var s' := Next(s, Tick(to));
    assert forall r :: Fresh(s', r) ==> Fresh(s, r);
    SameChildren(s, s');
    ClearanceKept(s, s');
    hide SealedBeforeCheck, ClearToMint, PastReplay, PastBlacklist;
    assert MintersValid(s');
  }

  lemma AccountsKeepInv(s: State, e: Event)
    requires Inv(s) && Enabled(s, e) && (e.LoadForRevoke? || e.CommitRevoke? || e.RemoveUser?)
    ensures Inv(Next(s, e))
  {
    var s' := Next(s, e);
    SameTreeStaysValid(s, s');
    SameRequestsKeepAnswers(s, s');
    SameRequestsKeepHolders(s, s');
    AccountsKeepReads(s, e);
  }

  lemma AccountsKeepReads(s: State, e: Event)
    requires ReadsValid(s) && Enabled(s, e) && (e.LoadForRevoke? || e.CommitRevoke? || e.RemoveUser?)
    ensures ReadsValid(Next(s, e))
  {
  }

  lemma BeginKeepsInv(s: State, r: RequestId, t: Token)
    requires Inv(s) && Enabled(s, Begin(r, t))
    ensures Inv(Next(s, Begin(r, t)))
  {
    var s' := Next(s, Begin(r, t));
    SameTreeStaysValid(s, s');
    AnswersStayValid(s, s', Some(r));
    BeginKeepsHolders(s, r, t);
  }

  lemma BeginKeepsHolders(s: State, r: RequestId, t: Token)
    requires Holders(s) && 0 <= s.now && Enabled(s, Begin(r, t))
    ensures Holders(Next(s, Begin(r, t)))
  {
    var s' := Next(s, Begin(r, t));
    assert forall r' :: Fresh(s', r') <==> Fresh(s, r');
    SameChildren(s, s');
    ClearanceKept(s, s');
    hide SealedBeforeCheck, ClearToMint, PastReplay, PastBlacklist;
    assert MintersValid(s');
  }

  // ----- Steps in which a request only moves on -----

  /** Request r may go to phase p without touching the cache. */
  ghost predicate MayMove(s: State, r: RequestId, p: Phase) {
    && r in s.requests
    && var q := s.requests[r];
    && !q.phase.Blacklisting? && !p.Blacklisting?
    && (Holding(p) ==> Holding(q.phase) && p.since == q.phase.since)
    && (p.CheckingBlacklist? && Fresh(s, r) ==> forall i: PairId :: IsChild(s, i, q.token) ==> i in s.sealed)
    && (p.LoadingUser? || p.Signing? || p.Rotating? ==>
      Fresh(s, r) ==> forall i: PairId :: IsChild(s, i, q.token) ==> i in s.sealed && LapseOf(s, i) <= s.now)
    && (p.Releasing? || p.Answered? ==> AnswerValid(s, q, p.answer))
    && ReadVersionValid(q.(phase := p))
  }

  lemma MoveKeepsMinters(s: State, r: RequestId, p: Phase)
    requires MintersValid(s) && MayMove(s, r, p)
    ensures MintersValid(Goto(s, r, p))
  {
    hide Fresh, ReadVersionValid, AnswerValid;
    SameChildren(s, Goto(s, r, p));
  }

  lemma MoveKeepsLocks(s: State, r: RequestId, p: Phase)
    requires RequestsValid(s) && LocksValid(s) && MayMove(s, r, p)
    ensures RequestsValid(Goto(s, r, p)) && LocksValid(Goto(s, r, p))
  {
    hide IsChild, ReadVersionValid, AnswerValid;
    assert forall r' :: Fresh(Goto(s, r, p), r') ==> Fresh(s, r');
  }

  lemma MoveKeepsClearance(s: State, r: RequestId, p: Phase)
    requires SealedBeforeCheck(s) && ClearToMint(s) && MayMove(s, r, p)
    ensures SealedBeforeCheck(Goto(s, r, p)) && ClearToMint(Goto(s, r, p))
  {
    hide ReadVersionValid, AnswerValid;
    var s' := Goto(s, r, p);
    assert forall r' :: Fresh(s', r') ==> Fresh(s, r');
    SameChildren(s, s');
    hide IsChild;
    forall r': RequestId, i: PairId | PastBlacklist(s', r') && IsChild(s', i, s'.requests[r'].token)
      ensures i in s'.sealed && LapseOf(s', i) <= s'.now
    {
      assert r' != r ==> PastBlacklist(s, r');
    }
    forall r': RequestId, i: PairId | PastReplay(s', r') && IsChild(s', i, s'.requests[r'].token)
      ensures i in s'.sealed
    {
      assert r' != r ==> PastReplay(s, r');
    }
  }

  lemma MoveKeepsAnswers(s: State, r: RequestId, p: Phase)
    requires AnswersValid(s) && ReadsValid(s) && MayMove(s, r, p)
    ensures AnswersValid(Goto(s, r, p)) && ReadsValid(Goto(s, r, p))
  {
    SameChildren(s, Goto(s, r, p));
    hide Fresh, IsChild;
  }

  lemma MoveKeepsInv(s: State, r: RequestId, p: Phase)
    requires Inv(s) && MayMove(s, r, p)
    ensures Inv(Goto(s, r, p))
  {
    SameTreeStaysValid(s, Goto(s, r, p));
    MoveKeepsMinters(s, r, p);
    MoveKeepsLocks(s, r, p);
    MoveKeepsClearance(s, r, p);
    MoveKeepsAnswers(s, r, p);
    hide RequestsValid, LocksValid, MintersValid, SealedBeforeCheck, ClearToMint, Tree, AnswersValid, ReadsValid;
  }

  lemma ReplayIsAnswer(s: State, r: RequestId)
    requires Inv(s) && r in s.requests
    ensures var replay := Lookup(s.rotation, s.requests[r].token, s.now);
      replay.Some? ==> AnswerValid(s, s.requests[r], Granted(replay.value, s.now))
  {
  }

  lemma WrittenMintsNothing(s: State, r: RequestId)
    requires r in s.requests && !s.requests[r].phase.Rotating?
    ensures var s' := Written(s, r);
      && s'.issued == s.issued && s'.rotation == s.rotation && s'.users == s.users && s'.requests == s.requests
      && s'.now == s.now && s'.days == s.days && s'.revocations == s.revocations
  {
    hide Lookup, Put, RemoveIfValue;
    match s.requests[r].phase
    case Locking =>
    case Blacklisting(_, _) =>
    case Releasing(_) =>
    case _ =>
  }

  lemma WrittenLeavesRequests(s: State, r: RequestId)
    requires r in s.requests
    ensures var s' := Written(s, r);
      && s.issued <= s'.issued && s'.users == s.users && s'.requests == s.requests
      && s'.now == s.now && s'.days == s.days && s'.revocations == s.revocations
  {
    if !s.requests[r].phase.Rotating? {
      WrittenMintsNothing(s, r);
      hide Written;
    } else {
      hide Lookup, Put;
    }
  }

  /** What no step of request r changes. */
  lemma StepLeavesOthers(s: State, r: RequestId, decodes: bool)
    requires r in s.requests
    ensures var s' := Step(s, r, decodes);
      && s.issued <= s'.issued && s'.users == s.users && s'.now == s.now && s'.days == s.days
      && s'.revocations == s.revocations
      && s'.requests == s.requests[r := s.requests[r].(phase := NextPhase(s, r, decodes))]
  {
    WrittenLeavesRequests(s, r);
    hide Written, NextPhase;
  }

  /** What a step of request r changes, short of minting. */
  lemma StepMoves(s: State, r: RequestId, decodes: bool)
    requires Enabled(s, Advance(r, decodes)) && !s.requests[r].phase.Rotating?
    ensures var s' := Step(s, r, decodes);
      && s'.issued == s.issued && s'.rotation == s.rotation && s'.users == s.users
      && s'.now == s.now && s'.days == s.days && s'.revocations == s.revocations
      && s'.requests == s.requests[r := s.requests[r].(phase := NextPhase(s, r, decodes))]
  {
    WrittenMintsNothing(s, r);
    hide NextPhase, Written;
  }

  lemma StepIsMove(s: State, r: RequestId, decodes: bool)
    requires Enabled(s, Advance(r, decodes))
    requires var p := s.requests[r].phase; !p.Locking? && !p.Rotating? && !p.Blacklisting? && !p.Releasing?
    ensures Step(s, r, decodes) == Goto(s, r, NextPhase(s, r, decodes))
  {
    hide NextPhase;
  }

  /** What it takes to wait, to try the lock, to go on to the blacklist or to answer. */
  lemma MayMoveOn(s: State, r: RequestId, p: Phase)
    requires r in s.requests && !s.requests[r].phase.Blacklisting?
    requires p.Locking? || p.Waiting? || p.CheckingBlacklist? || p.ReplayingUsed? || p.Releasing? || p.Answered?
    requires p.CheckingBlacklist? ==> forall i: PairId :: IsChild(s, i, s.requests[r].token) ==> i in s.sealed
    requires p.CheckingBlacklist? || p.ReplayingUsed? ==>
      Holding(s.requests[r].phase) && p.since == s.requests[r].phase.since
    requires p.Releasing? || p.Answered? ==> AnswerValid(s, s.requests[r], p.answer)
    ensures MayMove(s, r, p)
  {
    hide AnswerValid;
  }

  lemma LookingKeepsInv(s: State, r: RequestId, decodes: bool)
    requires Inv(s) && Enabled(s, Advance(r, decodes))
    requires var p := s.requests[r].phase; p.Replaying? || p.Waiting? || p.ReplayingUsed?
    ensures Inv(Step(s, r, decodes))
  {
    hide Inv, IsChild, Step, Goto, Lookup, MayMove;
    ReplayIsAnswer(s, r);
    StepIsMove(s, r, decodes);
    MayMoveOn(s, r, NextPhase(s, r, decodes));
    MoveKeepsInv(s, r, NextPhase(s, r, decodes));
  }

  /** A version that was read, or signed, is no newer than the token's and the user's. */
  lemma ReadingKeepsInv(s: State, r: RequestId, decodes: bool)
    requires Inv(s) && Enabled(s, Advance(r, decodes))
    requires s.requests[r].phase.LoadingUser? || s.requests[r].phase.Signing?
    ensures Inv(Step(s, r, decodes))
  {
    assert ReadVersionValid(s.requests[r]);
    assert Fresh(s, r) ==> PastBlacklist(s, r);
    hide RequestsValid, LocksValid, MintersValid, SealedBeforeCheck, Tree, AnswersValid, ReadsValid, IsChild;
    hide Step, Goto;
    StepIsMove(s, r, decodes);
    MoveKeepsInv(s, r, NextPhase(s, r, decodes));
  }

  /** Without a live replay entry every child was minted 300 s ago or more, and is sealed. */
  lemma NoReplayAllSealed(s: State, t: Token)
    requires RotationValid(s) && ChildrenApart(s) && MintersValid(s) && 0 <= s.now
    requires forall i: PairId :: IsChild(s, i, t) ==> 0 <= s.issued[i].at
    requires Lookup(s.rotation, t, s.now).None?
    ensures forall i: PairId :: IsChild(s, i, t) ==> i in s.sealed
  {
    forall i: PairId | IsChild(s, i, t)
      ensures i in s.sealed
    {
      assert t in s.rotation && i <= s.rotation[t].value;
    }
  }

  lemma RecheckingKeepsInv(s: State, r: RequestId, decodes: bool)
    requires Inv(s) && Enabled(s, Advance(r, decodes)) && s.requests[r].phase.Rechecking?
    ensures Inv(Step(s, r, decodes))
  {
    ReplayIsAnswer(s, r);
    if Lookup(s.rotation, s.requests[r].token, s.now).None? {
      NoReplayAllSealed(s, s.requests[r].token);
    }
    hide Inv, IsChild, Step, Goto, Lookup, MayMove;
    StepIsMove(s, r, decodes);
    MayMoveOn(s, r, NextPhase(s, r, decodes));
    MoveKeepsInv(s, r, NextPhase(s, r, decodes));
  }

  lemma CheckingKeepsInv(s: State, r: RequestId, decodes: bool)
    requires Inv(s) && Enabled(s, Advance(r, decodes)) && s.requests[r].phase.CheckingBlacklist?
    ensures Inv(Step(s, r, decodes))
  {
    var p := Step(s, r, decodes).requests[r].phase;
    var t := s.requests[r].token;
    if Fresh(s, r) && p.LoadingUser? {
      assert PastReplay(s, r);
      forall i: PairId | IsChild(s, i, t)
        ensures i in s.sealed && LapseOf(s, i) <= s.now
      {
        var last := s.rotation[t].value;
        assert IsChild(s, last, t) && i <= last;
      }
    }
    MoveKeepsInv(s, r, p);
  }

  lemma LockingKeepsInv(s: State, r: RequestId, decodes: bool)
    requires Inv(s) && Enabled(s, Advance(r, decodes)) && s.requests[r].phase.Locking?
    ensures Inv(Step(s, r, decodes))
  {
    var s' := Step(s, r, decodes);
    if Lookup(s.locks, s.requests[r].token, s.now).Some? {
      MoveKeepsInv(s, r, s'.requests[r].phase);
    } else {
      AcquiringKeepsInv(s, r, decodes);
    }
  }

  lemma AcquiringKeepsInv(s: State, r: RequestId, decodes: bool)
    requires Inv(s) && Enabled(s, Advance(r, decodes)) && s.requests[r].phase.Locking?
    requires Lookup(s.locks, s.requests[r].token, s.now).None?
    ensures Inv(Step(s, r, decodes))
  {
    var s' := Step(s, r, decodes);
    SameTreeStaysValid(s, s');
    AcquiringKeepsHolders(s, r, decodes);
    AnswersStayValid(s, s', Some(r));
  }

  lemma AcquiringKeepsHolders(s: State, r: RequestId, decodes: bool)
    requires Holders(s) && Enabled(s, Advance(r, decodes)) && s.requests[r].phase.Locking?
    requires 0 <= s.now && Lookup(s.locks, s.requests[r].token, s.now).None?
    ensures Holders(Step(s, r, decodes))
  {
    var s' := Step(s, r, decodes);
    assert forall r' :: r' != r ==> (Fresh(s', r') <==> Fresh(s, r'));
    SameChildren(s, s');
    ClearanceKept(s, s');
    hide SealedBeforeCheck, ClearToMint, PastReplay, PastBlacklist;
    assert MintersValid(s');
  }

  lemma ReleasingKeepsInv(s: State, r: RequestId, decodes: bool)
    requires Inv(s) && Enabled(s, Advance(r, decodes)) && s.requests[r].phase.Releasing?
    ensures Inv(Step(s, r, decodes))
  {
    hide Holders, Tree, ReadsValid, Lookup;
    var s1 := Goto(s, r, Answered(s.requests[r].phase.answer));
    MoveKeepsInv(s, r, Answered(s.requests[r].phase.answer));
    UnlockingKeepsInv(s1, s.requests[r].token, r);
  }

  lemma UnlockingKeepsInv(s: State, t: Token, r: RequestId)
    requires Inv(s) && !Fresh(s, r)
    ensures Inv(s.(locks := RemoveIfValue(s.locks, t, r, s.now)))
  {
    var s' := s.(locks := RemoveIfValue(s.locks, t, r, s.now));
    SameTreeStaysValid(s, s');
    SameRequestsKeepAnswers(s, s');
    SameRequestsKeepHolders(s, s');
  }

  // ----- Steps that grow the tree -----

  lemma LogInKeepsInv(s: State, u: UserId)
    requires Inv(s) && Enabled(s, LogIn(u))
    ensures Inv(Next(s, LogIn(u)))
  {
    var s' := Next(s, LogIn(u));
    LogInKeepsTree(s, u);
    LogInKeepsHolders(s, u);
    AnswersStayValid(s, s', None);
  }

  lemma LogInKeepsTree(s: State, u: UserId)
    requires Tree(s) && Enabled(s, LogIn(u))
    ensures Tree(Next(s, LogIn(u)))
  {
    var s' := Next(s, LogIn(u));
    assert forall i: PairId, t: Token :: IsChild(s', i, t) <==> IsChild(s, i, t);
  }

  lemma LogInKeepsHolders(s: State, u: UserId)
    requires Holders(s) && Enabled(s, LogIn(u))
    ensures Holders(Next(s, LogIn(u)))
  {
    var s' := Next(s, LogIn(u));
    assert forall r :: Fresh(s', r) <==> Fresh(s, r);
    assert forall i: PairId, t: Token :: IsChild(s', i, t) <==> IsChild(s, i, t);
  }

  lemma RotatingKeepsChildren(s: State, r: RequestId, decodes: bool)
    requires RequestsValid(s) && ClearToMint(s) && ChildrenValid(s) && ChildrenApart(s)
      && ReadsValid(s) && 0 <= s.now
    requires Enabled(s, Advance(r, decodes)) && s.requests[r].phase.Rotating? && Fresh(s, r)
    ensures ChildrenValid(Step(s, r, decodes)) && ChildrenApart(Step(s, r, decodes))
  {
    var s' := Step(s, r, decodes);
    assert PastBlacklist(s, r);
    assert ReadVersionValid(s.requests[r]);
    RotatingAddsChild(s, r, decodes);
  }

  /** The new pair is the only new child. */
  lemma RotatingAddsChild(s: State, r: RequestId, decodes: bool)
    requires Enabled(s, Advance(r, decodes)) && s.requests[r].phase.Rotating?
    ensures forall i: PairId, t: Token ::
      IsChild(Step(s, r, decodes), i, t) <==> IsChild(s, i, t) || (i == |s.issued| && t == s.requests[r].token)
  {
    hide Lookup, RemoveIfValue;
  }

  lemma RotatingKeepsRotation(s: State, r: RequestId, decodes: bool)
    requires RotationValid(s) && 0 <= s.now
    requires Enabled(s, Advance(r, decodes)) && s.requests[r].phase.Rotating?
    ensures RotationValid(Step(s, r, decodes))
  {
    hide Lookup, RemoveIfValue;
    RotatingAddsChild(s, r, decodes);
  }

  lemma RotatingKeepsSeals(s: State, r: RequestId, decodes: bool)
    requires SealsValid(s) && Enabled(s, Advance(r, decodes)) && s.requests[r].phase.Rotating?
    ensures SealsValid(Step(s, r, decodes))
  {
    hide Lookup, RemoveIfValue;
    RotatingAddsChild(s, r, decodes);
  }

  /** All that a mint changes. */
  lemma MintChanges(s: State, r: RequestId, decodes: bool)
    requires Enabled(s, Advance(r, decodes)) && s.requests[r].phase.Rotating?
    ensures var s', t := Step(s, r, decodes), s.requests[r].token;
      && s'.now == s.now && s'.days == s.days && s'.users == s.users && s'.sealed == s.sealed
      && s'.locks == s.locks && s'.blacklist == s.blacklist
      && s'.issued == s.issued + [Pair(s.requests[r].phase.signed, Refreshed(t, r), s.now)]
      && s'.rotation == Put(s.rotation, t, |s.issued|, s.now, ROTATION_TTL)
      && s'.requests == s.requests[r := s.requests[r].(phase := Blacklisting(s.requests[r].phase.since, |s.issued|))]
  {
    hide Lookup, RemoveIfValue, Put;
  }

  lemma RotatingKeepsLocks(s: State, r: RequestId, decodes: bool)
    requires RequestsValid(s) && LocksValid(s) && Enabled(s, Advance(r, decodes)) && s.requests[r].phase.Rotating?
    ensures RequestsValid(Step(s, r, decodes)) && LocksValid(Step(s, r, decodes))
    ensures forall r' :: Fresh(Step(s, r, decodes), r') <==> Fresh(s, r')
  {
    MintChanges(s, r, decodes);
    hide Step;
    assert forall r' :: Fresh(Step(s, r, decodes), r') <==> Fresh(s, r');
  }

  lemma RotatingKeepsMinters(s: State, r: RequestId, decodes: bool)
    requires RequestsValid(s) && MintersValid(s) && SealsValid(s)
    requires Enabled(s, Advance(r, decodes)) && s.requests[r].phase.Rotating?
    ensures MintersValid(Step(s, r, decodes))
  {
    hide Lookup, RemoveIfValue, Put;
    RotatingAddsChild(s, r, decodes);
  }

  /** Nobody but the minter holds the lock, and the minter is past its tests. */
  lemma RotatingKeepsClearance(s: State, r: RequestId, decodes: bool)
    requires LocksValid(s) && SealedBeforeCheck(s) && ClearToMint(s)
    requires Enabled(s, Advance(r, decodes)) && s.requests[r].phase.Rotating? && Fresh(s, r)
    requires forall r' :: Fresh(Step(s, r, decodes), r') <==> Fresh(s, r')
    ensures SealedBeforeCheck(Step(s, r, decodes)) && ClearToMint(Step(s, r, decodes))
  {
    hide Lookup, RemoveIfValue, Put;
    var s' := Step(s, r, decodes);
    RotatingAddsChild(s, r, decodes);
    forall r': RequestId, i: PairId | PastBlacklist(s', r') && IsChild(s', i, s'.requests[r'].token)
      ensures i in s'.sealed && LapseOf(s', i) <= s'.now
    {
      assert PastBlacklist(s, r');
      if i == |s.issued| {
        OneFreshHolder(s, r, r');
      }
    }
    forall r': RequestId, i: PairId | PastReplay(s', r') && IsChild(s', i, s'.requests[r'].token)
      ensures i in s'.sealed
    {
      assert PastReplay(s, r');
      if i == |s.issued| {
        OneFreshHolder(s, r, r');
      }
    }
  }

  lemma RotatingKeepsReads(s: State, r: RequestId, decodes: bool)
    requires ReadsValid(s) && Enabled(s, Advance(r, decodes)) && s.requests[r].phase.Rotating?
    ensures ReadsValid(Step(s, r, decodes))
  {
    assert ReadVersionValid(s.requests[r]);
  }

  lemma RotatingKeepsInv(s: State, r: RequestId, decodes: bool)
    requires Inv(s) && Enabled(s, Advance(r, decodes)) && s.requests[r].phase.Rotating? && Fresh(s, r)
    ensures Inv(Step(s, r, decodes))
  {
    RotatingKeepsChildren(s, r, decodes);
    RotatingKeepsRotation(s, r, decodes);
    RotatingKeepsSeals(s, r, decodes);
    RotatingKeepsLocks(s, r, decodes);
    RotatingKeepsMinters(s, r, decodes);
    RotatingKeepsClearance(s, r, decodes);
    RotatingKeepsReads(s, r, decodes);
    AnswersStayValid(s, Step(s, r, decodes), Some(r));
  }

  /** While its blacklist entry is outstanding, a pair is the last one its parent was rotated to. */
  lemma MinterIsLast(s: State, r: RequestId)
    requires MintersValid(s) && RotationValid(s) && ChildrenApart(s)
    requires r in s.requests && s.requests[r].phase.Blacklisting?
    ensures var Request(t, _, phase) := s.requests[r];
      IsChild(s, phase.pair, t) && phase.pair !in s.sealed && t in s.rotation && s.rotation[t].value == phase.pair
  {
  }

  lemma BlacklistingKeepsSeals(s: State, r: RequestId, decodes: bool)
    requires SealsValid(s) && ChildrenValid(s) && 0 <= s.now && 1 <= s.days
    requires Enabled(s, Advance(r, decodes)) && s.requests[r].phase.Blacklisting?
    requires var Request(t, _, phase) := s.requests[r];
      IsChild(s, phase.pair, t) && phase.pair !in s.sealed && t in s.rotation && s.rotation[t].value == phase.pair
    ensures SealsValid(Step(s, r, decodes))
  {
    var s' := Step(s, r, decodes);
    var Request(t, _, phase) := s.requests[r];
    forall i: PairId, t': Token | IsChild(s', i, t') && i in s'.sealed
      ensures s'.issued[i].at <= s'.sealed[i] <= s'.now
      ensures t' in s'.rotation && s'.rotation[t'].value == i ==>
        t' in s'.blacklist && s'.blacklist[t'].expiresAt == LapseOf(s', i)
    {
      assert IsChild(s, i, t');
    }
  }

  lemma BlacklistingKeepsChildren(s: State, r: RequestId, decodes: bool)
    requires ChildrenValid(s) && ChildrenApart(s) && RotationValid(s)
    requires Enabled(s, Advance(r, decodes)) && s.requests[r].phase.Blacklisting?
      && s.requests[r].phase.pair !in s.sealed
    ensures ChildrenValid(Step(s, r, decodes)) && ChildrenApart(Step(s, r, decodes))
      && RotationValid(Step(s, r, decodes))
  {
    hide Lookup, Put, RemoveIfValue;
    SameChildren(s, Step(s, r, decodes));
    hide IsChild;
  }

  lemma BlacklistingKeepsHolders(s: State, r: RequestId, decodes: bool)
    requires Holders(s) && Enabled(s, Advance(r, decodes)) && s.requests[r].phase.Blacklisting?
    ensures Holders(Step(s, r, decodes))
  {
    var s' := Step(s, r, decodes);
    assert forall r' :: r' != r ==> (Fresh(s', r') <==> Fresh(s, r'));
    SameChildren(s, s');
    BlacklistingKeepsMinters(s, r, decodes);
    assert s.requests[r].phase.pair !in s.sealed;
    ClearanceKept(s, s');
    hide SealedBeforeCheck, ClearToMint, PastReplay, PastBlacklist, MintersValid;
  }

  lemma BlacklistingKeepsMinters(s: State, r: RequestId, decodes: bool)
    requires MintersValid(s) && Enabled(s, Advance(r, decodes)) && s.requests[r].phase.Blacklisting?
    ensures MintersValid(Step(s, r, decodes))
  {
    hide Lookup, Put, RemoveIfValue;
    SameChildren(s, Step(s, r, decodes));
  }

  lemma BlacklistingKeepsInv(s: State, r: RequestId, decodes: bool)
    requires Inv(s) && Enabled(s, Advance(r, decodes)) && s.requests[r].phase.Blacklisting?
    ensures Inv(Step(s, r, decodes))
  {
    MinterIsLast(s, r);
    BlacklistingKeepsSeals(s, r, decodes);
    BlacklistingKeepsChildren(s, r, decodes);
    BlacklistingKeepsHolders(s, r, decodes);
    MinterAnswerIsValid(s, r, decodes);
    BlacklistingKeepsReads(s, r, decodes);
    hide RequestsValid, LocksValid, MintersValid, SealedBeforeCheck, ClearToMint, Tree, ReadsValid, IsChild, Lookup;
    AnswersStayValid(s, Step(s, r, decodes), Some(r));
  }

  lemma MinterAnswerIsValid(s: State, r: RequestId, decodes: bool)
    requires MintersValid(s) && ChildrenValid(s) && Enabled(s, Advance(r, decodes)) && s.requests[r].phase.Blacklisting?
    ensures var q := Step(s, r, decodes).requests[r];
      q.phase.Releasing? && AnswerValid(Step(s, r, decodes), q, q.phase.answer)
  {
    var Request(t, _, phase) := s.requests[r];
    assert IsChild(s, phase.pair, t) && IsChild(Step(s, r, decodes), phase.pair, t);
  }

  lemma BlacklistingKeepsReads(s: State, r: RequestId, decodes: bool)
    requires ReadsValid(s) && Enabled(s, Advance(r, decodes)) && s.requests[r].phase.Blacklisting?
    ensures ReadsValid(Step(s, r, decodes))
  {
  }

  lemma NextKeepsInv(s: State, e: Event)
    requires Inv(s) && Enabled(s, e) && OnTime(s, e)
    ensures Inv(Next(s, e))
  {
    match e
    case Tick(to) => TickKeepsInv(s, to);
    case LogIn(u) => LogInKeepsInv(s, u);
    case LoadForRevoke(_, _, _) => AccountsKeepInv(s, e);
    case CommitRevoke(_, _) => AccountsKeepInv(s, e);
    case RemoveUser(_) => AccountsKeepInv(s, e);
    case Begin(r, t) => BeginKeepsInv(s, r, t);
    case Advance(r, decodes) =>
      var p := s.requests[r].phase;
      if p.Locking? {
        LockingKeepsInv(s, r, decodes);
      } else if p.Rechecking? {
        RecheckingKeepsInv(s, r, decodes);
      } else if p.CheckingBlacklist? {
        CheckingKeepsInv(s, r, decodes);
      } else if p.Rotating? {
        RotatingKeepsInv(s, r, decodes);
      } else if p.Blacklisting? {
        BlacklistingKeepsInv(s, r, decodes);
      } else if p.Releasing? {
        ReleasingKeepsInv(s, r, decodes);
      } else if p.LoadingUser? || p.Signing? {
        ReadingKeepsInv(s, r, decodes);
      } else {
        LookingKeepsInv(s, r, decodes);
      }
  }

  lemma {:induction false} InvHolds(s: State, es: seq<Event>, s': State)
    requires Inv(s) && LeadsOnTime(s, es, s')
    ensures Inv(s')
    decreases |es|
  {
    if es != [] {
      NextKeepsInv(s, es[0]);
      InvHolds(Next(s, es[0]), es[1..], s');
    }
  }

  // ----- What clients may rely on -----

  ghost predicate Reachable(s: State) {
    exists s0: State, es: seq<Event> :: Initial(s0) && LeadsOnTime(s0, es, s)
  }

  lemma ReachableIsValid(s: State)
    requires Reachable(s)
    ensures Inv(s)
  {
    var s0: State, es: seq<Event> :| Initial(s0) && LeadsOnTime(s0, es, s);
    InvHolds(s0, es, s);
  }

  /** The blacklist entry that pair i earned its parent has not run out at this time. */
  ghost predicate Barred(s: State, i: PairId, time: int) {
    i in s.sealed ==> time < LapseOf(s, i)
  }

  ghost predicate WasGranted(s: State, r: RequestId, pair: PairId, at: int) {
    && r in s.requests
    && (s.requests[r].phase == Releasing(Granted(pair, at)) || s.requests[r].phase == Answered(Granted(pair, at)))
  }

  /** At most one pair is minted from a refresh token while its blacklist entry lives. */
  lemma OnePairPerBlacklisting(s: State, t: Token, i: PairId, j: PairId)
    requires Reachable(s) && IsChild(s, i, t) && IsChild(s, j, t) && i < j
    ensures !Barred(s, i, s.issued[j].at)
    ensures s.issued[i].at <= s.sealed[i] && s.sealed[i] + s.days * DAY <= s.issued[j].at
  {
    ReachableIsValid(s);
  }

  /** Every 200 answer between the minting of a pair and the lapse of the blacklist entry carries that pair. */
  lemma AnswersCarryThePair(s: State, r: RequestId, pair: PairId, at: int, i: PairId)
    requires Reachable(s) && WasGranted(s, r, pair, at) && IsChild(s, i, s.requests[r].token)
    requires s.issued[i].at <= at && Barred(s, i, at)
    ensures pair == i
  {
    ReachableIsValid(s);
    if i < pair {
      OnePairPerBlacklisting(s, s.requests[r].token, i, pair);
    } else if pair < i {
      OnePairPerBlacklisting(s, s.requests[r].token, pair, i);
    }
  }

  /** A request that starts 300 s or more after a rotation gets no pair before the blacklist entry lapses. */
  lemma LateRequestsGetNoPair(s: State, r: RequestId, pair: PairId, at: int, i: PairId)
    requires Reachable(s) && WasGranted(s, r, pair, at) && IsChild(s, i, s.requests[r].token)
    requires s.requests[r].startedAt >= s.issued[i].at + ROTATION_TTL
    ensures !Barred(s, i, at)
  {
    ReachableIsValid(s);
    if Barred(s, i, at) {
      AnswersCarryThePair(s, r, pair, at, i);
      assert false;
    }
  }
}
