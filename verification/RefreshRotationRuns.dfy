/** Runs of refresh-token rotation: its guarantees are not empty, each part of their timing condition is needed, and
    what a granted pair is worth. */
module RefreshRotationRuns {
  import opened Options
  import opened ExpiringMap
  import opened RefreshRotation
  import opened RefreshRotationProofs

  lemma {:induction false} OneMoreEvent(s: State, es: seq<Event>, s': State, e: Event)
    requires LeadsOnTime(s, es, s') && Enabled(s', e) && OnTime(s', e)
    ensures LeadsOnTime(s, es + [e], Next(s', e))
    decreases |es|
  {
    hide Next, Enabled, OnTime;
    if es == [] {
      assert LeadsOnTime(Next(s', e), [], Next(s', e));
    } else {
      assert (es + [e])[1..] == es[1..] + [e];
      OneMoreEvent(Next(s, es[0]), es[1..], s', e);
    }
  }

  lemma Nothing(s: State)
    ensures LeadsOnTime(s, [], s)
  {
  }

  /** Request r takes one step, the token decoding well. */
  lemma OneMoreStep(s: State, es: seq<Event>, s': State, r: RequestId) returns (es': seq<Event>, s'': State)
    requires LeadsOnTime(s, es, s') && Enabled(s', Advance(r, true)) && OnTime(s', Advance(r, true))
    ensures LeadsOnTime(s, es', s'') && s'' == Step(s', r, true)
  {
    hide Step;
    OneMoreEvent(s, es, s', Advance(r, true));
    es', s'' := es + [Advance(r, true)], Step(s', r, true);
  }

  /** Nobody rotates token t, nor has within 300 s. */
  ghost predicate Unlocked(s: State, t: Token) {
    Lookup(s.rotation, t, s.now).None? && Lookup(s.locks, t, s.now).None?
  }

  /** Nobody is refreshing token t, and nobody has. */
  ghost predicate Undisturbed(s: State, t: Token) {
    Unlocked(s, t) && Lookup(s.blacklist, t, s.now).None?
  }

  /** The state s, but for request r being q. */
  ghost function With(s: State, r: RequestId, q: Request): State {
    s.(requests := s.requests[r := q])
  }

  /** The state s, but for request r being q and holding the lock since now. */
  ghost function Locked(s: State, r: RequestId, q: Request): State {
    s.(requests := s.requests[r := q], locks := Put(s.locks, q.token, r, s.now, LOCK_TTL))
  }

  /** One step of a request that only moves it from phase to phase. */
  lemma OneMoreMove(s0: State, es0: seq<Event>, s: State, r: RequestId, q: Request, p: Phase, decodes: bool)
    returns (es: seq<Event>)
    requires LeadsOnTime(s0, es0, With(s, r, q))
    requires Enabled(With(s, r, q), Advance(r, decodes)) && OnTime(With(s, r, q), Advance(r, decodes))
    requires Written(With(s, r, q), r) == With(s, r, q) && NextPhase(With(s, r, q), r, decodes) == p
    ensures LeadsOnTime(s0, es, With(s, r, q.(phase := p)))
  {
    hide Written, NextPhase;
    var s1, s2 := With(s, r, q), With(s, r, q.(phase := p));
    OneMoreEvent(s0, es0, s1, Advance(r, decodes));
    es := es0 + [Advance(r, decodes)];
    assert s1.requests[r := q.(phase := p)] == s2.requests;
    assert Next(s1, Advance(r, decodes)) == s2;
  }

  lemma AcquiresLock(s: State, r: RequestId, t: Token)
    requires Lookup(s.locks, t, s.now).None?
    ensures Step(With(s, r, Request(t, s.now, Locking)), r, true) == Locked(s, r, Request(t, s.now, Rechecking(s.now)))
  {
    var s1, s2 := With(s, r, Request(t, s.now, Locking)), Locked(s, r, Request(t, s.now, Rechecking(s.now)));
    assert Step(s1, r, true).requests == s2.requests;
  }

  lemma ReachesLock(s0: State, es0: seq<Event>, s: State, r: RequestId, t: Token) returns (es: seq<Event>)
    requires LeadsOnTime(s0, es0, s) && IsIssued(s, t) && r !in s.requests && Unlocked(s, t)
    ensures LeadsOnTime(s0, es, Locked(s, r, Request(t, s.now, Rechecking(s.now))))
  {
    hide LeadsOnTime, Locked, Lookup, IsIssued, Put;
    OneMoreEvent(s0, es0, s, Begin(r, t));
    assert Next(s, Begin(r, t)) == With(s, r, Request(t, s.now, Replaying));
    es := OneMoreMove(s0, es0 + [Begin(r, t)], s, r, Request(t, s.now, Replaying), Locking, true);
    AcquiresLock(s, r, t);
    hide Step;
    OneMoreEvent(s0, es, With(s, r, Request(t, s.now, Locking)), Advance(r, true));
    es := es + [Advance(r, true)];
  }

  lemma PassesTests(s0: State, es0: seq<Event>, s: State, r: RequestId, t: Token) returns (es: seq<Event>)
    requires LeadsOnTime(s0, es0, Locked(s, r, Request(t, s.now, Rechecking(s.now)))) && Undisturbed(s, t)
    ensures LeadsOnTime(s0, es, Locked(s, r, Request(t, s.now, LoadingUser(s.now))))
  {
    var held := s.(locks := Put(s.locks, t, r, s.now, LOCK_TTL));
    es := OneMoreMove(s0, es0, held, r, Request(t, s.now, Rechecking(s.now)), CheckingBlacklist(s.now), true);
    es := OneMoreMove(s0, es, held, r, Request(t, s.now, CheckingBlacklist(s.now)), LoadingUser(s.now), true);
  }

  /** The token a refresh of t at time now signs. */
  function Successor(s: State, t: Token): Token
    requires t.user in s.users
  {
    Sign(t.user, s.users[t.user], s.now)
  }

  lemma LoadsAndSigns(s0: State, es0: seq<Event>, s: State, r: RequestId, t: Token) returns (es: seq<Event>)
    requires LeadsOnTime(s0, es0, Locked(s, r, Request(t, s.now, LoadingUser(s.now))))
    requires Accepts(s, t) && !Expired(s, t)
    ensures LeadsOnTime(s0, es, Locked(s, r, Request(t, s.now, Rotating(s.now, Successor(s, t)))))
  {
    var held := s.(locks := Put(s.locks, t, r, s.now, LOCK_TTL));
    var version := s.users[t.user];
    es := OneMoreMove(s0, es0, held, r, Request(t, s.now, LoadingUser(s.now)), Signing(s.now, version), true);
    var signed := Successor(s, t);
    es := OneMoreMove(s0, es, held, r, Request(t, s.now, Signing(s.now, version)), Rotating(s.now, signed), true);
  }

  /** A new request for such a token reaches the point where it may mint. */
  lemma ReachesRotation(s0: State, es0: seq<Event>, s: State, r: RequestId, t: Token) returns (es: seq<Event>)
    requires LeadsOnTime(s0, es0, s) && IsIssued(s, t) && r !in s.requests
    requires Accepts(s, t) && !Expired(s, t) && Undisturbed(s, t)
    ensures LeadsOnTime(s0, es, Locked(s, r, Request(t, s.now, Rotating(s.now, Successor(s, t)))))
  {
    hide LeadsOnTime, Locked, Successor, Lookup;
    es := ReachesLock(s0, es0, s, r, t);
    es := PassesTests(s0, es, s, r, t);
    es := LoadsAndSigns(s0, es, s, r, t);
  }

  /** From there three more steps mint, blacklist and unlock. */
  lemma CompletesRotation(s0: State, es0: seq<Event>, s: State, r: RequestId)
    returns (es: seq<Event>, s': State)
    requires LeadsOnTime(s0, es0, s) && 0 <= s.now && r in s.requests
    requires s.requests[r].phase.Rotating? && s.now < s.requests[r].phase.since + LOCK_TTL
    requires Lookup(s.locks, s.requests[r].token, s.now) == Some(r)
    ensures LeadsOnTime(s0, es, s')
    ensures var t, pair := s.requests[r].token, |s.issued|;
      s' == s.(issued := s.issued + [Pair(s.requests[r].phase.signed, Refreshed(t, r), s.now)],
               requests := s.requests[r := s.requests[r].(phase := Answered(Granted(pair, s.now)))],
               rotation := Put(s.rotation, t, pair, s.now, ROTATION_TTL),
               blacklist := Put(s.blacklist, t, "used", s.now, s.days * DAY),
               locks := s.locks - {t}, sealed := s.sealed[pair := s.now])
  {
    hide LeadsOnTime;
    es, s' := OneMoreStep(s0, es0, s, r);
    es, s' := OneMoreStep(s0, es, s', r);
    es, s' := OneMoreStep(s0, es, s', r);
  }

  /** After a rotation of t another token is as undisturbed as it was, and t itself is not. */
  lemma RotationDisturbsOneToken(s: State, s': State, t: Token, pair: PairId, other: Token)
    requires 0 <= s.now == s'.now && 1 <= s.days && s'.locks == s.locks - {t}
    requires s'.rotation == Put(s.rotation, t, pair, s.now, ROTATION_TTL)
    requires s'.blacklist == Put(s.blacklist, t, "used", s.now, s.days * DAY)
    ensures Undisturbed(s', other) <==> other != t && Undisturbed(s, other)
  {
  }

  /** A first, undisturbed refresh of an accepted token mints a pair that is accepted in turn. The new refresh token can
      be refreshed undisturbed itself, exactly when it is another text than the old one and was undisturbed before. */
  lemma UndisturbedRefreshIsGranted(s: State, r: RequestId, t: Token) returns (es: seq<Event>, s': State)
    requires IsIssued(s, t) && r !in s.requests && 0 <= s.now && 1 <= s.days
    requires Accepts(s, t) && !Expired(s, t) && Undisturbed(s, t)
    ensures LeadsOnTime(s, es, s')
    ensures s'.issued == s.issued + [Pair(Successor(s, t), Refreshed(t, r), s.now)]
    ensures WasGranted(s', r, |s.issued|, s.now) && Accepts(s', Successor(s, t)) && s'.now == s.now
    ensures Lookup(s'.locks, t, s'.now).None? && s'.users == s.users && s'.days == s.days
    ensures Undisturbed(s', Successor(s, t)) <==> Successor(s, t) != t && Undisturbed(s, Successor(s, t))
    ensures s'.rotation == Put(s.rotation, t, |s.issued|, s.now, ROTATION_TTL)
    ensures s'.blacklist == Put(s.blacklist, t, "used", s.now, s.days * DAY)
    ensures s'.requests == s.requests[r := Request(t, s.now, Answered(Granted(|s.issued|, s.now)))]
  {
    es := ReachesRotation(s, [], s, r, t);
    es, s' := CompletesRotation(s, es, Locked(s, r, Request(t, s.now, Rotating(s.now, Successor(s, t)))), r);
    RotationDisturbsOneToken(s, s', t, |s.issued|, Successor(s, t));
    hide Undisturbed;
  }

  /** The last step of a holder: it answers, and the lock is free. */
  lemma Releases(s0: State, es0: seq<Event>, s: State, r: RequestId, t: Token, answer: Answer)
    returns (es: seq<Event>, s': State)
    requires LeadsOnTime(s0, es0, Locked(s, r, Request(t, s.now, Releasing(answer))))
    ensures LeadsOnTime(s0, es, s') && s' == Told(s, r, t, answer)
  {
    hide LeadsOnTime;
    es, s' := OneMoreStep(s0, es0, Locked(s, r, Request(t, s.now, Releasing(answer))), r);
  }

  /** The state s, but for request r having been answered now; nobody holds the lock of t. */
  ghost function Told(s: State, r: RequestId, t: Token, answer: Answer): State {
    s.(requests := s.requests[r := Request(t, s.now, Answered(answer))], locks := s.locks - {t})
  }

  /** A token that is blacklisted, and whose replay entry is gone, is refused as used. */
  lemma UsedTokenIsRefused(s0: State, es0: seq<Event>, s: State, r: RequestId, t: Token)
    returns (es: seq<Event>, s': State)
    requires LeadsOnTime(s0, es0, s) && IsIssued(s, t) && r !in s.requests
    requires Unlocked(s, t) && Lookup(s.blacklist, t, s.now).Some?
    ensures LeadsOnTime(s0, es, s')
    ensures s' == s.(requests := s.requests[r := Request(t, s.now, Answered(Used))], locks := s.locks - {t})
  {
    hide LeadsOnTime;
    var held := s.(locks := Put(s.locks, t, r, s.now, LOCK_TTL));
    es := ReachesLock(s0, es0, s, r, t);
    es := OneMoreMove(s0, es, held, r, Request(t, s.now, Rechecking(s.now)), CheckingBlacklist(s.now), true);
    es := OneMoreMove(s0, es, held, r, Request(t, s.now, CheckingBlacklist(s.now)), ReplayingUsed(s.now), true);
    es := OneMoreMove(s0, es, held, r, Request(t, s.now, ReplayingUsed(s.now)), Releasing(Used), true);
    es, s' := Releases(s0, es, s, r, t, Used);
  }

  lemma IsRefused(s0: State, es0: seq<Event>, s: State, r: RequestId, t: Token, decodes: bool, why: Answer)
    returns (es: seq<Event>)
    requires LeadsOnTime(s0, es0, Locked(s, r, Request(t, s.now, LoadingUser(s.now))))
    requires why == if !decodes || s.now / 1000 > t.second + s.days * DAY_SECONDS then Undecodable
      else if t.user !in s.users then UnknownUser
      else Revoked
    requires decodes && s.now / 1000 <= t.second + s.days * DAY_SECONDS && t.user in s.users ==>
      s.users[t.user] > t.version
    ensures LeadsOnTime(s0, es, Locked(s, r, Request(t, s.now, Releasing(why))))
  {
    var held := s.(locks := Put(s.locks, t, r, s.now, LOCK_TTL));
    es := OneMoreMove(s0, es0, held, r, Request(t, s.now, LoadingUser(s.now)), Releasing(why), decodes);
  }

  /** An undisturbed token that is not good for a pair: the client is told why, nothing is issued, replayable or
      blacklisted that was not, and the lock is free again. */
  lemma RefusedIsToldWhy(s: State, r: RequestId, t: Token, decodes: bool, why: Answer)
    returns (es: seq<Event>, s': State)
    requires IsIssued(s, t) && r !in s.requests && Undisturbed(s, t)
    requires why == if !decodes || s.now / 1000 > t.second + s.days * DAY_SECONDS then Undecodable
      else if t.user !in s.users then UnknownUser
      else Revoked
    requires decodes && s.now / 1000 <= t.second + s.days * DAY_SECONDS && t.user in s.users ==>
      s.users[t.user] > t.version
    ensures LeadsOnTime(s, es, s') && Lookup(s'.locks, t, s'.now).None?
    ensures s' == s.(requests := s.requests[r := Request(t, s.now, Answered(why))], locks := s.locks - {t})
  {
    Nothing(s);
    hide LeadsOnTime, Locked;
    es := ReachesLock(s, [], s, r, t);
    es := PassesTests(s, es, s, r, t);
    es := IsRefused(s, es, s, r, t, decodes, why);
    es, s' := Releases(s, es, s, r, t, why);
  }

  const FIRST: Token := Token("u", 0, 0)

  /** User u has signed in. */
  const SIGNED_IN: State := LONE.(issued := [Pair(FIRST, SignIn, 0)])

  lemma SignsIn() returns (es: seq<Event>)
    ensures LeadsOnTime(LONE, es, SIGNED_IN) && IsIssued(SIGNED_IN, FIRST) && Undisturbed(SIGNED_IN, FIRST)
    ensures Accepts(SIGNED_IN, FIRST) && !Expired(SIGNED_IN, FIRST) && Initial(LONE)
  {
    es := [LogIn("u")];
    assert Next(LONE, LogIn("u")) == SIGNED_IN;
    assert LeadsOnTime(SIGNED_IN, es[1..], SIGNED_IN);
    assert SIGNED_IN.issued[0].token == FIRST;
  }

  /** Signed in and refreshed at once, by request 1. */
  lemma RefreshesAtOnce() returns (es: seq<Event>, s: State)
    ensures Initial(LONE) && LeadsOnTime(LONE, es, s)
    ensures s == SIGNED_IN.(issued := SIGNED_IN.issued + [Pair(FIRST, Refreshed(FIRST, 1), 0)],
                            requests := map[1 := Request(FIRST, 0, Answered(Granted(1, 0)))],
                            rotation := map[FIRST := Entry(1, ROTATION_TTL)],
                            blacklist := map[FIRST := Entry("used", 7 * DAY)], sealed := map[1 := 0])
  {
    hide LeadsOnTime;
    es := SignsIn();
    es := ReachesRotation(LONE, es, SIGNED_IN, 1, FIRST);
    var s1 := Locked(SIGNED_IN, 1, Request(FIRST, 0, Rotating(0, Successor(SIGNED_IN, FIRST))));
    es, s := CompletesRotation(LONE, es, s1, 1);
  }

  /** A client that refreshes within the second of its sign-in is given its old refresh token again, and 300 s later
      that token is refused as used. */
  lemma SameSecondRefreshStrandsTheClient() returns (es: seq<Event>, s: State)
    ensures Initial(LONE) && LeadsOnTime(LONE, es, s)
    ensures WasGranted(s, 1, 1, 0) && 1 < |s.issued| && s.issued[1].token == FIRST && Accepts(s, FIRST)
    ensures 2 in s.requests && s.requests[2].token == FIRST && s.requests[2].phase == Answered(Used)
  {
    hide LeadsOnTime;
    var s1: State;
    es, s1 := RefreshesAtOnce();
    OneMoreEvent(LONE, es, s1, Tick(ROTATION_TTL));
    es := es + [Tick(ROTATION_TTL)];
    var s2 := s1.(now := ROTATION_TTL);
    assert s2.issued[0].token == FIRST;
    es, s := UsedTokenIsRefused(LONE, es, s2, 2, FIRST);
  }

  /** Two devices of user u sign in within one second and so hold one refresh token; the first one refreshes in the next
      second and gets a new token, and 300 s later the second one is refused. */
  lemma RefreshingOneDeviceStrandsTheOther() returns (es: seq<Event>, s: State)
    ensures Initial(LONE) && LeadsOnTime(LONE, es, s)
    ensures |s.issued| == 3 && s.issued[0] == s.issued[1] == Pair(FIRST, SignIn, 0)
    ensures WasGranted(s, 1, 2, 1000) && s.issued[2].token == Token("u", 0, 1)
    ensures 2 in s.requests && s.requests[2].token == FIRST && s.requests[2].phase == Answered(Used)
  {
    es := SignsIn();
    OneMoreEvent(LONE, es, SIGNED_IN, LogIn("u"));
    var both := SIGNED_IN.(issued := [Pair(FIRST, SignIn, 0), Pair(FIRST, SignIn, 0)]);
    assert Next(SIGNED_IN, LogIn("u")) == both;
    OneMoreEvent(LONE, es + [LogIn("u")], both, Tick(1000));
    var s1 := both.(now := 1000);
    assert s1.issued[0].token == FIRST;
    hide LeadsOnTime;
    es := ReachesRotation(LONE, es + [LogIn("u")] + [Tick(1000)], s1, 1, FIRST);
    var s2 := Locked(s1, 1, Request(FIRST, 1000, Rotating(1000, Successor(s1, FIRST))));
    es, s2 := CompletesRotation(LONE, es, s2, 1);
    OneMoreEvent(LONE, es, s2, Tick(1000 + ROTATION_TTL));
    es := es + [Tick(1000 + ROTATION_TTL)];
    var s3 := s2.(now := 1000 + ROTATION_TTL);
    assert s3.issued[0].token == FIRST;
    es, s := UsedTokenIsRefused(LONE, es, s3, 2, FIRST);
  }

  /** A token blacklisted in the second it was signed: once the entry has lapsed, seven days later, the token itself has
      not expired for the rest of that second, and is good for another pair. */
  lemma TwoPairsOfOneToken() returns (es: seq<Event>, s: State)
    ensures Initial(LONE) && LeadsOnTime(LONE, es, s)
    ensures IsChild(s, 1, FIRST) && IsChild(s, 2, FIRST) && s.now == 7 * DAY
  {
    hide LeadsOnTime;
    var s1: State;
    es, s1 := RefreshesAtOnce();
    OneMoreEvent(LONE, es, s1, Tick(7 * DAY));
    es := es + [Tick(7 * DAY)];
    var s2 := s1.(now := 7 * DAY);
    assert s2.issued[0].token == FIRST;
    es := ReachesRotation(LONE, es, s2, 2, FIRST);
    var s3 := Locked(s2, 2, Request(FIRST, s2.now, Rotating(s2.now, Successor(s2, FIRST))));
    es, s := CompletesRotation(LONE, es, s3, 2);
  }

  // ----- Replays -----

  lemma LiveEntryIsReplayed(s: State, r: RequestId, t: Token, pair: PairId)
    requires IsIssued(s, t) && r !in s.requests && pair < |s.issued| && Lookup(s.rotation, t, s.now) == Some(pair)
    ensures var s' := Step(Next(s, Begin(r, t)), r, true);
      WasGranted(s', r, pair, s.now) && s'.users == s.users && s'.issued == s.issued
  {
    hide Lookup, IsIssued;
  }

  /** A request that starts within 300 s of the rotation is answered at once with the same pair, whatever became of the
      user; what it is given is accepted exactly when the user still exists at the version of the pair. */
  lemma RepeatedRefreshReplays(s: State, r: RequestId, t: Token)
    requires Reachable(s) && IsIssued(s, t) && r !in s.requests
    requires t in s.rotation && s.rotation[t].value < |s.issued|
    requires s.now < s.issued[s.rotation[t].value].at + ROTATION_TTL
    ensures var pair, s' := s.rotation[t].value, Step(Next(s, Begin(r, t)), r, true);
      && WasGranted(s', r, pair, s.now)
      && (Accepts(s', s.issued[pair].token) <==>
          t.user in s.users && s.users[t.user] <= s.issued[pair].token.version)
  {
    ReachableIsValid(s);
    assert IsChild(s, s.rotation[t].value, t);
    assert Lookup(s.rotation, t, s.now) == Some(s.rotation[t].value);
    hide Step, Next, WasGranted, Reachable, Holders, AnswersValid, ReadsValid;
    LiveEntryIsReplayed(s, r, t, s.rotation[t].value);
  }

  /** User u revokes, undisturbed. */
  lemma Revokes(es: seq<Event>, s: State, kind: Revocation) returns (es': seq<Event>, s': State)
    requires LeadsOnTime(LONE, es, s) && s.users == map["u" := 0] && s.revocations == map[]
    ensures LeadsOnTime(LONE, es', s') && s' == s.(users := map["u" := Increment(kind)])
  {
    hide LeadsOnTime;
    OneMoreEvent(LONE, es, s, LoadForRevoke(0, "u", kind));
    var s1 := s.(revocations := map[0 := RefreshRotation.Pending("u", kind, 0)]);
    assert Next(s, LoadForRevoke(0, "u", kind)) == s1;
    OneMoreEvent(LONE, es + [LoadForRevoke(0, "u", kind)], s1, CommitRevoke(0, "u"));
    es' := es + [LoadForRevoke(0, "u", kind)] + [CommitRevoke(0, "u")];
    s' := s.(users := map["u" := Increment(kind)]);
    assert Next(s1, CommitRevoke(0, "u")) == s';
  }

  /** A pair is replayed although its user has revoked the session since: the answer is 200, the pair is refused. */
  lemma RevokedPairIsReplayed() returns (es: seq<Event>, s: State)
    ensures Initial(LONE) && LeadsOnTime(LONE, es, s)
    ensures WasGranted(s, 2, 1, 0) && 1 < |s.issued| && !Accepts(s, s.issued[1].token)
  {
    hide LeadsOnTime;
    var s1: State;
    es, s1 := RefreshesAtOnce();
    var s2: State;
    es, s2 := Revokes(es, s1, CurrentSession);
    assert s2.issued[0].token == FIRST;
    OneMoreEvent(LONE, es, s2, Begin(2, FIRST));
    es, s := OneMoreStep(LONE, es + [Begin(2, FIRST)], Next(s2, Begin(2, FIRST)), 2);
  }

  /** A revocation between the look at the user and the rotation: the new pair is refused from the start. */
  lemma FreshPairIsRefused() returns (es: seq<Event>, s: State)
    ensures Initial(LONE) && LeadsOnTime(LONE, es, s)
    ensures WasGranted(s, 1, 1, 0) && 1 < |s.issued| && s.issued[1].at == 0 && !Accepts(s, s.issued[1].token)
  {
    hide LeadsOnTime;
    es := SignsIn();
    es := ReachesRotation(LONE, es, SIGNED_IN, 1, FIRST);
    var s1 := Locked(SIGNED_IN, 1, Request(FIRST, 0, Rotating(0, Successor(SIGNED_IN, FIRST))));
    var s2: State;
    es, s2 := Revokes(es, s1, AllSessions);
    es, s := CompletesRotation(LONE, es, s2, 1);
  }

  // ----- Both parts of the timing condition are needed -----

  /** Request 1 takes the lock, reads version 0, signs and stalls. */
  lemma HolderMayStall() returns (es: seq<Event>, s: State)
    ensures Initial(LONE) && LeadsOnTime(LONE, es, s)
    ensures s == SIGNED_IN.(now := LOCK_TTL, locks := map[FIRST := Entry(1, LOCK_TTL)],
                            requests := map[1 := Request(FIRST, 0, Rotating(0, FIRST))])
  {
    hide LeadsOnTime;
    es := SignsIn();
    es := ReachesRotation(LONE, es, SIGNED_IN, 1, FIRST);
    var s1 := Locked(SIGNED_IN, 1, Request(FIRST, 0, Rotating(0, Successor(SIGNED_IN, FIRST))));
    OneMoreEvent(LONE, es, s1, Tick(LOCK_TTL));
    es, s := es + [Tick(LOCK_TTL)], s1.(now := LOCK_TTL);
    assert Next(s1, Tick(LOCK_TTL)) == s;
  }

  /** A holder that stalls past its lock and then rotates all the same breaks the guarantee: the token gets a second
      pair although it is blacklisted. Up to that one event everybody was on time. */
  lemma StallingHolderMintsASecondPair() returns (es: seq<Event>, s: State, e: Event)
    ensures Initial(LONE) && LeadsOnTime(LONE, es, s) && Enabled(s, e) && !OnTime(s, e)
    ensures var s' := Next(s, e);
      IsChild(s', 1, FIRST) && IsChild(s', 2, FIRST) && 1 in s'.sealed && Barred(s', 1, s'.issued[2].at)
  {
    hide LeadsOnTime;
    var s1: State;
    es, s1 := HolderMayStall();
    assert s1.issued[0].token == FIRST;
    es := ReachesRotation(LONE, es, s1, 2, FIRST);
    s := Locked(s1, 2, Request(FIRST, LOCK_TTL, Rotating(LOCK_TTL, Successor(s1, FIRST))));
    es, s := CompletesRotation(LONE, es, s, 2);
    e := Advance(1, true);
  }

  /** Request 1 has minted pair 1 and not yet blacklisted the old token. */
  lemma MintsOnTime() returns (es: seq<Event>, s: State)
    ensures Initial(LONE) && LeadsOnTime(LONE, es, s)
    ensures s == SIGNED_IN.(issued := SIGNED_IN.issued + [Pair(FIRST, Refreshed(FIRST, 1), 0)],
                            requests := map[1 := Request(FIRST, 0, Blacklisting(0, 1))],
                            rotation := map[FIRST := Entry(1, ROTATION_TTL)],
                            locks := map[FIRST := Entry(1, LOCK_TTL)])
  {
    hide LeadsOnTime;
    es := SignsIn();
    es := ReachesRotation(LONE, es, SIGNED_IN, 1, FIRST);
    var s1 := Locked(SIGNED_IN, 1, Request(FIRST, 0, Rotating(0, Successor(SIGNED_IN, FIRST))));
    es, s := OneMoreStep(LONE, es, s1, 1);
  }

  /** A holder that mints in time but has not blacklisted the old token after 300 s breaks it too: the token gets a
      second pair. But for that one tick everybody was on time. */
  lemma LateBlacklistMintsASecondPair() returns (es: seq<Event>, s: State, e: Event, es': seq<Event>, s': State)
    ensures Initial(LONE) && LeadsOnTime(LONE, es, s) && Enabled(s, e) && !OnTime(s, e)
    ensures LeadsOnTime(Next(s, e), es', s')
    ensures IsChild(s', 1, FIRST) && IsChild(s', 2, FIRST) && 1 !in s'.sealed
  {
    hide LeadsOnTime;
    es, s := MintsOnTime();
    e := Tick(ROTATION_TTL);
    var s1 := s.(now := ROTATION_TTL);
    assert s.requests[1].phase.Blacklisting? && s.requests[1].phase.pair == 1;
    assert Next(s, e) == s1 && s1.issued[0].token == FIRST;
    Nothing(s1);
    es' := ReachesRotation(s1, [], s1, 2, FIRST);
    var s2 := Locked(s1, 2, Request(FIRST, ROTATION_TTL, Rotating(ROTATION_TTL, Successor(s1, FIRST))));
    es', s' := OneMoreStep(s1, es', s2, 2);
  }
}
