/** Session revocation: what writing a user's token version does to tokens already issued. A revocation reads the
    version when its request is authenticated and writes it when it commits, and others may commit in between. None of
    this depends on how fast the holders of the rotation lock are. */
module Revocation {
  import opened ExpiringMap
  import opened RefreshRotation
  import opened RefreshRotationProofs

  // ----- Lineage -----

  ghost predicate Parented(p: Pair) {
    p.origin.Refreshed? ==> p.token.user == p.origin.from.user && p.token.version <= p.origin.from.version
  }

  ghost predicate PairIsChild(s: State, q: Request) {
    match q.phase
    case Blacklisting(_, pair) => IsChild(s, pair, q.token)
    case Releasing(Granted(pair, _)) => IsChild(s, pair, q.token)
    case Answered(Granted(pair, _)) => IsChild(s, pair, q.token)
    case _ => true
  }

  ghost predicate Lineage(s: State) {
    && (forall i: PairId :: i < |s.issued| ==> Parented(s.issued[i]))
    && (forall t :: t in s.rotation ==> IsChild(s, s.rotation[t].value, t))
    && (forall r :: r in s.requests ==> PairIsChild(s, s.requests[r]) && IsIssued(s, s.requests[r].token))
    && ReadsValid(s)
  }

  lemma IssuedStays(s: State, s': State)
    requires s.issued <= s'.issued
    ensures forall t :: IsIssued(s, t) ==> IsIssued(s', t)
    ensures forall i: PairId, t: Token :: IsChild(s, i, t) ==> IsChild(s', i, t)
  {
    forall t | IsIssued(s, t)
      ensures IsIssued(s', t)
    {
      var i: PairId :| i < |s.issued| && s.issued[i].token == t;
      assert s'.issued[i].token == t;
    }
  }

  /** The requests that stay as they are keep their lineage. */
  lemma MoveKeepsLineage(s: State, s': State, r: RequestId, q: Request)
    requires Lineage(s) && s'.issued == s.issued && s'.rotation == s.rotation
    requires s'.requests == s.requests[r := q] && PairIsChild(s, q) && ReadVersionValid(q) && IsIssued(s, q.token)
    ensures Lineage(s')
  {
    IssuedStays(s, s');
    hide Parented, IsChild, IsIssued;
    forall r' | r' in s'.requests
      ensures PairIsChild(s', s'.requests[r']) && IsIssued(s', s'.requests[r'].token)
    {
      assert r' != r ==> PairIsChild(s, s.requests[r']) && IsIssued(s, s.requests[r'].token);
    }
  }

  lemma StepAnswers(s: State, r: RequestId, decodes: bool)
    requires Enabled(s, Advance(r, decodes)) && !s.requests[r].phase.Rotating?
    requires PairIsChild(s, s.requests[r])
    requires s.requests[r].token in s.rotation ==>
      IsChild(s, s.rotation[s.requests[r].token].value, s.requests[r].token)
    ensures PairIsChild(s, s.requests[r].(phase := NextPhase(s, r, decodes)))
  {
    hide IsChild;
  }

  lemma StepReadsVersion(s: State, r: RequestId, decodes: bool)
    requires Enabled(s, Advance(r, decodes)) && !s.requests[r].phase.Rotating? && ReadVersionValid(s.requests[r])
    ensures ReadVersionValid(s.requests[r].(phase := NextPhase(s, r, decodes)))
  {
    hide Lookup;
  }

  lemma RotatingKeepsLineage(s: State, r: RequestId, decodes: bool)
    requires Lineage(s) && Enabled(s, Advance(r, decodes)) && s.requests[r].phase.Rotating?
    ensures Lineage(Step(s, r, decodes))
  {
    var s' := Step(s, r, decodes);
    RotatingAddsChild(s, r, decodes);
    MintChanges(s, r, decodes);
    RotatingKeepsReads(s, r, decodes);
    assert ReadVersionValid(s.requests[r]);
    IssuedStays(s, s');
    hide Step, IsChild, IsIssued, ReadsValid;
    forall r' | r' in s'.requests
      ensures PairIsChild(s', s'.requests[r']) && IsIssued(s', s'.requests[r'].token)
    {
      assert r' != r ==> PairIsChild(s, s.requests[r']);
      assert s'.requests[r'].token == s.requests[r'].token && IsIssued(s, s.requests[r'].token);
    }
  }

  /** Sign-ins, accounts and the clock leave the requests alone. */
  lemma OthersKeepLineage(s: State, e: Event)
    requires Lineage(s) && Enabled(s, e) && !e.Advance? && !e.Begin?
    ensures Lineage(Next(s, e))
  {
    var s' := Next(s, e);
    IssuedStays(s, s');
    forall r | r in s'.requests
      ensures PairIsChild(s', s'.requests[r]) && IsIssued(s', s'.requests[r].token)
    {
      assert PairIsChild(s, s.requests[r]) && IsIssued(s, s.requests[r].token);
    }
  }

  lemma StepKeepsLineage(s: State, r: RequestId, decodes: bool)
    requires Lineage(s) && Enabled(s, Advance(r, decodes)) && !s.requests[r].phase.Rotating?
    ensures Lineage(Step(s, r, decodes)) && Step(s, r, decodes).issued == s.issued
  {
    StepMoves(s, r, decodes);
    StepAnswers(s, r, decodes);
    StepReadsVersion(s, r, decodes);
    assert IsIssued(s, s.requests[r].token);
    hide Step, NextPhase, Lineage, IsIssued, PairIsChild;
    MoveKeepsLineage(s, Step(s, r, decodes), r, s.requests[r].(phase := NextPhase(s, r, decodes)));
  }

  lemma NextKeepsLineage(s: State, e: Event)
    requires Lineage(s) && Enabled(s, e)
    ensures Lineage(Next(s, e)) && s.issued <= Next(s, e).issued
  {
    match e
    case Advance(r, decodes) =>
      if s.requests[r].phase.Rotating? {
        RotatingKeepsLineage(s, r, decodes);
      } else {
        StepKeepsLineage(s, r, decodes);
      }
    case Begin(r, t) => MoveKeepsLineage(s, Next(s, e), r, Request(t, s.now, Replaying));
    case _ => OthersKeepLineage(s, e);
  }

  lemma {:induction false} LineageHolds(s: State, es: seq<Event>, s': State)
    requires Lineage(s) && Leads(s, es, s')
    ensures Lineage(s') && s.issued <= s'.issued
    decreases |es|
  {
    hide Lineage, Next, Enabled;
    if es != [] {
      NextKeepsLineage(s, es[0]);
      LineageHolds(Next(s, es[0]), es[1..], s');
    }
  }

  // ----- Versions -----

  predicate EndsSessions(e: Event, u: UserId) {
    (e.CommitRevoke? || e.RemoveUser?) && e.user == u
  }

  /** A user's version changes exactly when a revocation of the user commits, to the version read plus the increment. A
      removed user never comes back. */
  lemma VersionMoves(s: State, e: Event, u: UserId)
    requires Enabled(s, e)
    ensures u in Next(s, e).users <==> u in s.users && e != RemoveUser(u)
    ensures u in Next(s, e).users && e.CommitRevoke? && e.user == u ==>
      Next(s, e).users[u] == VersionWritten(s.revocations[e.revocation])
    ensures u in Next(s, e).users && !(e.CommitRevoke? && e.user == u) ==> Next(s, e).users[u] == s.users[u]
  {
    if e.Advance? {
      StepLeavesOthers(s, e.request, e.decodes);
      hide Step;
    }
  }

  /** The version a committing revocation writes is above every version signed for its user so far. */
  ghost predicate Outdates(s: State, e: Event) {
    e.CommitRevoke? && e.revocation in s.revocations && e.user in s.users ==>
      forall i: PairId :: i < |s.issued| && s.issued[i].token.user == e.user ==>
        s.issued[i].token.version < VersionWritten(s.revocations[e.revocation])
  }

  ghost predicate AllOutdate(s: State, es: seq<Event>, s': State)
    requires Leads(s, es, s')
    decreases |es|
  {
    es == [] || (Outdates(s, es[0]) && AllOutdate(Next(s, es[0]), es[1..], s'))
  }

  // ----- Revocations are final exactly when they outdate -----

  /** Token t is refused in s and in every later state of the run. */
  ghost predicate StaysRefused(s: State, es: seq<Event>, s': State, t: Token)
    requires Leads(s, es, s')
    decreases |es|
  {
    !Accepts(s, t) && (es == [] || StaysRefused(Next(s, es[0]), es[1..], s', t))
  }

  /** After each revocation of the run every token issued to its user before is refused for good. */
  ghost predicate AllFinal(s: State, es: seq<Event>, s': State)
    requires Leads(s, es, s')
    decreases |es|
  {
    es == [] ||
    (AllFinal(Next(s, es[0]), es[1..], s') &&
     (es[0].CommitRevoke? ==>
        forall t :: IsIssued(s, t) && t.user == es[0].user ==> StaysRefused(Next(s, es[0]), es[1..], s', t)))
  }

  lemma {:induction false} OutdatedStaysRefused(s: State, es: seq<Event>, s': State, t: Token)
    requires Lineage(s) && Leads(s, es, s') && AllOutdate(s, es, s')
    requires IsIssued(s, t) && !Accepts(s, t)
    ensures StaysRefused(s, es, s', t) && !Accepts(s', t)
    decreases |es|
  {
    if es != [] {
      var s1 := Next(s, es[0]);
      VersionMoves(s, es[0], t.user);
      NextKeepsLineage(s, es[0]);
      IssuedStays(s, s1);
      hide Next, Lineage;
      var i: PairId :| i < |s.issued| && s.issued[i].token == t;
      OutdatedStaysRefused(s1, es[1..], s', t);
    }
  }

  /** Over every run: revocations are final exactly when each of them writes a version above every one signed for its
      user so far. */
  lemma {:induction false} FinalExactlyWhenOutdating(s: State, es: seq<Event>, s': State)
    requires Lineage(s) && Leads(s, es, s')
    ensures AllFinal(s, es, s') <==> AllOutdate(s, es, s')
    decreases |es|
  {
    if es != [] {
      var e, s1 := es[0], Next(s, es[0]);
      NextKeepsLineage(s, e);
      IssuedStays(s, s1);
      FinalExactlyWhenOutdating(s1, es[1..], s');
      if e.CommitRevoke? {
        VersionMoves(s, e, e.user);
        hide Next, Lineage;
        if AllOutdate(s, es, s') {
          forall t | IsIssued(s, t) && t.user == e.user
            ensures StaysRefused(s1, es[1..], s', t)
          {
            OutdatedStaysRefused(s1, es[1..], s', t);
          }
        }
        if AllFinal(s, es, s') {
          forall i: PairId | e.user in s.users && i < |s.issued| && s.issued[i].token.user == e.user
            ensures s.issued[i].token.version < VersionWritten(s.revocations[e.revocation])
          {
            assert IsIssued(s, s.issued[i].token);
            assert StaysRefused(s1, es[1..], s', s.issued[i].token);
          }
        }
      }
    }
  }

  /** Pair d comes from token t by refreshing or replaying, any number of times. */
  ghost predicate Descends(s: State, d: PairId, t: Token)
    decreases d
  {
    && d < |s.issued|
    && (s.issued[d].token == t ||
        (s.issued[d].origin.Refreshed? &&
         (s.issued[d].origin.from == t ||
          exists e: PairId :: e < d && s.issued[e].token == s.issued[d].origin.from && Descends(s, e, t))))
  }

  /** Token x is token t or that of a pair that comes from it. */
  ghost predicate StemsFrom(s: State, x: Token, t: Token) {
    x == t || exists e: PairId :: Descends(s, e, t) && s.issued[e].token == x
  }

  lemma {:induction false} DescendantsAreNoNewer(s: State, d: PairId, t: Token)
    requires Lineage(s) && Descends(s, d, t)
    ensures s.issued[d].token.user == t.user && s.issued[d].token.version <= t.version
    decreases d
  {
    assert Parented(s.issued[d]);
    if s.issued[d].token != t && s.issued[d].origin.from != t {
      var e: PairId :| e < d && s.issued[e].token == s.issued[d].origin.from && Descends(s, e, t);
      DescendantsAreNoNewer(s, e, t);
    }
  }

  /** A granted pair is the child of its request's token. */
  lemma GrantsAreNoNewer(s: State, r: RequestId, pair: PairId, at: int, t: Token)
    requires Lineage(s) && WasGranted(s, r, pair, at) && StemsFrom(s, s.requests[r].token, t)
    ensures pair < |s.issued| && s.issued[pair].token.user == t.user && s.issued[pair].token.version <= t.version
  {
    assert PairIsChild(s, s.requests[r]) && Parented(s.issued[pair]);
    var x := s.requests[r].token;
    if x != t {
      var e: PairId :| Descends(s, e, t) && s.issued[e].token == x;
      DescendantsAreNoNewer(s, e, t);
    }
  }

  /** After a revocation, the revocations outdating, every token issued before it is refused for good, and so is every
      pair that refreshing or replaying such a token gives out, then or later. */
  lemma RevocationIsFinal(s0: State, es0: seq<Event>, s: State, e: Event, es: seq<Event>, s': State, t: Token)
    requires Initial(s0) && Leads(s0, es0, s)
    requires e.CommitRevoke? && Enabled(s, e) && Outdates(s, e)
    requires Leads(Next(s, e), es, s') && AllOutdate(Next(s, e), es, s')
    requires IsIssued(s, t) && t.user == e.user
    ensures !Accepts(s', t)
    ensures forall d: PairId :: Descends(s', d, t) ==> !Accepts(s', s'.issued[d].token)
    ensures forall r, pair: PairId, at :: WasGranted(s', r, pair, at) && StemsFrom(s', s'.requests[r].token, t) ==>
      pair < |s'.issued| && !Accepts(s', s'.issued[pair].token)
  {
    LineageHolds(s0, es0, s);
    var s1 := Next(s, e);
    NextKeepsLineage(s, e);
    LineageHolds(s1, es, s');
    IssuedStays(s, s1);
    OutdatedStaysRefused(s1, es, s', t);
    hide Lineage, Leads, StemsFrom, WasGranted, Next;
    forall d: PairId | Descends(s', d, t)
      ensures !Accepts(s', s'.issued[d].token)
    {
      DescendantsAreNoNewer(s', d, t);
    }
    hide Descends;
    forall r, pair: PairId, at | WasGranted(s', r, pair, at) && StemsFrom(s', s'.requests[r].token, t)
      ensures pair < |s'.issued| && !Accepts(s', s'.issued[pair].token)
    {
      GrantsAreNoNewer(s', r, pair, at, t);
    }
  }

  // ----- How long a pair is accepted -----

  /** A token accepted now is accepted later exactly when no revocation of its user commits and the user stays. */
  lemma {:induction false} AcceptedUntilRevoked(s: State, es: seq<Event>, s': State, t: Token)
    requires Lineage(s) && Leads(s, es, s') && AllOutdate(s, es, s') && IsIssued(s, t) && Accepts(s, t)
    ensures Accepts(s', t) <==> forall e :: e in es ==> !EndsSessions(e, t.user)
    decreases |es|
  {
    if es != [] {
      var s1 := Next(s, es[0]);
      VersionMoves(s, es[0], t.user);
      NextKeepsLineage(s, es[0]);
      IssuedStays(s, s1);
      hide Next, Lineage;
      assert forall e :: e in es <==> e == es[0] || e in es[1..];
      var i: PairId :| i < |s.issued| && s.issued[i].token == t;
      if EndsSessions(es[0], t.user) {
        OutdatedStaysRefused(s1, es[1..], s', t);
      } else {
        AcceptedUntilRevoked(s1, es[1..], s', t);
      }
    }
  }

  /** A token obtained by signing in is refused exactly from the first revocation or removal of its user on. */
  lemma SignInLastsUntilRevoked(s0: State, es0: seq<Event>, s: State, u: UserId, es: seq<Event>, s': State)
    requires Initial(s0) && Leads(s0, es0, s)
    requires Enabled(s, LogIn(u)) && Leads(Next(s, LogIn(u)), es, s') && AllOutdate(Next(s, LogIn(u)), es, s')
    ensures |s.issued| < |s'.issued|
    ensures Accepts(s', s'.issued[|s.issued|].token) <==> forall e :: e in es ==> !EndsSessions(e, u)
  {
    var s1 := Next(s, LogIn(u));
    LineageHolds(s0, es0, s);
    NextKeepsLineage(s, LogIn(u));
    LineageHolds(s1, es, s');
    assert s'.issued[|s.issued|] == s1.issued[|s.issued|];
    AcceptedUntilRevoked(s1, es, s', s1.issued[|s.issued|].token);
  }

  /** A request that has minted is at or past the blacklist write. */
  ghost predicate MintersArePast(s: State) {
    forall i: PairId :: i < |s.issued| && s.issued[i].origin.Refreshed? ==>
      var r := s.issued[i].origin.minter;
      r in s.requests &&
      (s.requests[r].phase.Blacklisting? || s.requests[r].phase.Releasing? || s.requests[r].phase.Answered?)
  }

  lemma RotatingKeepsMintersPast(s: State, r: RequestId, decodes: bool)
    requires MintersArePast(s) && Enabled(s, Advance(r, decodes)) && s.requests[r].phase.Rotating?
    ensures MintersArePast(Step(s, r, decodes))
  {
    hide Lookup, Put, RemoveIfValue;
  }

  lemma NextKeepsMinters(s: State, e: Event)
    requires MintersArePast(s) && Enabled(s, e)
    ensures MintersArePast(Next(s, e))
  {
    if e.Advance? {
      var Advance(r, decodes) := e;
      if s.requests[r].phase.Rotating? {
        RotatingKeepsMintersPast(s, r, decodes);
      } else {
        StepMoves(s, r, decodes);
        hide Step, Lookup;
      }
    }
  }

  lemma {:induction false} MintersStayPast(s: State, es: seq<Event>, s': State)
    requires MintersArePast(s) && Leads(s, es, s')
    ensures MintersArePast(s')
    decreases |es|
  {
    if es != [] {
      NextKeepsMinters(s, es[0]);
      MintersStayPast(Next(s, es[0]), es[1..], s');
    }
  }

  /** Request r has looked its user u up, at version v, and that is what it mints if anything. */
  ghost predicate Mints(s: State, r: RequestId, u: UserId, v: nat) {
    && r in s.requests && s.requests[r].token.user == u
    && (match s.requests[r].phase
        case Signing(_, version) => version == v
        case Rotating(_, signed) => signed.user == u && signed.version == v
        case Blacklisting(_, _) => true
        case Releasing(_) => true
        case Answered(_) => true
        case _ => false)
    && (forall i: PairId :: i < |s.issued| && s.issued[i].origin.Refreshed? && s.issued[i].origin.minter == r ==>
          s.issued[i].token.user == u && s.issued[i].token.version == v)
  }

  lemma RotatingKeepsMinting(s: State, r: RequestId, decodes: bool, r': RequestId, u: UserId, v: nat)
    requires Mints(s, r', u, v) && Enabled(s, Advance(r, decodes)) && s.requests[r].phase.Rotating?
    ensures Mints(Step(s, r, decodes), r', u, v)
  {
    hide Lookup, Put, RemoveIfValue;
  }

  lemma MovingKeepsMinting(s: State, r: RequestId, decodes: bool, r': RequestId, u: UserId, v: nat)
    requires Mints(s, r', u, v) && Enabled(s, Advance(r, decodes)) && !s.requests[r].phase.Rotating?
    ensures Mints(Step(s, r, decodes), r', u, v)
  {
    StepMoves(s, r, decodes);
    hide Step, Lookup;
  }

  lemma NextKeepsMinting(s: State, e: Event, r: RequestId, u: UserId, v: nat)
    requires Mints(s, r, u, v) && Enabled(s, e)
    ensures Mints(Next(s, e), r, u, v)
  {
    hide Step;
    if e.Advance? {
      if s.requests[e.request].phase.Rotating? {
        RotatingKeepsMinting(s, e.request, e.decodes, r, u, v);
      } else {
        MovingKeepsMinting(s, e.request, e.decodes, r, u, v);
      }
    }
  }

  lemma {:induction false} MintsWhatItRead(s: State, es: seq<Event>, s': State, r: RequestId, u: UserId, v: nat)
    requires Mints(s, r, u, v) && Leads(s, es, s')
    ensures Mints(s', r, u, v)
    decreases |es|
  {
    if es != [] {
      NextKeepsMinting(s, es[0], r, u, v);
      MintsWhatItRead(Next(s, es[0]), es[1..], s', r, u, v);
    }
  }

  /** The version v read of user u is no newer than token t, and is the current one as long as nothing ends u's
      sessions. */
  lemma {:induction false} ReadUntilRevoked(s: State, es: seq<Event>, s': State, t: Token, v: nat)
    requires Lineage(s) && Leads(s, es, s') && AllOutdate(s, es, s') && IsIssued(s, t)
    requires t.user in s.users && s.users[t.user] == v <= t.version
    ensures (t.user in s'.users && s'.users[t.user] <= v) <==> forall e :: e in es ==> !EndsSessions(e, t.user)
    decreases |es|
  {
    if es != [] {
      var s1 := Next(s, es[0]);
      VersionMoves(s, es[0], t.user);
      NextKeepsLineage(s, es[0]);
      IssuedStays(s, s1);
      hide Next, Lineage;
      assert forall e :: e in es <==> e == es[0] || e in es[1..];
      var i: PairId :| i < |s.issued| && s.issued[i].token == t;
      if EndsSessions(es[0], t.user) {
        OutdatedStaysRefused(s1, es[1..], s', t);
      } else {
        ReadUntilRevoked(s1, es[1..], s', t, v);
      }
    }
  }

  lemma LookingUpMints(s: State, r: RequestId)
    requires MintersArePast(s) && Enabled(s, Advance(r, true)) && s.requests[r].phase.LoadingUser?
    requires Accepts(s, s.requests[r].token)
    ensures var s1, u := Step(s, r, true), s.requests[r].token.user;
      s1.users == s.users && s1.issued == s.issued && Mints(s1, r, u, s.users[u])
  {
    StepMoves(s, r, true);
    hide Step;
  }

  /** Request r looks up its user at s and goes on. Whatever pair it mints is accepted in a later state exactly when no
      revocation or removal of that user came after that look. */
  lemma RefreshedPairLastsUntilRevoked(s0: State, es0: seq<Event>, s: State, r: RequestId, es: seq<Event>, s': State,
                                       i: PairId)
    requires Initial(s0) && Leads(s0, es0, s)
    requires Enabled(s, Advance(r, true)) && s.requests[r].phase.LoadingUser? && Accepts(s, s.requests[r].token)
    requires Leads(Next(s, Advance(r, true)), es, s') && AllOutdate(Next(s, Advance(r, true)), es, s')
    requires i < |s'.issued| && s'.issued[i].origin.Refreshed? && s'.issued[i].origin.minter == r
    ensures Accepts(s', s'.issued[i].token) <==>
      forall e :: e in es ==> !EndsSessions(e, s.requests[r].token.user)
  {
    var s1, t := Next(s, Advance(r, true)), s.requests[r].token;
    LineageHolds(s0, es0, s);
    NextKeepsLineage(s, Advance(r, true));
    MintersStayPast(s0, es0, s);
    LookingUpMints(s, r);
    assert IsIssued(s, t);
    IssuedStays(s, s1);
    hide Step, Lineage, Mints, MintersArePast, IsIssued;
    MintsWhatItRead(s1, es, s', r, t.user, s.users[t.user]);
    ReadUntilRevoked(s1, es, s', t, s.users[t.user]);
  }

  // ----- When revocations outdate -----

  /** No version, signed or about to be, is above the user's. */
  ghost predicate VersionsCurrent(s: State) {
    && (forall i: PairId :: i < |s.issued| && s.issued[i].token.user in s.users ==>
          s.issued[i].token.version <= s.users[s.issued[i].token.user])
    && (forall r :: r in s.requests ==> ReadIsCurrent(s, s.requests[r]))
  }

  ghost predicate ReadIsCurrent(s: State, q: Request) {
    && (q.phase.Signing? && q.token.user in s.users ==> q.phase.version <= s.users[q.token.user])
    && (q.phase.Rotating? && q.phase.signed.user in s.users ==> q.phase.signed.version <= s.users[q.phase.signed.user])
  }

  lemma StepKeepsCurrent(s: State, r: RequestId, decodes: bool)
    requires VersionsCurrent(s) && Enabled(s, Advance(r, decodes)) && !s.requests[r].phase.Rotating?
    ensures VersionsCurrent(Step(s, r, decodes))
  {
    assert ReadIsCurrent(s, s.requests[r]);
    SignedIsCurrent(s, r, decodes);
    StepMoves(s, r, decodes);
    hide Step, NextPhase;
    forall r' | r' in s.requests
      ensures ReadIsCurrent(s, s.requests[r'])
    {
    }
  }

  lemma SignedIsCurrent(s: State, r: RequestId, decodes: bool)
    requires Enabled(s, Advance(r, decodes)) && !s.requests[r].phase.Rotating? && ReadIsCurrent(s, s.requests[r])
    ensures ReadIsCurrent(s, s.requests[r].(phase := NextPhase(s, r, decodes)))
  {
    hide Lookup;
  }

  lemma MintKeepsCurrent(s: State, r: RequestId, decodes: bool)
    requires VersionsCurrent(s) && Enabled(s, Advance(r, decodes)) && s.requests[r].phase.Rotating?
    ensures VersionsCurrent(Step(s, r, decodes))
  {
    hide Lookup, Put, RemoveIfValue;
    assert ReadIsCurrent(s, s.requests[r]);
    forall r' | r' in s.requests && r' != r
      ensures ReadIsCurrent(s, s.requests[r'])
    {
    }
  }

  /** What a request has read is no newer than its own token, which an outdating revocation outdates. */
  lemma CommitKeepsCurrent(s: State, e: Event)
    requires VersionsCurrent(s) && Lineage(s) && e.CommitRevoke? && Enabled(s, e) && Outdates(s, e)
    ensures VersionsCurrent(Next(s, e))
  {
    var s' := Next(s, e);
    forall r | r in s'.requests
      ensures ReadIsCurrent(s', s'.requests[r])
    {
      var q := s.requests[r];
      assert ReadIsCurrent(s, q) && ReadVersionValid(q) && IsIssued(s, q.token);
      var i: PairId :| i < |s.issued| && s.issued[i].token == q.token;
    }
  }

  lemma NextKeepsCurrent(s: State, e: Event)
    requires VersionsCurrent(s) && Lineage(s) && Enabled(s, e) && Outdates(s, e)
    ensures VersionsCurrent(Next(s, e))
  {
    match e
    case Advance(r, decodes) =>
      if s.requests[r].phase.Rotating? {
        MintKeepsCurrent(s, r, decodes);
      } else {
        StepKeepsCurrent(s, r, decodes);
      }
    case CommitRevoke(_, _) => CommitKeepsCurrent(s, e);
    case _ =>
      forall r | r in s.requests
        ensures ReadIsCurrent(s, s.requests[r])
      {
      }
  }

  lemma {:induction false} CurrentHolds(s: State, es: seq<Event>, s': State)
    requires VersionsCurrent(s) && Lineage(s) && Leads(s, es, s') && AllOutdate(s, es, s')
    ensures VersionsCurrent(s')
    decreases |es|
  {
    hide VersionsCurrent, Lineage, Outdates, Next, Enabled;
    if es != [] {
      NextKeepsCurrent(s, es[0]);
      NextKeepsLineage(s, es[0]);
      CurrentHolds(Next(s, es[0]), es[1..], s');
    }
  }

  /** What a revocation can test under the row lock: the version it writes is above the one it finds. */
  predicate Rises(s: State, e: Event) {
    e.CommitRevoke? && e.revocation in s.revocations && e.user in s.users ==>
      s.users[e.user] < VersionWritten(s.revocations[e.revocation])
  }

  /** That test is exactly what ends every session, one signed in at the last moment included. */
  lemma RisesExactly(s: State, e: Event)
    requires VersionsCurrent(s) && e.CommitRevoke? && Enabled(s, e) && e.user in s.users
    ensures Rises(s, e) <==> Outdates(Next(s, LogIn(e.user)), e)
  {
    var s1 := Next(s, LogIn(e.user));
    assert s1.issued[|s.issued|].token == Sign(e.user, s.users[e.user], s.now);
    if Outdates(s1, e) {
      assert s1.issued[|s.issued|].token.version < VersionWritten(s1.revocations[e.revocation]);
    }
  }

  ghost predicate AllRise(s: State, es: seq<Event>, s': State)
    requires Leads(s, es, s')
    decreases |es|
  {
    es == [] || (Rises(s, es[0]) && AllRise(Next(s, es[0]), es[1..], s'))
  }

  lemma {:induction false} RisingOutdates(s: State, es: seq<Event>, s': State)
    requires VersionsCurrent(s) && Lineage(s) && Leads(s, es, s') && AllRise(s, es, s')
    ensures AllOutdate(s, es, s')
    decreases |es|
  {
    if es != [] {
      assert Outdates(s, es[0]);
      hide VersionsCurrent, Lineage, Outdates, Next, Enabled;
      NextKeepsCurrent(s, es[0]);
      NextKeepsLineage(s, es[0]);
      RisingOutdates(Next(s, es[0]), es[1..], s');
    }
  }

  /** Revocations that pass the test are final; those do that no other of their user's overlaps. */
  lemma RisingRevocationsAreFinal(s0: State, es: seq<Event>, s: State)
    requires Initial(s0) && Leads(s0, es, s) && AllRise(s0, es, s)
    ensures AllFinal(s0, es, s)
  {
    RisingOutdates(s0, es, s);
    FinalExactlyWhenOutdating(s0, es, s);
  }

  /** A revocation passes the test when the version is still the one it read. */
  lemma RereadingRises(s: State, e: Event)
    requires e.CommitRevoke? && Enabled(s, e)
    requires e.user in s.users ==> s.revocations[e.revocation].read == s.users[e.user]
    ensures Rises(s, e)
  {
  }

  const FRESH: Token := Token("u", 1000, 0)

  /** Two revocations overlap: one signs everybody out, a session begun after that is signed out in turn, and then the
      other writes what it read in the beginning plus one. The version falls, and the session is accepted again. */
  lemma LostUpdateRevivesASession() returns (es: seq<Event>, s: State, es': seq<Event>, s': State)
    ensures Initial(LONE) && Leads(LONE, es, s) && Leads(s, es', s')
    ensures IsIssued(s, FRESH) && !Accepts(s, FRESH)
    ensures Accepts(s', FRESH)
  {
    var s0 := LONE;
    var e1, e2, e3, e4 := LoadForRevoke(0, "u", AllSessions), LoadForRevoke(1, "u", CurrentSession),
                          CommitRevoke(0, "u"), LogIn("u");
    var e5, e6, e7 := LoadForRevoke(2, "u", CurrentSession), CommitRevoke(2, "u"), CommitRevoke(1, "u");
    var s1 := Next(s0, e1);
    var s2 := Next(s1, e2);
    var s3 := Next(s2, e3);
    var s4 := Next(s3, e4);
    var s5 := Next(s4, e5);
    s := Next(s5, e6);
    s' := Next(s, e7);
    assert s3.users["u"] == 1000 && s.users["u"] == 1001 && s'.users["u"] == 1;
    assert s.issued[0].token == FRESH;
    es := LeadsFirst(s5, e6, [], s);
    es := LeadsFirst(s4, e5, es, s);
    es := LeadsFirst(s3, e4, es, s);
    es := LeadsFirst(s2, e3, es, s);
    es := LeadsFirst(s1, e2, es, s);
    es := LeadsFirst(s0, e1, es, s);
    es' := LeadsFirst(s, e7, [], s');
  }

  lemma LeadsFirst(s: State, e: Event, es: seq<Event>, s': State) returns (all: seq<Event>)
    requires Enabled(s, e) && Leads(Next(s, e), es, s')
    ensures Leads(s, all, s')
  {
    hide Next, Enabled;
    all := [e] + es;
    assert all[1..] == es;
  }

  // ----- The text of a token -----

  /** While revocations outdate, an accepted token bears its user's version, so a refresh signs the same text again
      exactly within the second in which the token was signed. */
  lemma SameSecondSignsTheSameToken(s0: State, es: seq<Event>, s: State, t: Token)
    requires Initial(s0) && Leads(s0, es, s) && AllOutdate(s0, es, s)
    requires IsIssued(s, t) && Accepts(s, t)
    ensures t.version == s.users[t.user]
    ensures Sign(t.user, s.users[t.user], s.now) == t <==> t.second == s.now / 1000
  {
    CurrentHolds(s0, es, s);
    var i: PairId :| i < |s.issued| && s.issued[i].token == t;
    assert s.issued[i].token.version <= s.users[t.user];
  }
}
