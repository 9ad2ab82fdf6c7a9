/** Refresh-token rotation: the /refresh endpoint of backend/auth/routes.py over the shared cache,
    with the token versions of backend/auth/schemes.py and the revocations of backend/api/auth.py.

    Any number of requests run interleaved; each await on the cache or the database is one step.
    Times are milliseconds. */
module RefreshRotation {
  import opened ExpiringMap

  const ROTATION_TTL := 300_000
  const LOCK_TTL := 10_000
  const WAIT_ATTEMPTS := 8
  const WAIT_INTERVAL := 250
  const DAY := 86_400_000
  const DAY_SECONDS := 86_400

  type UserId = string
  type RequestId = nat
  type RevocationId = nat

  /** The text of a refresh token. Signing is deterministic, the lifetime is fixed and times are signed in whole
      seconds, so the text says no more than this; the cache keys are made of it. */
  datatype Token = Token(user: UserId, version: nat, second: int)

  /** A pair of access and refresh token, named by its position in the list of all issued pairs. */
  type PairId = nat

  datatype Origin = SignIn | Refreshed(from: Token, minter: RequestId)

  /** Both tokens of a pair bear the user and the version of token; at is the time of sign-in or rotation. */
  datatype Pair = Pair(token: Token, origin: Origin, at: int)

  datatype Answer =
    | Granted(pair: PairId, at: int)  // 200, with the pair and the time it was read or minted
    | Used                             // 401, blacklisted
    | Undecodable                      // 401, expired or malformed
    | UnknownUser                      // 401
    | Revoked                          // 401, token version too old
    | Busy                             // 409, somebody else is rotating

  /** Where a request is; since is the time it took the lock. */
  datatype Phase =
    | Replaying
    | Locking
    | Waiting(left: nat, wakeAt: int)
    | Rechecking(since: int)
    | CheckingBlacklist(since: int)
    | ReplayingUsed(since: int)
    | LoadingUser(since: int)
    | Signing(since: int, version: nat)
    | Rotating(since: int, signed: Token)
    | Blacklisting(since: int, pair: PairId)
    | Releasing(answer: Answer)
    | Answered(answer: Answer)

  datatype Request = Request(token: Token, startedAt: int, phase: Phase)

  datatype Revocation = CurrentSession | AllSessions

  function Increment(kind: Revocation): nat {
    if kind.CurrentSession? then 1 else 1000
  }

  /** A revocation that has loaded its user's row and not yet committed; the row lock of CurrentSession does not make it
      read the version again. */
  datatype Pending = Pending(user: UserId, kind: Revocation, read: nat)

  function VersionWritten(p: Pending): nat {
    p.read + Increment(p.kind)
  }

  /** sealed records, for each refreshed pair, when its parent was blacklisted on its account. */
  datatype State = State(
    now: int,
    days: int,
    users: map<UserId, nat>,
    issued: seq<Pair>,
    sealed: map<PairId, int>,
    rotation: Store<Token, PairId>,
    blacklist: Store<Token, string>,
    locks: Store<Token, RequestId>,
    requests: map<RequestId, Request>,
    revocations: map<RevocationId, Pending>)

  datatype Event =
    | Tick(to: int)
    | LogIn(user: UserId)
    | LoadForRevoke(revocation: RevocationId, user: UserId, kind: Revocation)
    | CommitRevoke(revocation: RevocationId, user: UserId)
    | RemoveUser(user: UserId)
    | Begin(request: RequestId, token: Token)
    | Advance(request: RequestId, decodes: bool)

  /** get_current_user: the version test every authenticated endpoint applies. */
  predicate Accepts(s: State, t: Token) {
    t.user in s.users && !(s.users[t.user] > t.version)
  }

  /** The signed expiry has passed; times are signed, and compared, in whole seconds. */
  predicate Expired(s: State, t: Token) {
    s.now / 1000 > t.second + s.days * DAY_SECONDS
  }

  /** Signatures cannot be forged: a token that decodes was issued. */
  predicate IsIssued(s: State, t: Token) {
    exists i: PairId :: i < |s.issued| && s.issued[i].token == t
  }

  predicate Enabled(s: State, e: Event) {
    match e
    case Tick(to) => s.now <= to
    case LogIn(u) => u in s.users
    case LoadForRevoke(x, u, _) => x !in s.revocations && u in s.users
    case CommitRevoke(x, u) => x in s.revocations && s.revocations[x].user == u
    case RemoveUser(u) => u in s.users
    case Begin(r, t) => r !in s.requests && IsIssued(s, t)
    case Advance(r, _) =>
      && r in s.requests
      && !s.requests[r].phase.Answered?
      && (s.requests[r].phase.Waiting? ==> s.requests[r].phase.wakeAt <= s.now)
  }

  /** The refresh token signed at time now. */
  function Sign(u: UserId, version: nat, now: int): Token {
    Token(u, version, now / 1000)
  }

  function Goto(s: State, r: RequestId, phase: Phase): State
    requires r in s.requests
  {
    s.(requests := s.requests[r := s.requests[r].(phase := phase)])
  }

  /** Where request r goes next; decodes says whether the token's signature and claims are accepted. */
  function NextPhase(s: State, r: RequestId, decodes: bool): Phase
    requires r in s.requests
  {
    var Request(t, _, phase) := s.requests[r];
    var replay := Lookup(s.rotation, t, s.now);
    match phase
    case Replaying => if replay.Some? then Answered(Granted(replay.value, s.now)) else Locking
    case Locking =>
      if Lookup(s.locks, t, s.now).Some? then Waiting(WAIT_ATTEMPTS, s.now + WAIT_INTERVAL) else Rechecking(s.now)
    case Waiting(left, _) =>
      if replay.Some? then Answered(Granted(replay.value, s.now))
      else if left <= 1 then Answered(Busy)
      else Waiting(left - 1, s.now + WAIT_INTERVAL)
    case Rechecking(since) =>
      if replay.Some? then Releasing(Granted(replay.value, s.now)) else CheckingBlacklist(since)
    case CheckingBlacklist(since) =>
      if Lookup(s.blacklist, t, s.now).Some? then ReplayingUsed(since) else LoadingUser(since)
    case ReplayingUsed(since) => Releasing(if replay.Some? then Granted(replay.value, s.now) else Used)
    case LoadingUser(since) =>
      if !decodes || Expired(s, t) then Releasing(Undecodable)
      else if t.user !in s.users then Releasing(UnknownUser)
      else if s.users[t.user] > t.version then Releasing(Revoked)
      else Signing(since, s.users[t.user])
    case Signing(since, version) => Rotating(since, Sign(t.user, version, s.now))
    case Rotating(since, _) => Blacklisting(since, |s.issued|)
    case Blacklisting(since, pair) => Releasing(Granted(pair, if pair < |s.issued| then s.issued[pair].at else s.now))
    case Releasing(answer) => Answered(answer)
    case Answered(answer) => Answered(answer)
  }

  /** What request r writes on its way. */
  function Written(s: State, r: RequestId): State
    requires r in s.requests
  {
    var Request(t, _, phase) := s.requests[r];
    match phase
    case Locking =>
      if Lookup(s.locks, t, s.now).Some? then s else s.(locks := Put(s.locks, t, r, s.now, LOCK_TTL))
    case Rotating(_, signed) =>
      s.(issued := s.issued + [Pair(signed, Refreshed(t, r), s.now)],
         rotation := Put(s.rotation, t, |s.issued|, s.now, ROTATION_TTL))
    case Blacklisting(_, pair) =>
      s.(blacklist := Put(s.blacklist, t, "used", s.now, s.days * DAY), sealed := s.sealed[pair := s.now])
    case Releasing(_) => s.(locks := RemoveIfValue(s.locks, t, r, s.now))
    case _ => s
  }

  /** The next step of request r. */
  function Step(s: State, r: RequestId, decodes: bool): State
    requires r in s.requests
  {
    Goto(Written(s, r), r, NextPhase(s, r, decodes))
  }

  function Next(s: State, e: Event): State
    requires Enabled(s, e)
  {
    match e
    case Tick(to) => s.(now := to)
    case LogIn(u) => s.(issued := s.issued + [Pair(Sign(u, s.users[u], s.now), SignIn, s.now)])
    case LoadForRevoke(x, u, kind) => s.(revocations := s.revocations[x := Pending(u, kind, s.users[u])])
    case CommitRevoke(x, u) =>
      s.(users := if u in s.users then s.users[u := VersionWritten(s.revocations[x])] else s.users,
         revocations := s.revocations - {x})
    case RemoveUser(u) => s.(users := s.users - {u})
    case Begin(r, t) => s.(requests := s.requests[r := Request(t, s.now, Replaying)])
    case Advance(r, decodes) => Step(s, r, decodes)
  }

  /** A holder rotates before its lock expires, and blacklists the old token before the replay entry does. */
  ghost predicate OnTime(s: State, e: Event) {
    match e
    case Tick(to) =>
      forall r :: r in s.requests && s.requests[r].phase.Blacklisting? && s.requests[r].phase.pair < |s.issued| ==>
        to < s.issued[s.requests[r].phase.pair].at + ROTATION_TTL
    case Advance(r, _) =>
      r in s.requests && s.requests[r].phase.Rotating? ==> s.now < s.requests[r].phase.since + LOCK_TTL
    case _ => true
  }

  ghost predicate Initial(s: State) {
    && 0 <= s.now && 1 <= s.days <= 30
    && s.issued == [] && s.sealed == map[] && s.requests == map[]
    && s.rotation == map[] && s.blacklist == map[] && s.locks == map[] && s.revocations == map[]
  }

  /** User u alone, at time zero, before anything was issued. */
  const LONE: State := State(0, 7, map["u" := 0], [], map[], map[], map[], map[], map[], map[])

  /** The events es lead from s to s', whatever the holders' speed. */
  ghost predicate Leads(s: State, es: seq<Event>, s': State)
    decreases |es|
  {
    if es == [] then s == s' else Enabled(s, es[0]) && Leads(Next(s, es[0]), es[1..], s')
  }

  /** As Leads, with every holder on time. */
  ghost predicate LeadsOnTime(s: State, es: seq<Event>, s': State)
    decreases |es|
  {
    if es == [] then s == s'
    else Enabled(s, es[0]) && OnTime(s, es[0]) && LeadsOnTime(Next(s, es[0]), es[1..], s')
  }
}
