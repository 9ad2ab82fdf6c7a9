/** The refresh endpoint as backend/auth/routes.py writes it: steps on the cache in sequence, a loop that waits for
    the lock, and at each await a turn for everybody else. Every run of it is a run of RefreshRotation. */
module RefreshEndpoint {
  import opened Options
  import opened ExpiringMap
  import opened RefreshRotation
  import opened RefreshRotationProofs

  /** The event is a step of request r itself. */
  predicate Concerns(e: Event, r: RequestId) {
    match e
    case Begin(r', _) => r' == r
    case Advance(r', _) => r' == r
    case _ => false
  }

  lemma OthersLeaveRequest(s: State, e: Event, r: RequestId)
    requires Enabled(s, e) && !Concerns(e, r) && r in s.requests
    ensures r in Next(s, e).requests && Next(s, e).requests[r] == s.requests[r]
    ensures s.now <= Next(s, e).now
  {
    if e.Advance? {
      StepLeavesOthers(s, e.request, e.decodes);
    }
    hide Step;
  }

  lemma DaysStay(s: State, e: Event)
    requires Enabled(s, e)
    ensures Next(s, e).days == s.days
  {
    if e.Advance? {
      StepLeavesOthers(s, e.request, e.decodes);
    }
    hide Step;
  }

  lemma {:induction false} LeadsThenOne(s: State, es: seq<Event>, s': State, e: Event)
    requires Leads(s, es, s') && Enabled(s', e)
    ensures Leads(s, es + [e], Next(s', e))
    decreases |es|
  {
    if es == [] {
      assert [e][1..] == [];
    } else {
      assert (es + [e])[0] == es[0] && (es + [e])[1..] == es[1..] + [e];
      LeadsThenOne(Next(s, es[0]), es[1..], s', e);
    }
  }

  /** The four places that read the rotation entry, each with where it goes without one. */
  predicate MayRead(p: Phase, now: int, missing: Phase) {
    || (p.Replaying? && missing == Locking)
    || (p.Waiting? && p.wakeAt <= now &&
        missing == if p.left <= 1 then Answered(Busy) else Waiting(p.left - 1, now + WAIT_INTERVAL))
    || (p.Rechecking? && missing == CheckingBlacklist(p.since))
    || (p.ReplayingUsed? && missing == Releasing(Used))
  }

  lemma RotationDecides(s: State, r: RequestId, missing: Phase)
    requires r in s.requests && MayRead(s.requests[r].phase, s.now, missing)
    ensures var replay := Lookup(s.rotation, s.requests[r].token, s.now);
      NextPhase(s, r, true) ==
        if replay.None? then missing
        else if missing.Releasing? || missing.CheckingBlacklist? then Releasing(Granted(replay.value, s.now))
        else Answered(Granted(replay.value, s.now))
  {
    hide Lookup;
  }

  /** The account table, the token service and the cache; others lists what everybody else does at each await. */
  class Backend {
    const days: int
    const others: nat -> seq<Event>
    var awaits: nat
    var now: int
    var users: map<UserId, nat>
    var issued: seq<Pair>
    var sealed: map<PairId, int>
    var rotation: Store<Token, PairId>
    var blacklist: Store<Token, string>
    var locks: Store<Token, RequestId>
    var requests: map<RequestId, Request>
    var revocations: map<RevocationId, Pending>
    ghost const origin: State
    ghost var history: seq<Event>

    constructor (s: State, others: nat -> seq<Event>)
      ensures View() == s && origin == s && Faithful()
    {
      this.days, this.others, awaits := s.days, others, 0;
      now, users, issued, sealed := s.now, s.users, s.issued, s.sealed;
      rotation, blacklist, locks := s.rotation, s.blacklist, s.locks;
      requests, revocations := s.requests, s.revocations;
      origin, history := s, [];
    }

    function View(): State
      reads this
    {
      State(now, days, users, issued, sealed, rotation, blacklist, locks, requests, revocations)
    }

    /** What happened so far is a run of the state machine. */
    ghost predicate Faithful()
      reads this
    {
      Leads(origin, history, View())
    }

    /** Request r is at work, and no longer answered. */
    predicate Serving(r: RequestId)
      reads this
    {
      r in requests && !requests[r].phase.Answered?
    }

    method Apply(e: Event)
      requires Faithful() && Enabled(View(), e)
      modifies this
      ensures Faithful() && View() == Next(old(View()), e) && awaits == old(awaits)
    {
      hide Leads, Next, Enabled;
      LeadsThenOne(origin, history, View(), e);
      DaysStay(View(), e);
      history := history + [e];
      var s := Next(View(), e);
      now, users, issued, sealed := s.now, s.users, s.issued, s.sealed;
      rotation, blacklist, locks := s.rotation, s.blacklist, s.locks;
      requests, revocations := s.requests, s.revocations;
    }

    /** An await in request r: everybody else takes any enabled steps. */
    method Await(r: RequestId)
      requires Faithful() && Serving(r)
      modifies this
      ensures Faithful() && Serving(r) && requests[r] == old(requests[r])
      ensures old(now) <= now
    {
      hide Leads, Next, Enabled;
      var script := others(awaits);
      awaits := awaits + 1;
      for i := 0 to |script|
        invariant Faithful() && Serving(r) && requests[r] == old(requests[r]) && old(now) <= now
      {
        var e := script[i];
        if Enabled(View(), e) && !Concerns(e, r) {
          OthersLeaveRequest(View(), e, r);
          Apply(e);
        }
      }
    }

    /** asyncio.sleep: others run, and the time comes. */
    method Sleep(r: RequestId, until: int)
      requires Faithful() && Serving(r)
      modifies this
      ensures Faithful() && Serving(r) && requests[r] == old(requests[r])
      ensures until <= now
    {
      Await(r);
      if now < until {
        Apply(Tick(until));
      }
    }

    method Goto(r: RequestId, phase: Phase)
      requires r in requests
      modifies this`requests
      ensures requests == old(requests)[r := old(requests)[r].(phase := phase)]
    {
      requests := requests[r := requests[r].(phase := phase)];
    }

    /** Reads the rotation entry; missing says where to go without one. */
    method ReadRotation(r: RequestId, missing: Phase) returns (replay: Option<Answer>)
      requires Faithful() && Serving(r)
      requires MayRead(requests[r].phase, now, missing)
      modifies this`requests, this`history
      ensures Faithful() && View() == Next(old(View()), Advance(r, true))
      ensures r in requests && requests[r].token == old(requests[r].token)
      ensures replay.None? <==> Lookup(rotation, requests[r].token, now).None?
      ensures replay.None? ==> requests[r].phase == missing
      ensures replay.Some? ==> replay.value.Granted?
      ensures replay.Some? ==> requests[r].phase == if missing.Releasing? || missing.CheckingBlacklist?
        then Releasing(replay.value) else Answered(replay.value)
    {
      hide Leads;
      LeadsThenOne(origin, history, View(), Advance(r, true));
      history := history + [Advance(r, true)];
      var cached := Lookup(rotation, requests[r].token, now);
      RotationDecides(View(), r, missing);
      StepIsMove(View(), r, true);
      hide NextPhase, Lookup, Step, MayRead;
      if cached.None? {
        Goto(r, missing);
        return None;
      }
      var answer := Granted(cached.value, now);
      Goto(r, if missing.Releasing? || missing.CheckingBlacklist? then Releasing(answer) else Answered(answer));
      return Some(answer);
    }

    method TakeLock(r: RequestId) returns (acquired: bool)
      requires Faithful() && Serving(r) && requests[r].phase.Locking?
      modifies this`requests, this`locks, this`history
      ensures Faithful() && View() == Next(old(View()), Advance(r, true))
      ensures r in requests && requests[r].token == old(requests[r].token)
      ensures acquired <==> Lookup(old(locks), requests[r].token, now).None?
      ensures requests[r].phase == if acquired then Rechecking(now) else Waiting(WAIT_ATTEMPTS, now + WAIT_INTERVAL)
    {
      hide Leads;
      LeadsThenOne(origin, history, View(), Advance(r, true));
      history := history + [Advance(r, true)];
      var t := requests[r].token;
      acquired := Lookup(locks, t, now).None?;
      if acquired {
        locks := Put(locks, t, r, now, LOCK_TTL);
        Goto(r, Rechecking(now));
      } else {
        Goto(r, Waiting(WAIT_ATTEMPTS, now + WAIT_INTERVAL));
      }
    }

    method ReadBlacklist(r: RequestId) returns (used: bool)
      requires Faithful() && Serving(r) && requests[r].phase.CheckingBlacklist?
      modifies this`requests, this`history
      ensures Faithful() && View() == Next(old(View()), Advance(r, true))
      ensures r in requests && requests[r].token == old(requests[r].token)
      ensures used <==> Lookup(blacklist, requests[r].token, now).Some?
      ensures used ==> requests[r].phase.ReplayingUsed?
      ensures !used ==> requests[r].phase.LoadingUser?
    {
      hide Leads;
      LeadsThenOne(origin, history, View(), Advance(r, true));
      history := history + [Advance(r, true)];
      var since := requests[r].phase.since;
      used := Lookup(blacklist, requests[r].token, now).Some?;
      Goto(r, if used then ReplayingUsed(since) else LoadingUser(since));
    }

    /** Decodes the token and loads its user; a refusal ends the request. */
    method LoadUser(r: RequestId, decodes: bool) returns (refusal: Option<Answer>)
      requires Faithful() && Serving(r) && requests[r].phase.LoadingUser?
      modifies this`requests, this`history
      ensures Faithful() && View() == Next(old(View()), Advance(r, decodes))
      ensures r in requests && requests[r].token == old(requests[r].token)
      ensures refusal.Some? ==> requests[r].phase == Releasing(refusal.value)
      ensures refusal.None? ==> requests[r].phase.Signing?
      ensures refusal == Some(Undecodable) <==>
        !decodes || now / 1000 > requests[r].token.second + days * DAY_SECONDS
      ensures refusal == Some(UnknownUser) ==> requests[r].token.user !in users
      ensures refusal == Some(Revoked) ==>
        requests[r].token.user in users && users[requests[r].token.user] > requests[r].token.version
      ensures refusal.None? ==>
        requests[r].token.user in users && users[requests[r].token.user] <= requests[r].token.version
      ensures refusal.Some? ==> refusal.value in {Undecodable, UnknownUser, Revoked}
    {
      hide Leads;
      LeadsThenOne(origin, history, View(), Advance(r, decodes));
      history := history + [Advance(r, decodes)];
      var token := requests[r].token;
      if !decodes || Expired(View(), token) {
        refusal := Some(Undecodable);
      } else if token.user !in users {
        refusal := Some(UnknownUser);
      } else if users[token.user] > token.version {
        refusal := Some(Revoked);
      } else {
        Goto(r, Signing(requests[r].phase.since, users[token.user]));
        return None;
      }
      Goto(r, Releasing(refusal.value));
    }

    /** Signs the new tokens with the version that was read. */
    method SignPair(r: RequestId)
      requires Faithful() && Serving(r) && requests[r].phase.Signing?
      modifies this`requests, this`history
      ensures Faithful() && View() == Next(old(View()), Advance(r, true))
      ensures r in requests && requests[r].phase.Rotating?
    {
      hide Leads;
      LeadsThenOne(origin, history, View(), Advance(r, true));
      history := history + [Advance(r, true)];
      var Request(t, _, phase) := requests[r];
      Goto(r, Rotating(phase.since, Sign(t.user, phase.version, now)));
    }

    /** Writes the rotation entry for the new pair. */
    method Rotate(r: RequestId)
      requires Faithful() && Serving(r) && requests[r].phase.Rotating?
      modifies this`requests, this`issued, this`rotation, this`history
      ensures Faithful() && View() == Next(old(View()), Advance(r, true))
      ensures r in requests && requests[r].token == old(requests[r].token) && |issued| == |old(issued)| + 1
      ensures requests[r].phase == Blacklisting(old(requests[r].phase).since, |old(issued)|)
    {
      hide Leads;
      LeadsThenOne(origin, history, View(), Advance(r, true));
      history := history + [Advance(r, true)];
      var Request(t, _, phase) := requests[r];
      var pair := |issued|;
      issued := issued + [Pair(phase.signed, Refreshed(t, r), now)];
      rotation := Put(rotation, t, pair, now, ROTATION_TTL);
      Goto(r, Blacklisting(phase.since, pair));
    }

    /** Blacklists the old token and prepares the answer. */
    method BlacklistToken(r: RequestId) returns (answer: Answer)
      requires Faithful() && Serving(r) && requests[r].phase.Blacklisting?
      modifies this`requests, this`blacklist, this`sealed, this`history
      ensures Faithful() && View() == Next(old(View()), Advance(r, true))
      ensures r in requests && requests[r].token == old(requests[r].token)
      ensures requests[r].phase == Releasing(answer) && answer.Granted? && answer.pair == old(requests[r].phase).pair
    {
      hide Leads;
      LeadsThenOne(origin, history, View(), Advance(r, true));
      history := history + [Advance(r, true)];
      var pair := requests[r].phase.pair;
      blacklist := Put(blacklist, requests[r].token, "used", now, days * DAY);
      sealed := sealed[pair := now];
      answer := Granted(pair, if pair < |issued| then issued[pair].at else now);
      Goto(r, Releasing(answer));
    }

    /** The finally clause: gives the lock back if it is still r's own. */
    method ReleaseLock(r: RequestId)
      requires Faithful() && Serving(r) && requests[r].phase.Releasing?
      modifies this`requests, this`locks, this`history
      ensures Faithful() && View() == Next(old(View()), Advance(r, true))
      ensures r in requests && requests[r].phase == Answered(old(requests[r].phase).answer)
    {
      hide Leads;
      LeadsThenOne(origin, history, View(), Advance(r, true));
      history := history + [Advance(r, true)];
      locks := RemoveIfValue(locks, requests[r].token, r, now);
      Goto(r, Answered(requests[r].phase.answer));
    }

    /** A request that did not get the lock looks at the rotation entry, up to eight times and a quarter of a
        second apart. */
    method WaitForRotation(r: RequestId) returns (answer: Answer)
      requires Faithful() && Serving(r)
      requires requests[r].phase.Waiting? && requests[r].phase.left == WAIT_ATTEMPTS
      modifies this
      ensures Faithful() && r in requests && requests[r].phase == Answered(answer)
      ensures answer == Busy || answer.Granted?
      ensures answer == Busy ==> now >= old(requests[r].phase).wakeAt + (WAIT_ATTEMPTS - 1) * WAIT_INTERVAL
    {
      hide Leads, Next;
      for attempt := 0 to WAIT_ATTEMPTS
        invariant Faithful() && r in requests
        invariant attempt < WAIT_ATTEMPTS ==>
          requests[r].phase.Waiting? && requests[r].phase.left == WAIT_ATTEMPTS - attempt
        invariant attempt < WAIT_ATTEMPTS ==>
          requests[r].phase.wakeAt >= old(requests[r].phase).wakeAt + attempt * WAIT_INTERVAL
        invariant attempt == WAIT_ATTEMPTS ==> requests[r].phase == Answered(Busy)
        invariant attempt == WAIT_ATTEMPTS ==>
          now >= old(requests[r].phase).wakeAt + (WAIT_ATTEMPTS - 1) * WAIT_INTERVAL
      {
        var Waiting(left, wakeAt) := requests[r].phase;
        Sleep(r, wakeAt);
        var replay := ReadRotation(r, if left <= 1 then Answered(Busy) else Waiting(left - 1, now + WAIT_INTERVAL));
        if replay.Some? {
          return replay.value;
        }
      }
      return Busy;
    }

    /** What a holder of the lock does before giving it back. */
    method RefreshLocked(r: RequestId, decodes: bool) returns (answer: Answer)
      requires Faithful() && Serving(r) && requests[r].phase.Rechecking?
      modifies this
      ensures Faithful() && Serving(r) && requests[r].phase == Releasing(answer) && answer != Busy
    {
      hide Leads, Next;
      var replay := ReadRotation(r, CheckingBlacklist(requests[r].phase.since));
      if replay.Some? {
        return replay.value;
      }
      Await(r);
      var used := ReadBlacklist(r);
      Await(r);
      if used {
        replay := ReadRotation(r, Releasing(Used));
        return if replay.Some? then replay.value else Used;
      }
      var refusal := LoadUser(r, decodes);
      if refusal.Some? {
        return refusal.value;
      }
      answer := MintPair(r);
    }

    /** The try and finally of a request that got the lock. */
    method RefreshAsHolder(r: RequestId, decodes: bool) returns (answer: Answer)
      requires Faithful() && Serving(r) && requests[r].phase.Rechecking?
      modifies this
      ensures Faithful() && r in requests && requests[r].phase == Answered(answer) && answer != Busy
    {
      hide Leads, Next;
      Await(r);
      answer := RefreshLocked(r, decodes);
      Await(r);
      ReleaseLock(r);
    }

    /** Signing and the two writes of a rotation. */
    method MintPair(r: RequestId) returns (answer: Answer)
      requires Faithful() && Serving(r) && requests[r].phase.Signing?
      modifies this
      ensures Faithful() && Serving(r) && requests[r].phase == Releasing(answer) && answer.Granted?
    {
      hide Leads, Next;
      Await(r);
      SignPair(r);
      Await(r);
      Rotate(r);
      Await(r);
      answer := BlacklistToken(r);
    }

    /** The endpoint: whatever everybody else does meanwhile, its steps are a run of the state machine and its reply is
        the answer the state machine records. */
    method Refresh(r: RequestId, t: Token, decodes: bool) returns (answer: Answer)
      requires Faithful() && r !in requests && IsIssued(View(), t)
      modifies this
      ensures Faithful() && r in requests && requests[r].phase == Answered(answer)
    {
      hide Leads, Next;
      BeginStarts(View(), r, t);
      Apply(Begin(r, t));
      Await(r);
      var replay := ReadRotation(r, Locking);
      if replay.Some? {
        return replay.value;
      }
      Await(r);
      var acquired := TakeLock(r);
      if acquired {
        answer := RefreshAsHolder(r, decodes);
      } else {
        answer := WaitForRotation(r);
      }
    }
  }

  lemma BeginStarts(s: State, r: RequestId, t: Token)
    requires Enabled(s, Begin(r, t))
    ensures var s' := Next(s, Begin(r, t));
      r in s'.requests && s'.requests[r] == Request(t, s.now, Replaying)
  {
  }
}
