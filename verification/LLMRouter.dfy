/** LLMRouter.complete of backend/ai/providers.py: one breaker in front of the primary model. */
module LLMRouter {
  datatype Reply = Content(text: string) | Raised

  datatype Result = FromPrimary(text: string) | FromFallback(reply: Reply) | CircuitOpenError | PrimaryRaised

  datatype Breaker = Breaker(failureCount: nat, circuitOpen: bool, lastFailureTime: int)

  datatype Config = Config(failureThreshold: int, recoveryTimeout: int)

  /** The circuit stays closed to the primary: it is open and has not rested long enough at time now. */
  predicate Refuses(b: Breaker, cfg: Config, now: int) {
    b.circuitOpen && now - b.lastFailureTime <= cfg.recoveryTimeout
  }

  /** A call that starts at time start, whose primary, if asked, fails at time end. */
  function AfterFailure(b: Breaker, cfg: Config, start: int, end: int): Breaker {
    if Refuses(b, cfg, start) then b
    else
      var count := (if b.circuitOpen then 0 else b.failureCount) + 1;
      if count >= cfg.failureThreshold then Breaker(count, true, end) else Breaker(count, false, b.lastFailureTime)
  }

  function AfterSuccess(b: Breaker, cfg: Config, start: int): Breaker {
    if Refuses(b, cfg, start) then b else Breaker(0, false, b.lastFailureTime)
  }

  class Router {
    const cfg: Config
    const hasFallback: bool
    var failureCount: nat
    var circuitOpen: bool
    var lastFailureTime: int

    constructor (cfg: Config, hasFallback: bool)
      ensures this.cfg == cfg && this.hasFallback == hasFallback && View() == Breaker(0, false, 0)
    {
      this.cfg, this.hasFallback := cfg, hasFallback;
      failureCount, circuitOpen, lastFailureTime := 0, false, 0;
    }

    ghost function View(): Breaker
      reads this
    {
      Breaker(failureCount, circuitOpen, lastFailureTime)
    }

    /** The clock reads start on entry and end when the primary has failed; primary and fallback are
        what the models would answer. */
    method Complete(start: int, end: int, primary: Reply, fallback: Reply) returns (r: Result, primaryCalled: bool)
      modifies this
      ensures primaryCalled <==> !Refuses(old(View()), cfg, start)
      ensures View() == if primary.Content? then AfterSuccess(old(View()), cfg, start)
        else AfterFailure(old(View()), cfg, start, end)
      ensures r == if primaryCalled && primary.Content? then FromPrimary(primary.text)
                   else if hasFallback then FromFallback(fallback)
                   else if primaryCalled then PrimaryRaised else CircuitOpenError
      ensures primaryCalled <==> !old(circuitOpen) || start - old(lastFailureTime) > cfg.recoveryTimeout
      ensures r.FromPrimary? ==> failureCount == 0 && !circuitOpen
      ensures primaryCalled && primary.Raised? ==>
        && failureCount == (if old(circuitOpen) then 0 else old(failureCount)) + 1
        && (circuitOpen <==> failureCount >= cfg.failureThreshold) && (circuitOpen ==> lastFailureTime == end)
      ensures !primaryCalled ==> View() == old(View())
    {
      primaryCalled := false;
      if circuitOpen {
        if start - lastFailureTime > cfg.recoveryTimeout {
          circuitOpen := false;
          failureCount := 0;
        } else if hasFallback {
          return FromFallback(fallback), false;
        } else {
          return CircuitOpenError, false;
        }
      }
      primaryCalled := true;
      if primary.Content? {
        failureCount := 0;
        return FromPrimary(primary.text), true;
      }
      failureCount := failureCount + 1;
      if failureCount >= cfg.failureThreshold {
        circuitOpen := true;
        lastFailureTime := end;
      }
      r := if hasFallback then FromFallback(fallback) else PrimaryRaised;
    }
  }

  // ----- Open exactly when the count has reached the threshold -----

  datatype Call = Call(start: int, end: int, succeeds: bool)

  function After(b: Breaker, cfg: Config, calls: seq<Call>): Breaker
    decreases |calls|
  {
    if calls == [] then b
    else
      var c := calls[0];
      After(if c.succeeds then AfterSuccess(b, cfg, c.start) else AfterFailure(b, cfg, c.start, c.end), cfg, calls[1..])
  }

  lemma {:induction false} OpenIffThresholdReached(b: Breaker, cfg: Config, calls: seq<Call>)
    requires cfg.failureThreshold >= 1
    requires b.circuitOpen <==> b.failureCount >= cfg.failureThreshold
    ensures var b' := After(b, cfg, calls); b'.circuitOpen <==> b'.failureCount >= cfg.failureThreshold
    decreases |calls|
  {
    if calls != [] {
      var c := calls[0];
      var b' := if c.succeeds then AfterSuccess(b, cfg, c.start) else AfterFailure(b, cfg, c.start, c.end);
      OpenIffThresholdReached(b', cfg, calls[1..]);
    }
  }

  // ----- How often a dead primary is called -----

  /** Calls one after the other, the primary failing each time it is asked. */
  ghost predicate Sequential(calls: seq<Call>, from: int) {
    && (forall i :: 0 <= i < |calls| ==> from <= calls[i].start <= calls[i].end && !calls[i].succeeds)
    && (forall i, j :: 0 <= i < j < |calls| ==> calls[i].end <= calls[j].start)
  }

  /** Primary calls that start in the closed interval [lo, lo + width]. */
  function PrimaryCalls(b: Breaker, cfg: Config, calls: seq<Call>, lo: int, width: int): nat
    decreases |calls|
  {
    if calls == [] then 0
    else
      var c := calls[0];
      (if !Refuses(b, cfg, c.start) && lo <= c.start <= lo + width then 1 else 0)
      + PrimaryCalls(AfterFailure(b, cfg, c.start, c.end), cfg, calls[1..], lo, width)
  }

  ghost predicate Regular(b: Breaker, cfg: Config) {
    cfg.failureThreshold >= 1 && cfg.recoveryTimeout >= 1 && (b.circuitOpen <==> b.failureCount >= cfg.failureThreshold)
  }

  function Max(a: int, b: int): int { if a > b then a else b }

  /** Calls in the batches that can begin from time t until the given one, a recovery timeout apart. */
  function Batches(cfg: Config, t: int, until: int): int
    requires cfg.recoveryTimeout >= 1
    decreases until - t
  {
    if t > until then 0 else cfg.failureThreshold + Batches(cfg, t + cfg.recoveryTimeout, until)
  }

  /** What can still be called in [lo, lo + width] from time now on. */
  function Allowance(b: Breaker, cfg: Config, now: int, lo: int, width: int): int
    requires cfg.recoveryTimeout >= 1
  {
    var until := lo + width;
    if now < lo then Batches(cfg, lo, until)
    else if now > until then 0
    else if b.circuitOpen then Batches(cfg, Max(now, b.lastFailureTime + cfg.recoveryTimeout + 1), until)
    else Batches(cfg, now, until) - b.failureCount
  }

  lemma {:induction false} BatchesShrink(cfg: Config, t: int, t': int, until: int)
    requires cfg.recoveryTimeout >= 1 && cfg.failureThreshold >= 1 && t <= t'
    ensures 0 <= Batches(cfg, t', until) <= Batches(cfg, t, until)
    decreases until - t
  {
    if t <= until {
      BatchesShrink(cfg, t + cfg.recoveryTimeout, t' + cfg.recoveryTimeout, until);
    }
  }

  /** A batch that starts at t and ends at time e leaves room only for batches after its recovery. */
  lemma NextBatchCosts(cfg: Config, t: int, e: int, until: int)
    requires cfg.recoveryTimeout >= 1 && cfg.failureThreshold >= 1 && t <= e && t <= until
    ensures Batches(cfg, e + cfg.recoveryTimeout + 1, until) + cfg.failureThreshold <= Batches(cfg, t, until)
  {
    BatchesShrink(cfg, t + cfg.recoveryTimeout, e + cfg.recoveryTimeout + 1, until);
  }

  lemma {:induction false} BatchesInWindow(cfg: Config, lo: int, width: int, n: nat)
    requires cfg.recoveryTimeout >= 1 && cfg.failureThreshold >= 1 && width < n * cfg.recoveryTimeout
    ensures Batches(cfg, lo, lo + width) <= cfg.failureThreshold * n
    decreases n
  {
    var r, k := cfg.recoveryTimeout, cfg.failureThreshold;
    if width >= 0 && n > 0 {
      assert n * r == (n - 1) * r + r;
      assert k * n == k * (n - 1) + k;
      BatchesInWindow(cfg, lo + r, width - r, n - 1);
    } else {
      MultiplyMonotone(k, 0, n);
    }
  }

  lemma MultiplyMonotone(k: int, a: int, b: int)
    requires 0 <= k && a <= b
    ensures k * a <= k * b
  {
  }

  lemma AllowanceStep(b: Breaker, cfg: Config, now: int, c: Call, lo: int, width: int)
    requires Regular(b, cfg) && width >= 0 && now <= c.start <= c.end
    ensures var b' := AfterFailure(b, cfg, c.start, c.end);
      && Regular(b', cfg)
      && (if !Refuses(b, cfg, c.start) && lo <= c.start <= lo + width then 1 else 0)
         + Allowance(b', cfg, c.end, lo, width) <= Allowance(b, cfg, now, lo, width)
  {
    var b' := AfterFailure(b, cfg, c.start, c.end);
    var until := lo + width;
    if c.end < lo {
    } else if now > until {
    } else {
      var t := Max(c.start, lo);
      BatchesShrink(cfg, Max(now, lo), t, until);
      BatchesShrink(cfg, t, Max(t, c.end), until);
      if t <= until {
        NextBatchCosts(cfg, t, Max(t, c.end), until);
      }
      var ready := Max(now, b.lastFailureTime + cfg.recoveryTimeout + 1);
      BatchesShrink(cfg, lo, Max(lo, Max(c.end, ready)), until);
      BatchesShrink(cfg, ready, Max(ready, c.start), until);
      BatchesShrink(cfg, ready, Max(ready, c.end), until);
      BatchesShrink(cfg, Max(now, lo) + cfg.recoveryTimeout, Max(now, lo) + cfg.recoveryTimeout, until);
    }
  }

  lemma {:induction false} CallsWithinAllowance(b: Breaker, cfg: Config, calls: seq<Call>, now: int, lo: int,
                                                width: int)
    requires Regular(b, cfg) && width >= 0 && Sequential(calls, now)
    ensures PrimaryCalls(b, cfg, calls, lo, width) <= Allowance(b, cfg, now, lo, width)
    decreases |calls|
  {
    BatchesShrink(cfg, Max(now, lo) + cfg.recoveryTimeout, Max(now, lo) + cfg.recoveryTimeout, lo + width);
    BatchesShrink(cfg, now, Max(now, b.lastFailureTime + cfg.recoveryTimeout + 1), lo + width);
    if calls != [] {
      AllowanceStep(b, cfg, now, calls[0], lo, width);
      CallsWithinAllowance(AfterFailure(b, cfg, calls[0].start, calls[0].end), cfg, calls[1..], calls[0].end,
                             lo, width);
    }
  }

  /** In any window of the given width a primary that always fails is called at most threshold times
      for each recovery timeout that fits, plus threshold times more. */
  lemma DeadPrimaryIsSpared(cfg: Config, calls: seq<Call>, start: int, lo: int, width: int)
    requires cfg.failureThreshold >= 1 && cfg.recoveryTimeout >= 1 && width >= 0 && Sequential(calls, start)
    ensures PrimaryCalls(Breaker(0, false, 0), cfg, calls, lo, width)
            <= cfg.failureThreshold * (width / cfg.recoveryTimeout + 1)
  {
    var n := width / cfg.recoveryTimeout + 1;
    assert width < n * cfg.recoveryTimeout;
    BatchesInWindow(cfg, lo, width, n);
    CallsWithinAllowance(Breaker(0, false, 0), cfg, calls, if start < lo then start else lo, lo, width);
  }
}
