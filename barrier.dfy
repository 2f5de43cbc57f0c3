/**
 * The polling gate of barrier.py: a time-of-hour window with bounded retries,
 * a cooldown after the retry budget is spent, a minimum age between successes
 * and a sticky "force the next attempt" flag.
 *
 * Time is an integer number of seconds since the epoch (UTC); the local
 * minute-of-hour of `now` is passed in separately, because converting to the
 * local zone is not part of the model.
 */
module Barrier {

  /** The verdict of `get_state`; only ever computed, never stored. */
  datatype State =
    | CooldownBarrierActive
    | Forced
    | Ready
    | Retrying
    | TooRecent
    | UpdateWindowClosed

  /** Verdicts under which `allowed` answers yes. */
  predicate Admits(s: State) {
    s == Forced || s == Retrying || s == Ready
  }

  /**
   * Construction parameters. `maxAge` is in seconds; the two delay bounds are
   * only read by `delay`, which is not modelled.
   */
  datatype Config = Config(windowStartMinute: int, windowEndMinute: int, maxRetries: int, maxAge: int)

  /** The four mutable fields, as a value. */
  datatype Fields = Fields(forceNext: bool, failures: nat, lastSuccess: int, cooldown: int)

  const EPOCH: int := 0

  /** The state a new barrier starts in: nothing forced, no failures, both instants at the epoch. */
  function Initial(): Fields {
    Fields(false, 0, EPOCH, EPOCH)
  }

  predicate WindowOpen(cfg: Config, minute: int) {
    cfg.windowStartMinute <= minute <= cfg.windowEndMinute
  }

  /** The minimum age of the last success, in seconds: the window width. */
  function MinAge(cfg: Config): int {
    (cfg.windowEndMinute - cfg.windowStartMinute) * 60
  }

  /** The retry budget is spent and the cooldown it imposed is over. */
  predicate CooldownServed(cfg: Config, f: Fields, now: int) {
    f.failures >= cfg.maxRetries && now >= f.cooldown
  }

  /** Neither forced, nor cooling down, nor retrying: the window and recency rules decide. */
  predicate WindowRulesApply(cfg: Config, f: Fields, now: int) {
    !f.forceNext && now >= f.cooldown && !(0 < f.failures < cfg.maxRetries)
  }

  /**
   * The only mutation `get_state` makes: once the cooldown is served the
   * failure count is forgotten. Nothing else changes.
   */
  function Housekeep(cfg: Config, f: Fields, now: int): (g: Fields)
    ensures g.forceNext == f.forceNext && g.lastSuccess == f.lastSuccess && g.cooldown == f.cooldown
    ensures CooldownServed(cfg, f, now) ==> g.failures == 0
    ensures !CooldownServed(cfg, f, now) ==> g == f
  {
    if CooldownServed(cfg, f, now) then f.(failures := 0) else f
  }

  /**
   * The verdict of `get_state`: housekeeping first, then the ordered rules.
   * The postconditions give every verdict its full, order-free condition in
   * terms of the fields before the call.
   */
  function Verdict(cfg: Config, f: Fields, now: int, minute: int): (s: State)
    ensures s == Forced <==> f.forceNext
    ensures s == CooldownBarrierActive <==> !f.forceNext && now < f.cooldown
    ensures s == Retrying <==> !f.forceNext && now >= f.cooldown && 0 < f.failures < cfg.maxRetries
    ensures s == UpdateWindowClosed <==> WindowRulesApply(cfg, f, now) && !WindowOpen(cfg, minute)
    ensures s == TooRecent <==>
      WindowRulesApply(cfg, f, now) && WindowOpen(cfg, minute) && now - f.lastSuccess <= MinAge(cfg)
    ensures s == Ready <==>
      WindowRulesApply(cfg, f, now) && WindowOpen(cfg, minute) && now - f.lastSuccess > MinAge(cfg)
  {
    var g := Housekeep(cfg, f, now);
    if g.forceNext then Forced
    else if now < g.cooldown then CooldownBarrierActive
    else if 0 < g.failures < cfg.maxRetries then Retrying
    else if !WindowOpen(cfg, minute) then UpdateWindowClosed
    else if now - g.lastSuccess <= MinAge(cfg) then TooRecent
    else Ready
  }

  /** `allowed`: true exactly for the admitting verdicts. */
  function IsAllowed(cfg: Config, f: Fields, now: int, minute: int): (ok: bool)
    ensures ok <==> f.forceNext || (now >= f.cooldown && 0 < f.failures < cfg.maxRetries) ||
                    (WindowRulesApply(cfg, f, now) && WindowOpen(cfg, minute) && now - f.lastSuccess > MinAge(cfg))
  {
    Admits(Verdict(cfg, f, now, minute))
  }

  /** `force_next`: only the flag is raised. */
  function AfterForce(f: Fields): (g: Fields)
    ensures g.forceNext && g.failures == f.failures && g.lastSuccess == f.lastSuccess && g.cooldown == f.cooldown
  {
    f.(forceNext := true)
  }

  /** `sucess`: the flag is cleared, the failures forgotten and the success time recorded. */
  function AfterSuccess(f: Fields, now: int): (g: Fields)
    ensures !g.forceNext && g.failures == 0 && g.lastSuccess == now && g.cooldown == f.cooldown
  {
    f.(forceNext := false, failures := 0, lastSuccess := now)
  }

  /**
   * `fail`: one more failure; when that spends the retry budget the flag is
   * cleared and a cooldown of half the maximum age starts now.
   */
  function AfterFail(cfg: Config, f: Fields, now: int): (g: Fields)
    ensures g.failures == f.failures + 1 && g.lastSuccess == f.lastSuccess
    ensures g.failures >= cfg.maxRetries ==> !g.forceNext && g.cooldown == now + cfg.maxAge / 2
    ensures g.failures < cfg.maxRetries ==> g.forceNext == f.forceNext && g.cooldown == f.cooldown
  {
    var counted := f.(failures := f.failures + 1);
    if counted.failures >= cfg.maxRetries then
      counted.(forceNext := false, cooldown := now + cfg.maxAge / 2)
    else
      counted
  }

  /** A run of consecutive `fail` calls, at the given instants, oldest first. */
  function FailAll(cfg: Config, f: Fields, times: seq<int>): Fields {
    if times == [] then f
    else AfterFail(cfg, FailAll(cfg, f, times[..|times| - 1]), times[|times| - 1])
  }

  /**
   * Consecutive failures add up one by one; below the budget nothing else
   * moves, and once the budget is spent the flag is down and the cooldown
   * runs from the latest failure.
   */
  lemma {:induction false} FailsAccumulate(cfg: Config, f: Fields, times: seq<int>)
    ensures FailAll(cfg, f, times).failures == f.failures + |times|
    ensures FailAll(cfg, f, times).lastSuccess == f.lastSuccess
    ensures f.failures + |times| < cfg.maxRetries ==> FailAll(cfg, f, times) == f.(failures := f.failures + |times|)
    ensures |times| > 0 && f.failures + |times| >= cfg.maxRetries ==>
      !FailAll(cfg, f, times).forceNext && FailAll(cfg, f, times).cooldown == times[|times| - 1] + cfg.maxAge / 2
  {
    if times != [] {
      FailsAccumulate(cfg, f, times[..|times| - 1]);
    }
  }

  /**
   * Retry bound: fewer failures than the budget, starting from a fresh
   * barrier, leave every later check RETRYING, whatever the window.
   */
  lemma RetryBound(cfg: Config, times: seq<int>, now: int, minute: int)
    requires 0 < |times| < cfg.maxRetries
    requires now >= EPOCH
    ensures Verdict(cfg, FailAll(cfg, Initial(), times), now, minute) == Retrying
  {
    FailsAccumulate(cfg, Initial(), times);
  }

  /**
   * Once the budget is spent, checks before the end of the cooldown are
   * denied, even if the next attempt had been forced before the failures.
   */
  lemma CooldownAfterBudget(cfg: Config, f: Fields, times: seq<int>, now: int, minute: int)
    requires |times| > 0 && f.failures + |times| >= cfg.maxRetries
    requires now < times[|times| - 1] + cfg.maxAge / 2
    ensures Verdict(cfg, FailAll(cfg, f, times), now, minute) == CooldownBarrierActive
  {
    FailsAccumulate(cfg, f, times);
  }

  /** A success arms the recency rule: until the window width has passed, an open window says TOO_RECENT. */
  lemma SuccessArmsRecency(cfg: Config, f: Fields, at: int, now: int, minute: int)
    requires now >= f.cooldown && WindowOpen(cfg, minute)
    requires at <= now <= at + MinAge(cfg)
    ensures Verdict(cfg, AfterSuccess(f, at), now, minute) == TooRecent
  {
  }

  /** Calling `sucess` twice with the same instant is the same as calling it once. */
  lemma SuccessIdempotent(f: Fields, now: int)
    ensures AfterSuccess(AfterSuccess(f, now), now) == AfterSuccess(f, now)
  {
  }

  /** Housekeeping never changes the verdict of the call that performs it. */
  lemma HousekeepingKeepsVerdict(cfg: Config, f: Fields, now: int, minute: int)
    ensures Verdict(cfg, Housekeep(cfg, f, now), now, minute) == Verdict(cfg, f, now, minute)
  {
  }

  /** The production window of the measure gate: minutes 50 to 59, 3 retries, 3000 s maximum age. */
  const MEASURE_CONFIG: Config := Config(50, 59, 3, 3000)

  /** A fresh barrier: window closed at minute 30, READY at minute 55 once 540 s have passed since the epoch. */
  lemma FreshBarrierScenarios(now: int)
    requires now > EPOCH + 540
    ensures Verdict(MEASURE_CONFIG, Initial(), now, 30) == UpdateWindowClosed
    ensures Verdict(MEASURE_CONFIG, Initial(), now, 55) == Ready
  {
  }

  /** Three failures at `now` start a 1500 s cooldown that denies an immediate check, even after a forced request. */
  lemma ThreeFailuresScenario(now: int, minute: int, forced: bool)
    ensures FailAll(MEASURE_CONFIG, Initial().(forceNext := forced), [now, now, now]).cooldown == now + 1500
    ensures Verdict(MEASURE_CONFIG, FailAll(MEASURE_CONFIG, Initial().(forceNext := forced), [now, now, now]), now, minute)
            == CooldownBarrierActive
  {
    FailsAccumulate(MEASURE_CONFIG, Initial().(forceNext := forced), [now, now, now]);
  }

  /** The gate object of barrier.py, with its four mutable fields. */
  class Barrier {
    const cfg: Config
    var forceNext: bool
    var failures: nat
    var lastSuccess: int
    var cooldown: int

    function Current(): Fields
      reads this
    {
      Fields(forceNext, failures, lastSuccess, cooldown)
    }

    constructor (cfg: Config)
      ensures this.cfg == cfg && Current() == Initial()
    {
      this.cfg := cfg;
      forceNext, failures := false, 0;
      lastSuccess, cooldown := EPOCH, EPOCH;
    }

    /** `get_state`: may reset the failure count, and returns the verdict. */
    method GetState(now: int, minute: int) returns (s: State)
      modifies this`failures
      ensures s == Verdict(cfg, old(Current()), now, minute)
      ensures Current() == Housekeep(cfg, old(Current()), now)
    {
      if failures >= cfg.maxRetries && now >= cooldown {
        failures := 0;
      }
      if forceNext {
        return Forced;
      }
      if now < cooldown {
        return CooldownBarrierActive;
      }
      if failures > 0 && failures < cfg.maxRetries {
        return Retrying;
      }
      if !(cfg.windowStartMinute <= minute <= cfg.windowEndMinute) {
        return UpdateWindowClosed;
      }
      if now - lastSuccess <= (cfg.windowEndMinute - cfg.windowStartMinute) * 60 {
        return TooRecent;
      }
      return Ready;
    }

    method ForceNext()
      modifies this`forceNext
      ensures Current() == AfterForce(old(Current()))
    {
      forceNext := true;
    }

    /** The source spells this method `sucess`. */
    method Sucess(now: int)
      modifies this`forceNext, this`failures, this`lastSuccess
      ensures Current() == AfterSuccess(old(Current()), now)
    {
      forceNext := false;
      failures := 0;
      lastSuccess := now;
    }

    method Fail(now: int)
      modifies this`forceNext, this`failures, this`cooldown
      ensures Current() == AfterFail(cfg, old(Current()), now)
    {
      failures := failures + 1;
      if failures >= cfg.maxRetries {
        forceNext := false;
        cooldown := now + cfg.maxAge / 2;
      }
    }

    method Allowed(now: int, minute: int) returns (ok: bool)
      modifies this`failures
      ensures ok == IsAllowed(cfg, old(Current()), now, minute)
      ensures Current() == Housekeep(cfg, old(Current()), now)
    {
      var s := GetState(now, minute);
      ok := s == Forced || s == Retrying || s == Ready;
    }
  }
}
