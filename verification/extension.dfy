/** The request throttle of the editor extension
    (extensions/neorium-copilot/src/extension.ts): `RateLimiter` and the
    gate at the top of `runChat`. `Date.now()` is the parameter `now`. */
module Extension {
  import opened Base

  /** The limiter lets a run through when at least `minIntervalMs` passed
      since the last run it let through. */
  predicate Allows(lastAt: int, minIntervalMs: int, now: int)
  {
    now - lastAt >= minIntervalMs
  }

  /** Consecutive times in `times` are at least `gap` apart. */
  ghost predicate Spaced(times: seq<int>, gap: int)
  {
    forall k :: 0 <= k < |times| - 1 ==> times[k + 1] - times[k] >= gap
  }

  class RateLimiter {
    var lastAt: int
    const minIntervalMs: int
    /** The times of every run let through so far. */
    ghost var granted: seq<int>

    ghost predicate Valid()
      reads this
    {
      && (granted == [] ==> lastAt == 0)
      && (granted != [] ==> lastAt == granted[|granted| - 1])
      && Spaced(granted, minIntervalMs)
    }

    constructor (minIntervalMs: int)
      ensures Valid() && granted == []
      ensures lastAt == 0 && this.minIntervalMs == minIntervalMs
    {
      lastAt := 0;
      this.minIntervalMs := minIntervalMs;
      granted := [];
    }

    /** `canRun()`: refuses without any change while the interval has not
      passed; otherwise records `now` and accepts. */
    method CanRun(now: int) returns (ok: bool)
      requires Valid()
      modifies this
      ensures Valid()
      ensures ok <==> Allows(old(lastAt), minIntervalMs, now)
      ensures ok ==> lastAt == now && granted == old(granted) + [now]
      ensures !ok ==> lastAt == old(lastAt) && granted == old(granted)
    {
      if now - lastAt < minIntervalMs {
        return false;
      }
      lastAt := now;
      granted := granted + [now];
      return true;
    }
  }

  /** With a non-negative interval, any two runs the limiter let through,
      not only consecutive ones, are at least the interval apart, whatever
      the clock did in between. */
  lemma {:induction false} SpacedApart(times: seq<int>, gap: int)
    requires gap >= 0 && Spaced(times, gap)
    ensures forall i, j :: 0 <= i < j < |times| ==> times[j] - times[i] >= gap
  {
    if |times| > 1 {
      var init := times[..|times| - 1];
      assert Spaced(init, gap);
      SpacedApart(init, gap);
      forall i, j | 0 <= i < j < |times| ensures times[j] - times[i] >= gap {
        if j < |times| - 1 {
          assert times[j] - times[i] == init[j] - init[i];
        } else if i < j - 1 {
          assert init[j - 1] - init[i] >= gap;
        }
      }
    }
  }

  /** A run allowed at one time is allowed at any later time. */
  lemma {:induction false} AllowsLater(lastAt: int, minIntervalMs: int, now: int, later: int)
    requires Allows(lastAt, minIntervalMs, now) && now <= later
    ensures Allows(lastAt, minIntervalMs, later)
  {
  }

  /** The start of `runChat`: a refused run, or a missing or empty key,
      returns nothing before any client is built. `proceeds` says whether
      the chat goes ahead. */
  method RunChatGate(limiter: RateLimiter, now: int, apiKey: Option<string>) returns (proceeds: bool)
    requires limiter.Valid()
    modifies limiter
    ensures limiter.Valid()
    ensures proceeds <==> Allows(old(limiter.lastAt), limiter.minIntervalMs, now) && apiKey.Some? && apiKey.value != ""
    ensures !Allows(old(limiter.lastAt), limiter.minIntervalMs, now) ==>
              limiter.lastAt == old(limiter.lastAt) && limiter.granted == old(limiter.granted)
    ensures Allows(old(limiter.lastAt), limiter.minIntervalMs, now) ==>
              limiter.lastAt == now && limiter.granted == old(limiter.granted) + [now]
  {
    var ok := limiter.CanRun(now);
    if !ok {
      return false;
    }
    if apiKey.None? || apiKey.value == "" {
      return false;
    }
    return true;
  }
}
