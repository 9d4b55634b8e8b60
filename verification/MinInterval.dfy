/**
 * The in-process limiter: at least one interval between requests. It paces a
 * process while Redis is unreachable.
 */
module MinInterval {

  /** Wall-clock time; it never runs backwards and a sleep is never short. */
  class Clock {
    var now: real
    /** Every sleep asked for so far. */
    ghost var naps: seq<real>

    constructor(start: real)
      ensures now == start && naps == []
    {
      now, naps := start, [];
    }

    method Read() returns (t: real)
      modifies this`now
      ensures t == now && old(now) <= now
    {
      var drift: real := *;
      if 0.0 < drift { now := now + drift; }
      t := now;
    }

    method Sleep(duration: real)
      requires 0.0 <= duration
      modifies this
      ensures old(now) + duration <= now && naps == old(naps) + [duration]
    {
      var extra: real := *;
      naps := naps + [duration];
      now := now + duration + (if 0.0 < extra then extra else 0.0);
    }
  }

  /** Each event comes at least `gap` after the one before it. */
  ghost predicate Spaced(times: seq<real>, gap: real) {
    forall i :: 0 < i < |times| ==> times[i - 1] + gap <= times[i]
  }

  /** How many of `times` fall in the half-open interval [lo, hi). */
  function CountIn(times: seq<real>, lo: real, hi: real): nat {
    if |times| == 0 then 0
    else CountIn(times[..|times| - 1], lo, hi) + (if lo <= times[|times| - 1] < hi then 1 else 0)
  }

  lemma {:induction false} CountsAgree(times: seq<real>, lo: real, hi: real, hi': real)
    requires forall i :: 0 <= i < |times| ==> (lo <= times[i] < hi <==> lo <= times[i] < hi')
    ensures CountIn(times, lo, hi) == CountIn(times, lo, hi')
  {
    if |times| > 0 { CountsAgree(times[..|times| - 1], lo, hi, hi'); }
  }

  lemma {:induction false} SpacedSpread(times: seq<real>, gap: real, i: nat, j: nat)
    requires Spaced(times, gap) && 0.0 <= gap && i < j < |times|
    ensures times[i] + gap <= times[j]
  {
    if i + 1 < j { SpacedSpread(times, gap, i, j - 1); }
  }

  function Gaps(k: nat, gap: real): real {
    if k == 0 then 0.0 else Gaps(k - 1, gap) + gap
  }

  lemma {:induction false} GapsMultiply(k: nat, gap: real)
    ensures Gaps(k, gap) == k as real * gap
  {
    if k > 0 {
      GapsMultiply(k - 1, gap);
      assert (k - 1) as real * gap + gap == ((k - 1) as real + 1.0) * gap;
    }
  }

  lemma {:induction false} SpacedInGaps(times: seq<real>, gap: real, lo: real, k: nat)
    requires Spaced(times, gap) && 0.0 < gap
    ensures CountIn(times, lo, lo + Gaps(k, gap)) <= k
    decreases |times|
  {
    var hi := lo + Gaps(k, gap);
    if |times| > 0 {
      var front, last := times[..|times| - 1], times[|times| - 1];
      forall i | 0 <= i < |front| ensures front[i] + gap <= last { SpacedSpread(times, gap, i, |times| - 1); }
      if lo <= last < hi {
        SpacedInGaps(front, gap, lo, k - 1);
        CountsAgree(front, lo, hi, hi - gap);
      } else {
        SpacedInGaps(front, gap, lo, k);
      }
    }
  }

  /** A half-open interval k gaps long holds at most k spaced events. */
  lemma SpacedWindow(times: seq<real>, gap: real, lo: real, k: nat)
    requires Spaced(times, gap) && 0.0 < gap
    ensures CountIn(times, lo, lo + k as real * gap) <= k
  {
    GapsMultiply(k, gap);
    SpacedInGaps(times, gap, lo, k);
  }

  class RateLimiter {
    const interval: real
    var nextOk: real
    /** When each request so far was let through. */
    ghost var granted: seq<real>

    ghost predicate Valid()
      reads this
    {
      && 0.0 < interval
      && Spaced(granted, interval)
      && (granted != [] ==> nextOk == granted[|granted| - 1] + interval)
    }

    constructor(maxPerSecond: real)
      requires 0.0 < maxPerSecond
      ensures Valid() && granted == [] && nextOk == 0.0 && interval == 1.0 / maxPerSecond
    {
      interval := 1.0 / maxPerSecond;
      nextOk := 0.0;
      granted := [];
    }

    /** Let one more request through, no sooner than the interval allows. */
    method Wait(clock: Clock)
      requires Valid()
      modifies this`nextOk, this`granted, clock
      ensures Valid()
      ensures old(clock.now) <= clock.now && old(nextOk) <= clock.now
      ensures clock.naps == old(clock.naps) ||
              exists nap :: clock.naps == old(clock.naps) + [nap] && 0.0 < nap <= old(nextOk) - old(clock.now)
      ensures granted == old(granted) + [clock.now] && nextOk == clock.now + interval
    {
      var t := clock.Read();
      var delay := nextOk - t;
      if delay > 0.0 {
        clock.Sleep(delay);
      }
      t := clock.Read();
      nextOk := (if t < nextOk then nextOk else t) + interval;
      granted := granted + [t];
    }
  }

  const FALLBACK_PER_SECOND: real := 2.0
  const SEC_CAP: nat := 10

  function TotalIn(processes: seq<seq<real>>, lo: real, hi: real): nat {
    if |processes| == 0 then 0 else CountIn(processes[0], lo, hi) + TotalIn(processes[1..], lo, hi)
  }

  /**
   * With every process on the fallback, any half-open second holds at most two
   * requests per process; up to four such processes stay under SEC's ten.
   */
  lemma {:induction false} AllOnFallback(processes: seq<seq<real>>, lo: real)
    requires forall p :: 0 <= p < |processes| ==> Spaced(processes[p], 1.0 / FALLBACK_PER_SECOND)
    ensures TotalIn(processes, lo, lo + 1.0) <= 2 * |processes|
    ensures |processes| <= 4 ==> TotalIn(processes, lo, lo + 1.0) < SEC_CAP
  {
    if |processes| > 0 {
      SpacedWindow(processes[0], 1.0 / FALLBACK_PER_SECOND, lo, 2);
      assert lo + 2 as real * (1.0 / FALLBACK_PER_SECOND) == lo + 1.0;
      AllOnFallback(processes[1..], lo);
    }
  }
}
