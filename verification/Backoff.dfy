/** Restart counters and backoff timers. */
module Backoff {
  import opened Basics

  datatype BackoffConfig = BackoffConfig(
    initialDelay: Duration,
    multiplier: nat,   // in tenths: 20 stands for 2.0
    maxDelay: Duration,
    maxRestarts: nat,
    minUptime: Duration)

  function Pow(q: real, n: nat): real {
    if n == 0 then 1.0 else q * Pow(q, n - 1)
  }

  function Factor(config: BackoffConfig): Duration {
    config.multiplier as real / 10.0
  }

  /** The delay before the cap is applied. */
  function RawDelay(config: BackoffConfig, count: nat): (d: Duration)
  {
    PowSign(Factor(config), count);
    config.initialDelay * Pow(Factor(config), count)
  }

  datatype RestartState = RestartState(
    restartCount: nat,
    lastStartedAt: Option<Time>,
    nextEligibleRestart: Option<Time>)
  {
    function CurrentDelay(config: BackoffConfig): (d: Duration)
      ensures d <= config.maxDelay
    {
      Capped(RawDelay(config, restartCount), config.maxDelay)
    }

    predicate IsRateLimited(config: BackoffConfig) {
      restartCount >= config.maxRestarts
    }

    /** The process has stayed up for the configured span, and there is a count to forget. */
    predicate IsStable(config: BackoffConfig, now: Time) {
      lastStartedAt.Some? && Elapsed(lastStartedAt.value, now) >= config.minUptime && restartCount > 0
    }

    function CheckStableUptime(config: BackoffConfig, now: Time): RestartState {
      if IsStable(config, now) then this.(restartCount := 0) else this
    }

    predicate IsEligibleForRestart(now: Time) {
      nextEligibleRestart.None? || nextEligibleRestart.value <= now
    }

    function RecordRestart(): RestartState { this.(restartCount := restartCount + 1) }

    function MarkStarted(now: Time): RestartState { this.(lastStartedAt := Some(now)) }

    function ScheduleRestart(at: Time): RestartState { this.(nextEligibleRestart := Some(at)) }

    function CancelPendingRestart(): RestartState { this.(nextEligibleRestart := None) }
  }

  const FRESH := RestartState(0, None, None)

  /** What the reaper waits before the k-th consecutive restart: the counter is
      incremented first, and the delay is read off the incremented counter. */
  function WaitBefore(config: BackoffConfig, k: nat): (d: Duration)
    requires 1 <= k
    ensures d <= config.maxDelay
  {
    FRESH.(restartCount := k - 1).RecordRestart().CurrentDelay(config)
  }

  /** What the documentation promises for the k-th restart, first restart counted as 1. */
  function DocumentedWait(config: BackoffConfig, k: nat): Duration
    requires 1 <= k
  {
    Capped(RawDelay(config, k - 1), config.maxDelay)
  }

  function TotalWait(config: BackoffConfig, k: nat): real {
    if k == 0 then 0.0 else TotalWait(config, k - 1) + WaitBefore(config, k)
  }

  lemma PowSign(q: real, n: nat)
    requires 0.0 <= q
    ensures 0.0 <= Pow(q, n)
    ensures 1.0 <= q ==> 1.0 <= Pow(q, n)
  {
    if n != 0 {
      PowSign(q, n - 1);
      MulMono(0.0, q, Pow(q, n - 1));
      if 1.0 <= q { MulMono(1.0, q, Pow(q, n - 1)); }
    }
  }

  lemma MulMono(a: real, b: real, c: real)
    requires a <= b && 0.0 <= c
    ensures a * c <= b * c
  {
    assert 0.0 <= (b - a) * c;
  }

  lemma MulStrict(a: real, b: real, c: real)
    requires a < b && 0.0 < c
    ensures a * c < b * c
  {
    assert 0.0 < (b - a) * c;
  }

  lemma ScaleMoves(q: real, raw: real, next: real)
    requires next == q * raw && 0.0 <= raw
    ensures 1.0 <= q ==> raw <= next
    ensures q < 1.0 && 0.0 < raw ==> next < raw
    ensures 1.0 < q && 0.0 < raw ==> raw < next
    ensures raw == 0.0 || q == 1.0 ==> next == raw
  {
    if 1.0 <= q { MulMono(1.0, q, raw); }
    if q < 1.0 && 0.0 < raw { MulStrict(q, 1.0, raw); }
    if 1.0 < q && 0.0 < raw { MulStrict(1.0, q, raw); }
  }

  lemma RawDelayStep(config: BackoffConfig, n: nat)
    ensures RawDelay(config, n + 1) == Factor(config) * RawDelay(config, n)
  {
    var i, q, p := config.initialDelay, Factor(config), Pow(Factor(config), n);
    assert i * (q * p) == q * (i * p);
  }

  /** How one more restart moves the uncapped delay. */
  lemma RawDelayMoves(config: BackoffConfig, n: nat)
    ensures config.multiplier >= 10 ==> RawDelay(config, n) <= RawDelay(config, n + 1)
    ensures config.multiplier < 10 && RawDelay(config, n) > 0.0 ==> RawDelay(config, n + 1) < RawDelay(config, n)
    ensures RawDelay(config, n) == 0.0 || config.multiplier == 10 ==> RawDelay(config, n + 1) == RawDelay(config, n)
    ensures config.multiplier > 10 && RawDelay(config, n) > 0.0 ==> RawDelay(config, n) < RawDelay(config, n + 1)
  {
    RawDelayStep(config, n);
    ScaleMoves(Factor(config), RawDelay(config, n), RawDelay(config, n + 1));
  }

  function Capped(raw: Duration, cap: Duration): Duration {
    if raw <= cap then raw else cap
  }

  /** The waits never shrink exactly when the multiplier is at least 1.0, the
      delay has collapsed to zero, or the next delay is capped anyway. */
  lemma WaitMonotone(config: BackoffConfig, k: nat)
    requires 1 <= k
    ensures WaitBefore(config, k) <= WaitBefore(config, k + 1)
       <==> (config.multiplier >= 10 || RawDelay(config, k) == 0.0 || RawDelay(config, k + 1) >= config.maxDelay)
  {
    RawDelayMoves(config, k);
    assert WaitBefore(config, k) == Capped(RawDelay(config, k), config.maxDelay);
    assert WaitBefore(config, k + 1) == Capped(RawDelay(config, k + 1), config.maxDelay);
  }

  /** With a multiplier of at least 1.0, a capped wait stays capped for good. */
  lemma {:induction false} CappedStaysCapped(config: BackoffConfig, k: nat, later: nat)
    requires 1 <= k <= later && config.multiplier >= 10
    requires WaitBefore(config, k) == config.maxDelay
    ensures WaitBefore(config, later) == config.maxDelay
    decreases later
  {
    if k < later {
      CappedStaysCapped(config, k, later - 1);
      WaitMonotone(config, later - 1);
    }
  }

  lemma OneMore(t: real, w: real, n: real, m: real)
    requires t <= n * m && w <= m
    ensures t + w <= (n + 1.0) * m
  {
    assert n * m + m == (n + 1.0) * m;
  }

  lemma Distribute(q: real, t: real, w: real)
    ensures (q - 1.0) * (t + w) == (q - 1.0) * t + q * w - w
  {
  }

  lemma {:induction false} TotalWaitBounded(config: BackoffConfig, k: nat)
    ensures 0.0 <= TotalWait(config, k) <= k as real * config.maxDelay
  {
    hide WaitBefore;
    if k != 0 {
      TotalWaitBounded(config, k - 1);
      OneMore(TotalWait(config, k - 1), WaitBefore(config, k), (k - 1) as real, config.maxDelay);
    }
  }

  /** With a multiplier of 1.0 the delay never grows. */
  lemma {:induction false} RawDelayLevel(config: BackoffConfig, n: nat)
    requires config.multiplier == 10
    ensures RawDelay(config, n) == config.initialDelay
  {
    if n != 0 {
      RawDelayLevel(config, n - 1);
      RawDelayMoves(config, n - 1);
    } else {
      assert Pow(Factor(config), 0) == 1.0;
    }
  }

  /** With a multiplier of 1.0 the total is k times the initial delay, capped. */
  lemma {:induction false} TotalWaitLevel(config: BackoffConfig, k: nat)
    requires config.multiplier == 10
    ensures TotalWait(config, k) == k as real * Capped(config.initialDelay, config.maxDelay)
  {
    if k == 0 {
      assert TotalWait(config, 0) == 0.0;
    } else {
      TotalWaitLevel(config, k - 1);
      RawDelayLevel(config, k);
      assert WaitBefore(config, k) == Capped(RawDelay(config, k), config.maxDelay);
      OneMoreExactly((k - 1) as real, Capped(config.initialDelay, config.maxDelay));
    }
  }

  lemma OneMoreExactly(n: real, w: real)
    ensures n * w + w == (n + 1.0) * w
  {
  }

  /** As long as no wait was capped, the total is a geometric sum. */
  lemma {:induction false} TotalWaitGeometric(config: BackoffConfig, k: nat)
    requires forall j :: 1 <= j <= k ==> RawDelay(config, j) <= config.maxDelay
    ensures (Factor(config) - 1.0) * TotalWait(config, k) == RawDelay(config, k + 1) - RawDelay(config, 1)
  {
    if k != 0 {
      TotalWaitGeometric(config, k - 1);
      RawDelayStep(config, k);
      assert WaitBefore(config, k) == RawDelay(config, k);
      Distribute(Factor(config), TotalWait(config, k - 1), RawDelay(config, k));
    } else {
      assert TotalWait(config, 0) == 0.0;
    }
  }

  /** The documented wait for restart k is the real one exactly when the
      multiplier is 1.0, the delay is zero, or both neighbours are capped. */
  lemma DocumentedWaitMet(config: BackoffConfig, k: nat)
    requires 1 <= k
    ensures WaitBefore(config, k) == DocumentedWait(config, k)
       <==> (config.multiplier == 10 || RawDelay(config, k - 1) == 0.0
             || (RawDelay(config, k - 1) >= config.maxDelay && RawDelay(config, k) >= config.maxDelay))
  {
    RawDelayMoves(config, k - 1);
    assert WaitBefore(config, k) == Capped(RawDelay(config, k), config.maxDelay);
  }

  /** The example of the documentation: 1 second, multiplier 2.0, at most 60 seconds. */
  const DOCUMENTED_EXAMPLE := BackoffConfig(1.0, 20, 60.0, 5, 10.0)

  /** The documented example waits 2 seconds before the first restart; its table says 1. */
  lemma DocumentedWaitMissed()
    ensures DocumentedWait(DOCUMENTED_EXAMPLE, 1) == 1.0
    ensures WaitBefore(DOCUMENTED_EXAMPLE, 1) == 2.0
  {
    assert Pow(2.0, 0) == 1.0 && Pow(2.0, 1) == 2.0 * Pow(2.0, 0);
  }
}
