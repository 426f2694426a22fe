/**
 The polite poller: a loop with a clock, exponential backoff, clamping, jitter and a hard
 rate ceiling.  Durations are nanoseconds; floating point is exact real arithmetic followed
 by truncation, and a product too large for a 64-bit duration converts to its least value.
 */
module PolitePoll {
  import opened Common

  const MILLISECOND := 1_000_000
  const SECOND := 1_000_000_000
  const DURATION_LIMIT := 0x8000_0000_0000_0000

  datatype Options = Options(minInterval: int, maxInterval: int, jitter: real, hardMaxPerSecond: int)

  datatype PollResult = PollResult(done: bool, failed: bool, httpStatus: int, retryAfter: int)

  /** What the outside world contributes to one iteration: the callback's result and
      duration, the random draw, and how much longer than asked the two sleeps took. */
  datatype Round = Round(result: PollResult, callTime: nat, draw: real, lateFloor: nat, lateWait: nat)

  function Max(a: int, b: int): int { if a < b then b else a }
  function Min(a: int, b: int): int { if a < b then a else b }

  function Pow2(n: nat): (r: int)
    ensures r >= 1
  {
    if n == 0 then 1 else 2 * Pow2(n - 1)
  }

  // ------------------------------------------------------------- the pure calculations

  function WithDefaults(o: Options): (r: Options)
    ensures 0 < r.minInterval <= r.maxInterval && 0.0 <= r.jitter <= 1.0 && 0 < r.hardMaxPerSecond
    // what the caller asked for, where that makes sense
    ensures o.minInterval > 0 ==> r.minInterval == o.minInterval
    ensures o.maxInterval >= r.minInterval ==> r.maxInterval == o.maxInterval
    ensures 0.0 <= o.jitter <= 1.0 ==> r.jitter == o.jitter
    ensures o.hardMaxPerSecond > 0 ==> r.hardMaxPerSecond == o.hardMaxPerSecond
    // five seconds, a minute and one call a second where it does not
    ensures o.minInterval <= 0 ==> r.minInterval == 5_000_000_000
    ensures o.maxInterval <= 0 ==> r.maxInterval == Max(60_000_000_000, r.minInterval)
    ensures 0 < o.maxInterval < r.minInterval ==> r.maxInterval == r.minInterval
    ensures o.jitter < 0.0 ==> r.jitter == 0.0
    ensures o.jitter > 1.0 ==> r.jitter == 1.0
    ensures o.hardMaxPerSecond <= 0 ==> r.hardMaxPerSecond == 1
  {
    var lo := if o.minInterval <= 0 then 5 * SECOND else o.minInterval;
    var hi := if o.maxInterval <= 0 then 60 * SECOND else o.maxInterval;
    Options(lo, if hi < lo then lo else hi,
            if o.jitter < 0.0 then 0.0 else if o.jitter > 1.0 then 1.0 else o.jitter,
            if o.hardMaxPerSecond <= 0 then 1 else o.hardMaxPerSecond)
  }

  /** Converting a floating-point product to a 64-bit duration. */
  function ToDuration(x: int): int {
    if x < DURATION_LIMIT then x else -DURATION_LIMIT
  }

  function BackoffFor(failures: int, lo: int, hi: int): int {
    var n := if failures < 1 then 1 else failures;
    var d := ToDuration(lo * Pow2(n - 1));
    if d <= 0 || d > hi then hi else if d < lo then lo else d
  }

  function Jittered(d: int, f: real, draw: real): real {
    d as real * (1.0 + (draw * 2.0 - 1.0) * f)
  }

  function ApplyJitter(d: int, fraction: real, draw: real): int {
    if d <= 0 || fraction <= 0.0 then d
    else
      var f := if fraction > 1.0 then 1.0 else fraction;
      var out := ToDuration(Jittered(d, f, draw).Floor);
      if out < MILLISECOND then MILLISECOND else out
  }

  function Clamp(d: int, lo: int, hi: int): int {
    if d < lo then lo else if d > hi then hi else d
  }

  // ------------------------------------------------------------------- specification

  /** Length of the run of failures a history ends with; hinted 429s count. */
  function TrailingFailures(rs: seq<PollResult>): nat {
    if rs == [] || !rs[|rs| - 1].failed then 0 else 1 + TrailingFailures(rs[..|rs| - 1])
  }

  /** The wait a history calls for, before jitter. */
  function BaseWait(o: Options, rs: seq<PollResult>): int
    requires rs != []
  {
    var last := rs[|rs| - 1];
    if !last.failed then o.minInterval
    else if last.httpStatus == 429 && last.retryAfter > 0 then
      Max(o.minInterval, Min(last.retryAfter, o.maxInterval))
    else Min(o.minInterval * Pow2(TrailingFailures(rs) - 1), o.maxInterval)
  }

  /** That many results at the end failed, and the one before them, if any, did not. */
  lemma {:induction false} TrailingFailuresAreLast(rs: seq<PollResult>)
    ensures var k := TrailingFailures(rs);
            && k <= |rs| && (forall i :: |rs| - k <= i < |rs| ==> rs[i].failed)
            && (k < |rs| ==> !rs[|rs| - k - 1].failed)
    decreases |rs|
  {
    if rs != [] && rs[|rs| - 1].failed {
      TrailingFailuresAreLast(rs[..|rs| - 1]);
    }
  }

  function HardMin(o: Options): int
    requires o.hardMaxPerSecond > 0
  {
    SECOND / o.hardMaxPerSecond
  }

  predicate InDurations(o: Options) {
    o.maxInterval < DURATION_LIMIT
  }

  /** The longest jittered wait is still a 64-bit duration. */
  predicate JitterInRange(o: Options) {
    (1.0 + o.jitter) * o.maxInterval as real < DURATION_LIMIT as real
  }

  lemma Pow2Doubles(n: nat, m: nat)
    requires n <= m
    ensures Pow2(n) <= Pow2(m)
  {
  }

  /** Overflow included, the backoff is the capped exponential. */
  lemma BackoffIsCappedExponential(k: nat, lo: int, hi: int)
    requires k >= 1 && 0 < lo <= hi < DURATION_LIMIT
    ensures BackoffFor(k, lo, hi) == Min(lo * Pow2(k - 1), hi)
    ensures lo <= BackoffFor(k, lo, hi) <= hi
  {
    assert lo * Pow2(k - 1) >= lo * 1;
  }

  lemma TimesMonotone(lo: int, a: int, b: int)
    requires lo > 0 && a <= b
    ensures lo * a <= lo * b
  {
  }

  /** More failures never shorten the wait. */
  lemma BackoffMonotone(j: nat, k: nat, lo: int, hi: int)
    requires 1 <= j <= k && 0 < lo <= hi < DURATION_LIMIT
    ensures BackoffFor(j, lo, hi) <= BackoffFor(k, lo, hi)
  {
    Pow2Doubles(j - 1, k - 1);
    TimesMonotone(lo, Pow2(j - 1), Pow2(k - 1));
    CappedMonotone(lo * Pow2(j - 1), lo * Pow2(k - 1), hi, BackoffFor(j, lo, hi), BackoffFor(k, lo, hi)) by {
      BackoffIsCappedExponential(j, lo, hi);
      BackoffIsCappedExponential(k, lo, hi);
    }
  }

  /** The first failure waits the least interval, and each further one twice as long as the
      one before, up to the cap. */
  lemma BackoffDoubles(k: nat, lo: int, hi: int)
    requires k >= 1 && 0 < lo <= hi < DURATION_LIMIT
    ensures BackoffFor(1, lo, hi) == lo
    ensures BackoffFor(k + 1, lo, hi) == Min(2 * BackoffFor(k, lo, hi), hi)
  {
    BackoffIsCappedExponential(1, lo, hi);
    assert lo * Pow2(0) == lo;
    BackoffIsCappedExponential(k, lo, hi);
    BackoffIsCappedExponential(k + 1, lo, hi);
    CappedDouble(lo, Pow2(k - 1), Pow2(k), hi, BackoffFor(k, lo, hi), BackoffFor(k + 1, lo, hi));
  }

  lemma CappedDouble(lo: int, a: int, b: int, hi: int, x: int, y: int)
    requires 0 < lo <= hi && a >= 1 && b == 2 * a && x == Min(lo * a, hi) && y == Min(lo * b, hi)
    ensures y == Min(2 * x, hi)
  {
    assert lo * b == 2 * (lo * a);
  }

  lemma CappedMonotone(x: int, y: int, hi: int, a: int, b: int)
    requires x <= y && a == Min(x, hi) && b == Min(y, hi)
    ensures a <= b
  {
  }

  lemma BaseWaitInRange(o: Options, rs: seq<PollResult>)
    requires rs != [] && 0 < o.minInterval <= o.maxInterval
    ensures o.minInterval <= BaseWait(o, rs) <= o.maxInterval
  {
    var last := rs[|rs| - 1];
    if last.failed {
      var k := TrailingFailures(rs);
      assert o.minInterval * Pow2(k - 1) >= o.minInterval * 1;
    }
  }

  /** The wait actually slept, after jitter and the hard floor. */
  function FinalWait(o: Options, rs: seq<PollResult>, draw: real): int
    requires rs != [] && o.hardMaxPerSecond > 0
  {
    Max(ApplyJitter(BaseWait(o, rs), o.jitter, draw), HardMin(o))
  }

  /** The jittered product leaves the 64-bit range. */
  predicate Overflows(d: int, f: real, draw: real) {
    f > 0.0 && Jittered(d, f, draw).Floor >= DURATION_LIMIT
  }

  lemma JitteredBounds(d: int, lo: int, hi: int, f: real, draw: real)
    requires 0 < lo <= d <= hi && 0.0 <= f <= 1.0 && 0.0 <= draw < 1.0
    ensures (1.0 - f) * lo as real <= Jittered(d, f, draw) <= (1.0 + f) * hi as real
  {
    var scale := 1.0 + (draw * 2.0 - 1.0) * f;
    ScaleBounds(draw, f);
    assert 1.0 - f <= scale <= 1.0 + f;
    ProductBounds(1.0 - f, scale, lo as real, d as real);
    ProductBounds(scale, 1.0 + f, d as real, hi as real);
  }

  /** Jitter stays below its upper bound (or at a millisecond) always, and above its lower
      bound exactly as long as the product does not overflow. */
  lemma JitterBounds(d: int, lo: int, hi: int, f: real, draw: real)
    requires 0 < lo <= d <= hi && 0.0 <= f <= 1.0 && 0.0 <= draw < 1.0
    ensures (ApplyJitter(d, f, draw) >= ((1.0 - f) * lo as real).Floor) <==>
              (!Overflows(d, f, draw) || ((1.0 - f) * lo as real).Floor <= MILLISECOND)
    ensures ApplyJitter(d, f, draw) as real <= (1.0 + f) * hi as real || ApplyJitter(d, f, draw) == MILLISECOND
  {
    JitteredBounds(d, lo, hi, f, draw);
    if f == 0.0 {
      assert (1.0 - f) * lo as real == lo as real;
    }
  }

  /** With (1 + jitter) * maxInterval in range, no draw overflows. */
  lemma InRangeNeverOverflows(d: int, lo: int, hi: int, f: real, draw: real)
    requires 0 < lo <= d <= hi && 0.0 <= f <= 1.0 && 0.0 <= draw < 1.0
    requires (1.0 + f) * hi as real < DURATION_LIMIT as real
    ensures !Overflows(d, f, draw)
  {
    JitteredBounds(d, lo, hi, f, draw);
  }

  /** What a caller can check: some draw overflows exactly when (1 + f) * d is beyond the range. */
  lemma SomeDrawOverflowsIff(d: int, f: real)
    requires 0 < d < DURATION_LIMIT && 0.0 <= f <= 1.0
    ensures (exists draw: real :: 0.0 <= draw < 1.0 && Overflows(d, f, draw)) <==>
              (1.0 + f) * d as real > DURATION_LIMIT as real
  {
    if (1.0 + f) * d as real > DURATION_LIMIT as real {
      var draw := OverflowingDraw(d, f);
      assert Overflows(d, f, draw);
    } else {
      forall draw: real | 0.0 <= draw < 1.0 ensures !Overflows(d, f, draw) {
        if f > 0.0 { BelowTheTop(d, f, draw); }
      }
    }
  }

  lemma BelowTheTop(d: int, f: real, draw: real)
    requires 0 < d && 0.0 < f <= 1.0 && 0.0 <= draw < 1.0
    ensures Jittered(d, f, draw) < (1.0 + f) * d as real
  {
    StrictProduct(draw * 2.0 - 1.0, 1.0, f);
    StrictProduct(1.0 + (draw * 2.0 - 1.0) * f, 1.0 + f, d as real);
  }

  lemma StrictProduct(a: real, b: real, x: real)
    requires a < b && x > 0.0
    ensures a * x < b * x
  {
  }

  lemma OverflowingDraw(d: int, f: real) returns (draw: real)
    requires 0 < d < DURATION_LIMIT && 0.0 <= f <= 1.0 && (1.0 + f) * d as real > DURATION_LIMIT as real
    ensures 0.0 <= draw < 1.0 && Overflows(d, f, draw)
  {
    assert f != 0.0;
    var scale := DURATION_LIMIT as real / d as real;
    ScaleToLimit(d, f, scale);
    var delta := (scale - 1.0) / f;
    QuotientBelowOne(scale - 1.0, f);
    draw := (delta + 1.0) / 2.0;
    assert draw * 2.0 - 1.0 == delta;
    assert delta * f == scale - 1.0;
    assert Jittered(d, f, draw) == d as real * scale;
  }

  lemma ScaleToLimit(d: int, f: real, scale: real)
    requires 0 < d < DURATION_LIMIT && (1.0 + f) * d as real > DURATION_LIMIT as real
    requires scale == DURATION_LIMIT as real / d as real
    ensures d as real * scale == DURATION_LIMIT as real && 1.0 < scale < 1.0 + f
  {
    assert scale * d as real == DURATION_LIMIT as real;
    SignOfFactor(scale - 1.0, d as real);
    SignOfFactor(1.0 + f - scale, d as real);
  }

  lemma QuotientBelowOne(a: real, b: real)
    requires 0.0 < a < b
    ensures 0.0 < a / b < 1.0
  {
    var q := a / b;
    assert q * b == a;
    SignOfFactor(q, b);
    SignOfFactor(1.0 - q, b);
  }

  lemma SignOfFactor(q: real, b: real)
    requires b > 0.0 && q * b > 0.0
    ensures q > 0.0
  {
  }

  /** The caller's condition: every draw keeps the lower bound exactly when the longest
      jittered wait is in range, or the bound is no more than the millisecond floor. */
  lemma EveryDrawInBandIff(d: int, lo: int, f: real)
    requires 0 < lo <= d < DURATION_LIMIT && 0.0 <= f <= 1.0
    ensures (forall draw: real :: 0.0 <= draw < 1.0 ==> KeepsLowerBound(d, lo, f, draw)) <==>
              ((1.0 + f) * d as real <= DURATION_LIMIT as real || ((1.0 - f) * lo as real).Floor <= MILLISECOND)
  {
    SomeDrawOverflowsIff(d, f);
    forall draw: real | 0.0 <= draw < 1.0
      ensures KeepsLowerBound(d, lo, f, draw) <==>
                (!Overflows(d, f, draw) || ((1.0 - f) * lo as real).Floor <= MILLISECOND)
    {
      JitterBounds(d, lo, d, f, draw);
    }
  }

  predicate KeepsLowerBound(d: int, lo: int, f: real, draw: real) {
    ApplyJitter(d, f, draw) >= ((1.0 - f) * lo as real).Floor
  }

  /** Out of range it can: a wait of some two hundred years is jittered down to a millisecond. */
  lemma OverflowBreaksTheBand()
    ensures var lo := 0x6000_0000_0000_0000;
            Overflows(lo, 0.5, 0.95) && ApplyJitter(lo, 0.5, 0.95) == MILLISECOND < ((1.0 - 0.5) * lo as real).Floor
  {
    var lo := 0x6000_0000_0000_0000;
    assert 1.0 + (0.95 * 2.0 - 1.0) * 0.5 == 1.45;
    assert Jittered(lo, 0.5, 0.95) >= DURATION_LIMIT as real;
  }

  /** The draws spread evenly around the wait: the lowest takes the whole fraction off, the
      middle one changes nothing. */
  lemma JitterSpreads(d: int, f: real)
    requires 0 < d < DURATION_LIMIT && 0.0 < f <= 1.0
    ensures ApplyJitter(d, f, 0.0) == Max(MILLISECOND, ((1.0 - f) * d as real).Floor)
    ensures ApplyJitter(d, f, 0.5) == Max(MILLISECOND, d)
  {
    JitteredBounds(d, d, d, f, 0.0);
    assert Jittered(d, f, 0.0) == (1.0 - f) * d as real;
    BelowWhole(f, d as real);
    assert Jittered(d, f, 0.5) == d as real;
  }

  lemma BelowWhole(f: real, x: real)
    requires 0.0 <= f && x >= 0.0
    ensures (1.0 - f) * x <= x
  {
    ProductBounds(0.0, f, x, x);
  }

  lemma ScaleBounds(draw: real, f: real)
    requires 0.0 <= f && 0.0 <= draw < 1.0
    ensures -f <= (draw * 2.0 - 1.0) * f <= f
  {
    ProductBounds(draw * 2.0, 2.0, f, f);
    ProductBounds(0.0, draw * 2.0, f, f);
    assert (draw * 2.0 - 1.0) * f == draw * 2.0 * f - f;
  }

  lemma ProductBounds(a: real, b: real, x: real, y: real)
    requires 0.0 <= a <= b && 0.0 <= x <= y
    ensures a * x <= b * y
  {
    assert a * x <= b * x <= b * y;
  }

  lemma EffectiveWaitBounds(o: Options, rs: seq<PollResult>, draw: real)
    requires rs != [] && 0.0 <= draw < 1.0
    requires 0 < o.minInterval <= o.maxInterval && 0.0 <= o.jitter <= 1.0 && 0 < o.hardMaxPerSecond
    ensures var w := FinalWait(o, rs, draw);
            && HardMin(o) <= w && (JitterInRange(o) ==> ((1.0 - o.jitter) * o.minInterval as real).Floor <= w)
            && (w as real <= (1.0 + o.jitter) * o.maxInterval as real || w == MILLISECOND || w == HardMin(o))
  {
    FloorBounds(ApplyJitter(BaseWait(o, rs), o.jitter, draw), HardMin(o), JitterInRange(o),
                ((1.0 - o.jitter) * o.minInterval as real).Floor, (1.0 + o.jitter) * o.maxInterval as real) by {
      BaseWaitInRange(o, rs);
      JitterInBand(o, BaseWait(o, rs), draw);
    }
  }

  lemma JitterInBand(o: Options, d: int, draw: real)
    requires 0 < o.minInterval <= d <= o.maxInterval && 0.0 <= o.jitter <= 1.0 && 0.0 <= draw < 1.0
    ensures JitterInRange(o) ==> ((1.0 - o.jitter) * o.minInterval as real).Floor <= ApplyJitter(d, o.jitter, draw)
    ensures ApplyJitter(d, o.jitter, draw) as real <= (1.0 + o.jitter) * o.maxInterval as real
            || ApplyJitter(d, o.jitter, draw) == MILLISECOND
  {
    JitterBounds(d, o.minInterval, o.maxInterval, o.jitter, draw);
    if JitterInRange(o) { InRangeNeverOverflows(d, o.minInterval, o.maxInterval, o.jitter, draw); }
  }

  lemma FloorBounds(jittered: int, hardMin: int, inRange: bool, low: int, high: real)
    requires (inRange ==> low <= jittered) && (jittered as real <= high || jittered == MILLISECOND)
    ensures var w := Max(jittered, hardMin); hardMin <= w && (inRange ==> low <= w) && (w as real <= high || w == MILLISECOND || w == hardMin)
  {
  }

  /** Jitter and floors keep every wait in its band, whatever the callback answered. */
  lemma WaitBounds(opts: Options, rs: seq<PollResult>, draw: real)
    requires rs != [] && 0.0 <= draw < 1.0
    ensures var o := WithDefaults(opts); var w := FinalWait(o, rs, draw);
            && HardMin(o) <= w && (JitterInRange(o) ==> ((1.0 - o.jitter) * o.minInterval as real).Floor <= w)
            && (w as real <= (1.0 + o.jitter) * o.maxInterval as real || w == MILLISECOND || w == HardMin(o))
  {
    EffectiveWaitBounds(WithDefaults(opts), rs, draw);
  }

  // -------------------------------------------------------------------------- the loop

  function Results(rounds: seq<Round>): (rs: seq<PollResult>)
    ensures |rs| == |rounds| && forall i :: 0 <= i < |rs| ==> rs[i] == rounds[i].result
  {
    seq(|rounds|, i requires 0 <= i < |rounds| => rounds[i].result)
  }

  /** Successive calls start at least a gap apart. */
  ghost predicate Spaced(calls: seq<int>, gap: int) {
    forall i, j :: 0 <= i < j < |calls| && j == i + 1 ==> calls[j] - calls[i] >= gap
  }

  /** The wait after the i-th result, and the new length of the failure run. */
  method NextWait(o: Options, rounds: seq<Round>, i: nat, failures: nat) returns (wait: int, failures': nat)
    requires i < |rounds| && failures == TrailingFailures(Results(rounds[..i]))
    requires 0 < o.minInterval <= o.maxInterval && 0 < o.hardMaxPerSecond && InDurations(o)
    ensures failures' == TrailingFailures(Results(rounds[..i + 1]))
    ensures wait == FinalWait(o, Results(rounds[..i + 1]), rounds[i].draw)
  {
    var r := rounds[i].result;
    HistoryGrows(rounds, i);
    failures' := if r.failed then failures + 1 else 0;
    if !r.failed {
      wait := o.minInterval;
    } else if r.httpStatus == 429 && r.retryAfter > 0 {
      wait := Clamp(r.retryAfter, o.minInterval, o.maxInterval);
    } else {
      wait := BackoffFor(failures', o.minInterval, o.maxInterval);
      BackoffIsCappedExponential(failures', o.minInterval, o.maxInterval);
    }
    assert wait == BaseWait(o, Results(rounds[..i + 1]));
    wait := ApplyJitter(wait, o.jitter, rounds[i].draw);
    if wait < SECOND / o.hardMaxPerSecond {
      wait := SECOND / o.hardMaxPerSecond;
    }
  }

  /** What a run of the loop promises about its calls and waits, for effective options. */
  ghost predicate Polite(o: Options, rounds: seq<Round>, calls: seq<int>, waits: seq<int>)
    requires o.hardMaxPerSecond > 0
  {
    && |waits| <= |calls| <= |rounds| && |calls| <= |waits| + 1
    && Spaced(calls, HardMin(o))
    && (forall i :: 0 <= i < |waits| ==> waits[i] == FinalWait(o, Results(rounds[..i + 1]), rounds[i].draw))
    && (forall i, j :: 0 <= i < j < |calls| && j == i + 1 ==> calls[j] - calls[i] >= rounds[i].callTime + waits[i])
  }

  lemma CallExtends(o: Options, rounds: seq<Round>, calls: seq<int>, waits: seq<int>, now: int)
    requires o.hardMaxPerSecond > 0 && Polite(o, rounds, calls, waits) && |calls| == |waits| < |rounds|
    requires var i := |calls|; i > 0 ==> now - calls[i - 1] >= HardMin(o) && now - calls[i - 1] >= rounds[i - 1].callTime + waits[i - 1]
    ensures Polite(o, rounds, calls + [now], waits)
  {
    var gap := HardMin(o);
    var calls' := calls + [now];
    forall i, j | 0 <= i < j < |calls'| && j == i + 1
      ensures calls'[j] - calls'[i] >= gap && calls'[j] - calls'[i] >= rounds[i].callTime + waits[i]
    {
      assert calls'[i] == calls[i];
      if j < |calls| { assert calls'[j] == calls[j]; }
    }
  }

  lemma WaitExtends(o: Options, rounds: seq<Round>, calls: seq<int>, waits: seq<int>, wait: int)
    requires o.hardMaxPerSecond > 0 && Polite(o, rounds, calls, waits) && |calls| == |waits| + 1
    requires wait == FinalWait(o, Results(rounds[..|calls|]), rounds[|waits|].draw)
    ensures Polite(o, rounds, calls, waits + [wait])
  {
  }

  /** The poll loop; the context is cancelled when the rounds run out.  Calls keep the hard
      gap, and each wait is the function of the results so far that the schedule promises. */
  method PolitePoll(opts: Options, start: int, rounds: seq<Round>) returns (calls: seq<int>, waits: seq<int>, done: bool)
    requires InDurations(WithDefaults(opts))
    ensures Polite(WithDefaults(opts), rounds, calls, waits)
    ensures done ==> |calls| > 0 && rounds[|calls| - 1].result.done && |waits| == |calls| - 1
    ensures !done ==> |calls| == |waits| == |rounds| && forall i :: 0 <= i < |rounds| ==> !rounds[i].result.done
  {
    var o := WithDefaults(opts);
    var hardMin := SECOND / o.hardMaxPerSecond;
    calls, waits, done := PollLoop(o, hardMin, start, rounds);
  }

  /** The hard floor before a call: sleep, perhaps late, until the gap is reached. */
  method Paced(lastCallAt: Option<int>, now: int, hardMin: int, late: nat) returns (at: int)
    ensures at >= now && (lastCallAt.Some? ==> at - lastCallAt.value >= hardMin)
    ensures at > now ==> lastCallAt.Some? && at == lastCallAt.value + hardMin + late
  {
    at := now;
    if lastCallAt.Some? {
      var gap := now - lastCallAt.value;
      if gap < hardMin {
        at := now + (hardMin - gap) + late;
      }
    }
  }

  method PollLoop(o: Options, hardMin: int, start: int, rounds: seq<Round>) returns (calls: seq<int>, waits: seq<int>, done: bool)
    requires 0 < o.minInterval <= o.maxInterval && 0 < o.hardMaxPerSecond && InDurations(o) && hardMin == HardMin(o)
    ensures Polite(o, rounds, calls, waits)
    ensures done ==> |calls| > 0 && rounds[|calls| - 1].result.done && |waits| == |calls| - 1
    ensures !done ==> |calls| == |waits| == |rounds| && forall i :: 0 <= i < |rounds| ==> !rounds[i].result.done
  {
    var consecutiveFailures := 0;
    var lastCallAt: Option<int> := None;
    var now := start;
    calls, waits := [], [];
    var i := 0;
    while i < |rounds|
      invariant 0 <= i <= |rounds| && |calls| == |waits| == i
      invariant Polite(o, rounds, calls, waits)
      invariant consecutiveFailures == TrailingFailures(Results(rounds[..i]))
      invariant lastCallAt == if i == 0 then None else Some(calls[i - 1])
      invariant i > 0 ==> now >= calls[i - 1] + rounds[i - 1].callTime + waits[i - 1]
      invariant forall j :: 0 <= j < i ==> !rounds[j].result.done
    {
      var r := rounds[i];
      now := Paced(lastCallAt, now, hardMin, r.lateFloor);
      lastCallAt := Some(now);
      CallExtends(o, rounds, calls, waits, now);
      calls := calls + [now];
      now := now + r.callTime;
      if r.result.done {
        done := true;
        return;
      }
      var wait;
      wait, consecutiveFailures := NextWait(o, rounds, i, consecutiveFailures);
      WaitExtends(o, rounds, calls, waits, wait);
      waits := waits + [wait];
      now := now + wait + r.lateWait;
      i := i + 1;
    }
    done := false;
  }

  lemma HistoryGrows(rounds: seq<Round>, i: nat)
    requires i < |rounds|
    ensures var before := Results(rounds[..i]); var after := Results(rounds[..i + 1]);
            && after == before + [rounds[i].result]
            && TrailingFailures(after) == if rounds[i].result.failed then 1 + TrailingFailures(before) else 0
  {
    var before := Results(rounds[..i]);
    var after := Results(rounds[..i + 1]);
    assert after == before + [rounds[i].result];
    assert after[..|after| - 1] == before;
  }

  // ---------------------------------------------------------------- the rate ceiling

  /** How many calls start in the half-open window [t, t + length). */
  function CallsIn(calls: seq<int>, t: int, length: int): nat {
    if calls == [] then 0
    else CallsIn(calls[..|calls| - 1], t, length) + (if t <= calls[|calls| - 1] < t + length then 1 else 0)
  }

  lemma {:induction false} LaterCallsAreLater(calls: seq<int>, gap: int, i: nat, j: nat)
    requires Spaced(calls, gap) && gap > 0 && i <= j < |calls|
    ensures calls[i] <= calls[j]
  {
    if i < j { LaterCallsAreLater(calls, gap, i, j - 1); }
  }

  /** If anything was counted, something counted started in the window. */
  lemma {:induction false} CountedIn(calls: seq<int>, t: int, length: int) returns (i: nat)
    requires CallsIn(calls, t, length) > 0
    ensures i < |calls| && t <= calls[i] < t + length
  {
    var n := |calls| - 1;
    if t <= calls[n] < t + length { i := n; } else { i := CountedIn(calls[..n], t, length); }
  }

  lemma {:induction false} CountFits(calls: seq<int>, gap: int, t: int, length: int)
    requires Spaced(calls, gap) && gap > 0
    ensures CallsIn(calls, t, length) > 0 ==> (CallsIn(calls, t, length) - 1) * gap < length
    ensures calls != [] && t <= calls[|calls| - 1] < t + length ==>
              calls[|calls| - 1] >= t + (CallsIn(calls, t, length) - 1) * gap
    decreases |calls|
  {
    if calls != [] {
      var n := |calls| - 1;
      var prefix := calls[..n];
      CountFits(prefix, gap, t, length);
      if t <= calls[n] < t + length {
        var c := CallsIn(prefix, t, length);
        if c > 0 {
          var i := CountedIn(prefix, t, length);
          LaterCallsAreLater(calls, gap, i, n - 1);
          assert t <= prefix[n - 1] < t + length;
          assert c * gap == (c - 1) * gap + gap;
        }
      }
    }
  }

  /** The calls that start in the half-open window. */
  ghost function StartsIn(calls: seq<int>, t: int, length: int): set<int> {
    set i | 0 <= i < |calls| && t <= calls[i] < t + length
  }

  lemma {:induction false} CallsInCounts(calls: seq<int>, t: int, length: int)
    ensures CallsIn(calls, t, length) == |StartsIn(calls, t, length)|
    decreases |calls|
  {
    if calls != [] {
      var n := |calls| - 1;
      CallsInCounts(calls[..n], t, length);
      var before := StartsIn(calls[..n], t, length);
      if t <= calls[n] < t + length {
        assert StartsIn(calls, t, length) == before + {n};
      } else {
        assert StartsIn(calls, t, length) == before;
      }
    }
  }

  /** Hard ceiling: spaced calls put at most ceil(length / gap) starts into any window. */
  lemma RateCeiling(calls: seq<int>, gap: int, t: int, length: int)
    requires Spaced(calls, gap) && gap > 0 && length >= 0
    ensures |StartsIn(calls, t, length)| <= (length + gap - 1) / gap
  {
    CallsInCounts(calls, t, length);
    CountFits(calls, gap, t, length);
    var c := CallsIn(calls, t, length);
    if c > 0 {
      assert c * gap == (c - 1) * gap + gap;
      assert c * gap <= length + gap - 1;
      QuotientAtLeast(c, gap, length + gap - 1);
    }
  }

  /** So no run of the poller, whatever its callbacks answer, starts more calls in any window
      than the caller's limit per second allows: one a second if the caller set none. */
  lemma PollerNeverStorms(opts: Options, rounds: seq<Round>, calls: seq<int>, waits: seq<int>, t: int, length: nat)
    requires Polite(WithDefaults(opts), rounds, calls, waits) && opts.hardMaxPerSecond <= 1_000_000_000
    ensures var gap := if opts.hardMaxPerSecond > 0 then 1_000_000_000 / opts.hardMaxPerSecond else 1_000_000_000;
            gap > 0 && |StartsIn(calls, t, length)| <= (length + gap - 1) / gap
  {
    var n := WithDefaults(opts).hardMaxPerSecond;
    QuotientAtLeast(1, n, SECOND);
    RateCeiling(calls, HardMin(WithDefaults(opts)), t, length);
  }

  lemma QuotientAtLeast(c: nat, gap: int, x: int)
    requires gap > 0 && c * gap <= x
    ensures c <= x / gap
  {
    var q := x / gap;
    assert x < (q + 1) * gap;
    Ordered(c, q + 1, gap);
  }

  lemma Ordered(a: int, b: int, gap: int)
    requires gap > 0 && a * gap < b * gap
    ensures a < b
  {
  }
}
