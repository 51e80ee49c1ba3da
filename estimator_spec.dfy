/** The value-level half of the client-side tempo estimator
    (lib/audio/bpm-estimator.ts): configuration, the high-pass filter and the
    energy-rise onset strength as functions of their inputs, z-normalisation,
    the autocorrelation lag scan, half/double correction, the tempo-track
    update (EMA smoothing and hysteresis), stability and the advisory
    multiplier. The class in module Estimator is proved against these. */
module EstimatorSpec {
  import opened Wrappers
  import opened Stats

  const HOP_SIZE: nat := 512
  const HISTORY_SECONDS: nat := 8
  /** An estimate at or below this confidence is discarded. */
  const MIN_CONFIDENCE: real := 30.0
  const BPM_HISTORY_CAP: nat := 20
  const INITIAL_BPM: real := 120.0
  /** `Math.PI` to double precision. */
  const PI: real := 3.141592653589793

  datatype Smoothing = Low | Medium | High

  /** The fixed smoothing-level table: low 0.3, medium 0.15, high 0.05. */
  function SmoothingAlpha(level: Smoothing): (alpha: real)
    ensures 0.0 < alpha < 1.0
  {
    match level
    case Low => 0.3
    case Medium => 0.15
    case High => 0.05
  }

  datatype Config = Config(
    minBPM: real,
    maxBPM: real,
    smoothing: Smoothing,
    preferHalfDouble: bool,
    sampleRate: nat)

  /** A partial configuration: absent fields keep their current value. */
  datatype ConfigUpdate = ConfigUpdate(
    minBPM: Option<real>,
    maxBPM: Option<real>,
    smoothing: Option<Smoothing>,
    preferHalfDouble: Option<bool>,
    sampleRate: Option<nat>)

  /** `{ ...config, ...update }`. */
  function Merge(c: Config, u: ConfigUpdate): Config {
    Config(
      u.minBPM.GetOr(c.minBPM),
      u.maxBPM.GetOr(c.maxBPM),
      u.smoothing.GetOr(c.smoothing),
      u.preferHalfDouble.GetOr(c.preferHalfDouble),
      u.sampleRate.GetOr(c.sampleRate))
  }

  /** Shortest lag searched, in onset samples: the period of `maxBPM`. */
  function MinLag(c: Config): int
    requires c.maxBPM > 0.0
  {
    ((60 * c.sampleRate) as real / (c.maxBPM * HOP_SIZE as real)).Floor
  }

  /** Longest lag searched: the period of `minBPM`. */
  function MaxLag(c: Config): int
    requires c.minBPM > 0.0
  {
    ((60 * c.sampleRate) as real / (c.minBPM * HOP_SIZE as real)).Floor
  }

  /** A configuration under which every division of the estimator is defined:
      a positive sample rate, positive tempo bounds, and a shortest lag of at
      least one onset sample (so that converting a lag to BPM never divides by 0). */
  predicate ConfigOk(c: Config) {
    c.sampleRate > 0 && c.minBPM > 0.0 && c.maxBPM > 0.0 && MinLag(c) >= 1
  }

  /** Capacity of the onset history: `floor(8 * sampleRate / 512)` samples. */
  function MaxHistory(sampleRate: nat): nat {
    (HISTORY_SECONDS * sampleRate) / HOP_SIZE
  }

  /** Coefficient of the first-order high-pass at 100 Hz: RC / (RC + dt). */
  function HpAlpha(sampleRate: nat): (alpha: real)
    requires sampleRate > 0
    ensures 0.0 < alpha < 1.0
  {
    var rc := 1.0 / (2.0 * PI * 100.0);
    var dt := 1.0 / sampleRate as real;
    rc / (rc + dt)
  }

  // ---------------------------------------------------------------------------
  // High-pass filter

  /** Output of the filter on one frame, starting from the carried state:
      y[i] = alpha * (y[i-1] + x[i] - x[i-1]) with y[-1] the state and x[-1] = 0
      (the previous frame's last input sample is not carried). */
  function HighPass(alpha: real, state: real, data: seq<real>): (r: seq<real>)
    ensures |r| == |data|
    decreases |data|
  {
    if data == [] then []
    else
      var i := |data| - 1;
      var prev := HighPass(alpha, state, data[..i]);
      var carried := if i == 0 then state else prev[i - 1];
      var before := if i == 0 then 0.0 else data[i - 1];
      prev + [FilterSample(alpha, carried, data[i], before)]
  }

  /** One step of the first-order high-pass difference equation. */
  function FilterSample(alpha: real, carried: real, x: real, before: real): real {
    alpha * (carried + x - before)
  }

  /** The filter state after a frame: its last output, or the old state for an
      empty frame. */
  function FilterState(alpha: real, state: real, data: seq<real>): real {
    if data == [] then state else HighPass(alpha, state, data)[|data| - 1]
  }

  /** The filter is causal: filtering a prefix gives the prefix of the output. */
  lemma {:induction false} HighPassCausal(alpha: real, state: real, data: seq<real>, k: nat)
    requires k <= |data|
    ensures HighPass(alpha, state, data[..k]) == HighPass(alpha, state, data)[..k]
    decreases |data|
  {
    if k < |data| {
      var i := |data| - 1;
      assert data[..i][..k] == data[..k];
      HighPassCausal(alpha, state, data[..i], k);
    } else {
      assert data[..k] == data;
    }
  }

  /** Extending the frame by one sample extends the output by one value. */
  lemma HighPassStep(alpha: real, state: real, data: seq<real>, i: nat)
    requires i < |data|
    ensures var y := HighPass(alpha, state, data[..i]);
      HighPass(alpha, state, data[..i + 1])
        == y + [FilterSample(alpha, if i == 0 then state else y[i - 1], data[i],
                             if i == 0 then 0.0 else data[i - 1])]
  {
    assert data[..i + 1][..i] == data[..i];
  }

  /** The pointwise recurrence of the filter. */
  lemma HighPassRecurrence(alpha: real, state: real, data: seq<real>, i: nat)
    requires i < |data|
    ensures var y := HighPass(alpha, state, data);
      y[i] == alpha * ((if i == 0 then state else y[i - 1]) + data[i]
                       - (if i == 0 then 0.0 else data[i - 1]))
  {
    HighPassCausal(alpha, state, data, i + 1);
    assert data[..i + 1][..i] == data[..i];
    HighPassCausal(alpha, state, data, i);
  }

  function Power(a: real, n: nat): real {
    if n == 0 then 1.0 else a * Power(a, n - 1)
  }

  /** A constant (DC) frame is removed except for a step at the frame start that
      decays geometrically: y[i] = alpha^(i+1) * (state + c). */
  lemma {:induction false} HighPassBlocksConstant(alpha: real, state: real, data: seq<real>, c: real, i: nat)
    requires AllEqual(data, c) && i < |data|
    ensures HighPass(alpha, state, data)[i] == Power(alpha, i + 1) * (state + c)
    decreases i
  {
    HighPassRecurrence(alpha, state, data, i);
    if i > 0 {
      HighPassBlocksConstant(alpha, state, data, c, i - 1);
    }
  }

  // ---------------------------------------------------------------------------
  // Onset strength

  /** Root-mean-square energy of a frame. */
  function Rms(sqrt: real -> real, data: seq<real>): (e: real)
    requires IsSqrt(sqrt) && |data| > 0
    ensures e >= 0.0
  {
    SquaredDeviationsNonNegative(data, 0.0);
    sqrt(SquaredDeviations(data, 0.0) / |data| as real)
  }

  /** Positive rise of the frame energy over the previous frame's; 0 when there
      is no previous frame. */
  function OnsetStrength(previousEnergy: Option<real>, energy: real): (flux: real)
    ensures flux >= 0.0
    ensures previousEnergy.None? ==> flux == 0.0
    ensures previousEnergy.Some? && energy >= previousEnergy.value ==> flux == energy - previousEnergy.value
  {
    match previousEnergy
    case None => 0.0
    case Some(prev) => Max(0.0, energy - prev)
  }

  // ---------------------------------------------------------------------------
  // Normalisation

  function Shift(s: seq<real>, c: real): (r: seq<real>)
    ensures |r| == |s| && forall i :: 0 <= i < |s| ==> r[i] == s[i] - c
  {
    seq(|s|, i requires 0 <= i < |s| => s[i] - c)
  }

  function Scale(s: seq<real>, d: real): (r: seq<real>)
    requires d != 0.0
    ensures |r| == |s| && forall i :: 0 <= i < |s| ==> r[i] == s[i] / d
  {
    seq(|s|, i requires 0 <= i < |s| => s[i] / d)
  }

  /** z-normalisation: subtract the mean, then divide by the standard deviation
      unless it is below 1e-10. */
  function Normalize(sqrt: real -> real, s: seq<real>): (r: seq<real>)
    requires IsSqrt(sqrt) && |s| > 0
    ensures |r| == |s|
  {
    var centered := Shift(s, Mean(s));
    var variance := SquaredDeviations(centered, 0.0) / |centered| as real;
    var stdDev := sqrt(variance);
    if stdDev < 1e-10 then centered else Scale(centered, stdDev)
  }

  lemma {:induction false} SumShift(s: seq<real>, c: real)
    ensures Sum(Shift(s, c)) == Sum(s) - |s| as real * c
    decreases |s|
  {
    if s != [] {
      var n := |s| - 1;
      assert Shift(s, c)[..n] == Shift(s[..n], c);
      SumShift(s[..n], c);
    }
  }

  lemma {:induction false} SumScale(s: seq<real>, d: real)
    requires d != 0.0
    ensures Sum(Scale(s, d)) == Sum(s) / d
    decreases |s|
  {
    if s != [] {
      var n := |s| - 1;
      assert Scale(s, d)[..n] == Scale(s[..n], d);
      SumScale(s[..n], d);
    }
  }

  /** Dividing every element by d divides the sum of squares by k = d * d. */
  lemma {:induction false} SquaresScale(s: seq<real>, d: real, k: real)
    requires d != 0.0 && k == d * d && k > 0.0
    ensures SquaredDeviations(Scale(s, d), 0.0) == SquaredDeviations(s, 0.0) / k
    decreases |s|
  {
    if s != [] {
      var n := |s| - 1;
      assert Scale(s, d)[..n] == Scale(s[..n], d);
      SquaresScale(s[..n], d, k);
      QuotientSquare(s[n], d, k);
      DivideSum(SquaredDeviations(s[..n], 0.0), s[n] * s[n], k);
    }
  }

  lemma QuotientSquare(x: real, d: real, k: real)
    requires d != 0.0 && k == d * d && k > 0.0
    ensures (x / d - 0.0) * (x / d - 0.0) == (x - 0.0) * (x - 0.0) / k
  {
    var q := x / d;
    assert q * d == x;
    assert (q * q) * k == x * x;
  }

  lemma DivideSum(a: real, b: real, k: real)
    requires k != 0.0
    ensures a / k + b / k == (a + b) / k
  {}

  lemma CancelFactor(a: real, k: real)
    requires k > 0.0
    ensures (a * k) / k == a
  {}

  /** A signal with zero mean: the sum of deviations from it is the plain sum of squares. */
  lemma {:induction false} SquaresAroundZero(s: seq<real>)
    requires |s| > 0 && Mean(s) == 0.0
    ensures Variance(s) == SquaredDeviations(s, 0.0) / |s| as real
  {}

  /** The normalised signal always has zero mean, and unit variance whenever
      the standard deviation was not below 1e-10. */
  lemma NormalizeIsZScore(sqrt: real -> real, s: seq<real>)
    requires IsSqrt(sqrt) && |s| > 0
    ensures Mean(Normalize(sqrt, s)) == 0.0
    ensures StdDev(sqrt, s) >= 1e-10 ==> Variance(Normalize(sqrt, s)) == 1.0
  {
    var m := Mean(s);
    var centered := Shift(s, m);
    SumShift(s, m);
    assert Sum(centered) == |s| as real * m - |s| as real * m;
    CenteredVariance(s);
    var variance := Variance(s);
    assert SquaredDeviations(centered, 0.0) / |centered| as real == variance;
    var stdDev := sqrt(variance);
    StdDevNonNegative(sqrt, s);
    if stdDev >= 1e-10 {
      PositiveProduct(stdDev, stdDev);
      ScaledHasUnitVariance(centered, stdDev, variance);
    }
  }

  /** Dividing a zero-sum signal whose sum of squares is n * v by sqrt(v)
      leaves a zero-mean signal of variance 1. */
  lemma ScaledHasUnitVariance(centered: seq<real>, stdDev: real, variance: real)
    requires |centered| > 0 && Sum(centered) == 0.0
    requires stdDev > 0.0 && stdDev * stdDev == variance && variance > 0.0
    requires SquaredDeviations(centered, 0.0) / |centered| as real == variance
    ensures Mean(Scale(centered, stdDev)) == 0.0
    ensures Variance(Scale(centered, stdDev)) == 1.0
  {
    var r := Scale(centered, stdDev);
    SumScale(centered, stdDev);
    ZeroSumHasZeroMean(r);
    SquaresAroundZero(r);
    SquaresScale(centered, stdDev, variance);
    UnitRatio(SquaredDeviations(centered, 0.0), |centered| as real, variance, SquaredDeviations(r, 0.0));
  }

  lemma ZeroSumHasZeroMean(s: seq<real>)
    requires |s| > 0 && Sum(s) == 0.0
    ensures Mean(s) == 0.0
  {}

  /** If a / n == v and b == a / v then b / n == 1. */
  lemma UnitRatio(a: real, n: real, v: real, b: real)
    requires n > 0.0 && v > 0.0 && a / n == v && b == a / v
    ensures b / n == 1.0
  {
    assert a == n * v;
    CancelFactor(n, v);
  }

  /** The sum of squared deviations from the mean is the sum of squares of the
      centred signal. */
  lemma CenteredVariance(s: seq<real>)
    requires |s| > 0
    ensures SquaredDeviations(Shift(s, Mean(s)), 0.0) == SquaredDeviations(s, Mean(s))
  {
    ShiftSquares(s, Mean(s));
  }

  lemma {:induction false} ShiftSquares(s: seq<real>, m: real)
    ensures SquaredDeviations(Shift(s, m), 0.0) == SquaredDeviations(s, m)
    decreases |s|
  {
    if s != [] {
      var n := |s| - 1;
      assert Shift(s, m)[..n] == Shift(s[..n], m);
      ShiftSquares(s[..n], m);
    }
  }

  /** Normalising an already zero-mean, unit-variance signal returns it unchanged. */
  lemma NormalizeIdempotent(sqrt: real -> real, s: seq<real>)
    requires IsSqrt(sqrt) && |s| > 0
    requires Mean(s) == 0.0 && Variance(s) == 1.0
    ensures Normalize(sqrt, s) == s
  {
    var centered := Shift(s, Mean(s));
    assert centered == s;
    SqrtOfOne(sqrt);
    assert Scale(s, 1.0) == s;
  }

  // ---------------------------------------------------------------------------
  // Autocorrelation

  /** Sum of the first `n` products signal[i] * signal[i + lag]. */
  function LagSum(signal: seq<real>, lag: nat, n: nat): real
    requires lag + n <= |signal|
  {
    if n == 0 then 0.0 else LagSum(signal, lag, n - 1) + signal[n - 1] * signal[n - 1 + lag]
  }

  /** Autocorrelation score of one lag: the mean of the overlapping products. */
  function LagScore(signal: seq<real>, lag: nat): real
    requires lag <= |signal|
  {
    var count := |signal| - lag;
    if count > 0 then LagSum(signal, lag, count) / count as real else 0.0
  }

  /** A score, or -Infinity before any lag has been scored. */
  datatype Score = NegInfinity | Finite(value: real)

  predicate Exceeds(x: real, s: Score) {
    s.NegInfinity? || x > s.value
  }

  predicate AtMost(a: Score, b: Score) {
    a.NegInfinity? || (b.Finite? && a.value <= b.value)
  }

  datatype LagScan = LagScan(bestLag: nat, bestScore: Score, secondLag: nat, secondScore: Score)

  /** One iteration of the scan: a strictly better score demotes the best to
      second; otherwise a strictly better second replaces the second. */
  function ScanStep(st: LagScan, lag: nat, score: real): LagScan {
    if Exceeds(score, st.bestScore) then LagScan(lag, Finite(score), st.bestLag, st.bestScore)
    else if Exceeds(score, st.secondScore) then st.(secondLag := lag, secondScore := Finite(score))
    else st
  }

  /** The scan state after the lags minLag, ..., end - 1, in that order. */
  function ScanLags(signal: seq<real>, minLag: nat, end: nat): (st: LagScan)
    requires minLag < end ==> end <= |signal|
    ensures minLag <= st.bestLag && minLag <= st.secondLag
    decreases end
  {
    if end <= minLag then LagScan(minLag, NegInfinity, minLag, NegInfinity)
    else ScanStep(ScanLags(signal, minLag, end - 1), end - 1, LagScore(signal, end - 1))
  }

  /** After scanning a non-empty lag range, the best lag is the first lag of the
      range attaining the maximum score, and the second-best score is the
      maximum over the other lags (so never above the best), attained by the
      second lag. */
  lemma {:induction false} ScanLagsFindsMaximum(signal: seq<real>, minLag: nat, end: nat)
    requires minLag < end <= |signal|
    ensures var st := ScanLags(signal, minLag, end);
      && minLag <= st.bestLag < end
      && st.bestScore == Finite(LagScore(signal, st.bestLag))
      && (forall l :: minLag <= l < end ==> LagScore(signal, l) <= st.bestScore.value)
      && (forall l :: minLag <= l < st.bestLag ==> LagScore(signal, l) < st.bestScore.value)
      && (forall l :: minLag <= l < end && l != st.bestLag ==>
            st.secondScore.Finite? && LagScore(signal, l) <= st.secondScore.value)
      && (st.secondScore.Finite? ==>
            minLag <= st.secondLag < end && st.secondLag != st.bestLag
            && LagScore(signal, st.secondLag) == st.secondScore.value)
      && AtMost(st.secondScore, st.bestScore)
    decreases end
  {
    if minLag < end - 1 {
      ScanLagsFindsMaximum(signal, minLag, end - 1);
    }
  }

  /** An empty lag range leaves the best lag at minLag and both scores at -Infinity. */
  lemma ScanLagsEmptyRange(signal: seq<real>, minLag: nat, end: nat)
    requires end <= minLag
    ensures ScanLags(signal, minLag, end) == LagScan(minLag, NegInfinity, minLag, NegInfinity)
  {}

  /** Exclusive end of the lags the scan visits: the first lag from minLag on
      failing `lag < maxLag && lag < signal.length / 2`. */
  function ScanEnd(minLag: nat, maxLag: int, len: nat): (end: nat)
    ensures minLag <= end && (minLag < end ==> end <= len)
    ensures forall lag: nat :: minLag <= lag ==> (lag < end <==> lag < maxLag && 2 * lag < len)
  {
    var bound := if maxLag <= (len + 1) / 2 then maxLag else (len + 1) / 2;
    if bound <= minLag then minLag else bound
  }

  function LagToBPM(c: Config, lag: nat): real
    requires lag > 0
  {
    (60 * c.sampleRate) as real / (lag * HOP_SIZE) as real
  }

  /** Peak-ratio confidence: (best - second) / second as a percentage capped at
      100 when the second score is positive, and 50 otherwise. */
  function PeakConfidence(best: Score, second: Score): (confidence: real)
    requires AtMost(second, best)
    ensures 0.0 <= confidence <= 100.0
    ensures !(second.Finite? && second.value > 0.0) ==> confidence == 50.0
  {
    if second.Finite? && second.value > 0.0 then
      Min(100.0, (best.value - second.value) / second.value * 100.0)
    else 50.0
  }

  datatype AcResult = AcResult(bpm: real, confidence: real, secondBestBPM: real)

  /** The whole autocorrelation step on a (normalised) onset signal. */
  function AutocorrelationOf(c: Config, signal: seq<real>): (r: AcResult)
    requires ConfigOk(c)
    ensures 0.0 <= r.confidence <= 100.0
  {
    var minLag: nat := MinLag(c);
    var end := ScanEnd(minLag, MaxLag(c), |signal|);
    var st := ScanLags(signal, minLag, end);
    if minLag < end then ScanLagsFindsMaximum(signal, minLag, end); AcResult(
      LagToBPM(c, st.bestLag), PeakConfidence(st.bestScore, st.secondScore), LagToBPM(c, st.secondLag))
    else AcResult(LagToBPM(c, st.bestLag), PeakConfidence(st.bestScore, st.secondScore), LagToBPM(c, st.secondLag))
  }

  /** When no lag fits the range, the estimate is the tempo of minLag with the
      neutral confidence 50. */
  lemma AutocorrelationOfEmptyRange(c: Config, signal: seq<real>)
    requires ConfigOk(c)
    requires ScanEnd(MinLag(c), MaxLag(c), |signal|) == MinLag(c)
    ensures AutocorrelationOf(c, signal).bpm == LagToBPM(c, MinLag(c))
    ensures AutocorrelationOf(c, signal).confidence == 50.0
  {}

  // ---------------------------------------------------------------------------
  // Half/double correction

  datatype Correction = Correction(bpm: real, multiplier: Option<real>)

  /** Prefer half the tempo when the runner-up tempo is within 3 BPM of it and
      it stays above minBPM; otherwise double under the same rule against
      maxBPM; otherwise keep the tempo. Half is tested first. */
  function CheckHalfDouble(bpm: real, secondBest: real, minBPM: real, maxBPM: real): (r: Correction)
    ensures r.multiplier in {None, Some(0.5), Some(2.0)}
    ensures r.bpm == bpm * r.multiplier.GetOr(1.0)
    ensures r.multiplier == Some(0.5) <==> Abs(secondBest - bpm / 2.0) < 3.0 && bpm / 2.0 >= minBPM
    ensures r.multiplier == Some(2.0) ==> Abs(secondBest - bpm * 2.0) < 3.0 && bpm * 2.0 <= maxBPM
    ensures r.multiplier.None? ==>
      !(Abs(secondBest - bpm * 2.0) < 3.0 && bpm * 2.0 <= maxBPM)
    ensures 0.0 < minBPM <= bpm <= maxBPM ==> minBPM <= r.bpm <= maxBPM
  {
    var half := bpm / 2.0;
    var double := bpm * 2.0;
    if Abs(secondBest - half) < 3.0 && half >= minBPM then Correction(half, Some(0.5))
    else if Abs(secondBest - double) < 3.0 && double <= maxBPM then Correction(double, Some(2.0))
    else Correction(bpm, None)
  }

  /** A 75 BPM estimate whose runner-up is 150 BPM is doubled when 150 is allowed. */
  lemma HalfDoubleExample(maxBPM: real)
    requires maxBPM >= 150.0
    ensures CheckHalfDouble(75.0, 150.0, 40.0, maxBPM) == Correction(150.0, Some(2.0))
  {}

  // ---------------------------------------------------------------------------
  // Tempo track: smoothing, hysteresis, history

  /** Exponential smoothing towards the candidate, skipped for the first
      accepted estimate (empty history). */
  function Smooth(alpha: real, candidate: real, current: real, historyEmpty: bool): (r: real)
    requires 0.0 <= alpha <= 1.0
    ensures historyEmpty ==> r == candidate
    ensures Min(candidate, current) <= r <= Max(candidate, current)
  {
    if historyEmpty then candidate
    else
      SmoothBetween(alpha, candidate, current);
      Ema(alpha, candidate, current)
  }

  /** Exponential moving average step: weight alpha on the new value. */
  function Ema(alpha: real, x: real, previous: real): real {
    alpha * x + (1.0 - alpha) * previous
  }

  lemma SmoothBetween(alpha: real, candidate: real, current: real)
    requires 0.0 <= alpha <= 1.0
    ensures Min(candidate, current) <= Ema(alpha, candidate, current) <= Max(candidate, current)
  {
    Blend(alpha, candidate, current, Min(candidate, current), Max(candidate, current));
  }

  /** A convex combination of two values in [lo, hi] stays in [lo, hi]. */
  lemma Blend(alpha: real, x: real, y: real, lo: real, hi: real)
    requires 0.0 <= alpha <= 1.0 && lo <= x <= hi && lo <= y <= hi
    ensures lo <= Ema(alpha, x, y) <= hi
  {
    var beta := 1.0 - alpha;
    var d1, d2, u1, u2 := x - lo, y - lo, hi - x, hi - y;
    MultiplyMonotone(alpha, 0.0, d1);
    MultiplyMonotone(beta, 0.0, d2);
    MultiplyMonotone(alpha, 0.0, u1);
    MultiplyMonotone(beta, 0.0, u2);
    assert Ema(alpha, x, y) == lo + alpha * d1 + beta * d2;
    assert Ema(alpha, x, y) == hi - alpha * u1 - beta * u2;
  }

  datatype Track = Track(currentBPM: real, bpmHistory: seq<real>)

  /** The smoothed value an accepted estimate contributes. */
  function Candidate(c: Config, alpha: real, t: Track, ac: AcResult): real
    requires 0.0 <= alpha <= 1.0
  {
    var corrected :=
      if c.preferHalfDouble then CheckHalfDouble(ac.bpm, ac.secondBestBPM, c.minBPM, c.maxBPM).bpm
      else ac.bpm;
    Smooth(alpha, corrected, t.currentBPM, |t.bpmHistory| == 0)
  }

  /** The tempo track after one estimate: discarded at confidence 30 or below;
      otherwise the smoothed candidate is committed only if it moves more than
      2 BPM or the confidence exceeds 70, and is appended to the 20-entry
      history either way. */
  function TrackUpdate(c: Config, alpha: real, t: Track, ac: AcResult): Track
    requires 0.0 <= alpha <= 1.0
  {
    if ac.confidence > MIN_CONFIDENCE then
      var cand := Candidate(c, alpha, t, ac);
      var committed := Abs(cand - t.currentBPM) > 2.0 || ac.confidence > 70.0;
      Track(if committed then cand else t.currentBPM, PushBounded(t.bpmHistory, cand, BPM_HISTORY_CAP))
    else t
  }

  /** What an estimate can do to the track: nothing at low confidence; the
      displayed tempo moves only by more than 2 BPM or at high confidence, and
      then to the smoothed candidate, which lies between the old tempo and the
      corrected estimate; the candidate is appended to the history even when
      the displayed tempo is held; the history never exceeds 20 entries. */
  lemma TrackUpdateSpec(c: Config, alpha: real, t: Track, ac: AcResult)
    requires 0.0 <= alpha <= 1.0
    ensures var t' := TrackUpdate(c, alpha, t, ac);
      && (ac.confidence <= MIN_CONFIDENCE ==> t' == t)
      && (t'.currentBPM != t.currentBPM ==>
            ac.confidence > MIN_CONFIDENCE
            && (Abs(t'.currentBPM - t.currentBPM) > 2.0 || ac.confidence > 70.0)
            && t'.currentBPM == Candidate(c, alpha, t, ac))
      && (ac.confidence > MIN_CONFIDENCE ==>
            t'.bpmHistory[|t'.bpmHistory| - 1] == Candidate(c, alpha, t, ac))
      && (|t.bpmHistory| <= BPM_HISTORY_CAP ==> |t'.bpmHistory| <= BPM_HISTORY_CAP)
  {
    PushBoundedKeepsOrder(t.bpmHistory, Candidate(c, alpha, t, ac), BPM_HISTORY_CAP);
  }

  /** Two estimates within 2 BPM of the displayed tempo at confidence 70 or
      below leave it unchanged: hysteresis suppresses jitter. */
  lemma HysteresisHoldsTempo(c: Config, alpha: real, t: Track, ac: AcResult)
    requires 0.0 <= alpha <= 1.0
    requires ac.confidence <= 70.0
    requires Abs(Candidate(c, alpha, t, ac) - t.currentBPM) <= 2.0
    ensures TrackUpdate(c, alpha, t, ac).currentBPM == t.currentBPM
  {}

  /** Stability of the recent tempo track: 0 below 5 entries, otherwise
      100 - 10 * (standard deviation of the last 10 entries), floored at 0. */
  function Stability(sqrt: real -> real, h: seq<real>): (r: real)
    requires IsSqrt(sqrt)
    ensures |h| < 5 ==> r == 0.0
    ensures 0.0 <= r <= 100.0
  {
    if |h| < 5 then 0.0
    else
      StdDevNonNegative(sqrt, Recent(h, 10));
      Max(0.0, 100.0 - StdDev(sqrt, Recent(h, 10)) * 10.0)
  }

  /** A steady track (the last 10 entries equal) is fully stable. */
  lemma SteadyTrackIsStable(sqrt: real -> real, h: seq<real>, bpm: real)
    requires IsSqrt(sqrt) && |h| >= 5 && AllEqual(Recent(h, 10), bpm)
    ensures Stability(sqrt, h) == 100.0
  {
    ConstantHasNoSpread(sqrt, Recent(h, 10), bpm);
  }

  /** Advisory multiplier from the mean of the last 5 entries: 0.5 above
      150 BPM if the half stays at or above minBPM, else 2 below 90 BPM if the
      double stays at or below maxBPM; nothing with fewer than 5 entries. */
  function SuggestedMultiplier(h: seq<real>, minBPM: real, maxBPM: real): (r: Option<real>)
    ensures r in {None, Some(0.5), Some(2.0)}
    ensures r == Some(0.5) <==>
      |h| >= 5 && Mean(Recent(h, 5)) > 150.0 && Mean(Recent(h, 5)) / 2.0 >= minBPM
    ensures r == Some(2.0) <==>
      |h| >= 5 && !(Mean(Recent(h, 5)) > 150.0 && Mean(Recent(h, 5)) / 2.0 >= minBPM)
      && Mean(Recent(h, 5)) < 90.0 && Mean(Recent(h, 5)) * 2.0 <= maxBPM
  {
    if |h| < 5 then None
    else
      var avg := Mean(Recent(h, 5));
      if avg > 150.0 && avg / 2.0 >= minBPM then Some(0.5)
      else if avg < 90.0 && avg * 2.0 <= maxBPM then Some(2.0)
      else None
  }

  datatype BPMResult = BPMResult(bpm: real, confidence: real, stable: bool, suggestedMultiplier: Option<real>)

  /** Result of a frame that does not run an estimate: the raw current tempo,
      the stability as confidence, and `stable` once more than 5 entries are
      held and the stability exceeds 60. */
  function PassiveResult(sqrt: real -> real, t: Track): BPMResult
    requires IsSqrt(sqrt)
  {
    BPMResult(t.currentBPM, Stability(sqrt, t.bpmHistory),
      |t.bpmHistory| > 5 && Stability(sqrt, t.bpmHistory) > 60.0, None)
  }

  /** Result of an estimation cycle, read from the updated track: the tempo to
      one decimal, the estimate's rounded confidence, stability above 60, and
      the advisory multiplier when half/double handling is on. */
  function EstimateResult(sqrt: real -> real, c: Config, t: Track, confidence: real): BPMResult
    requires IsSqrt(sqrt)
  {
    BPMResult(RoundTo1(t.currentBPM), Round(confidence) as real,
      Stability(sqrt, t.bpmHistory) > 60.0,
      if c.preferHalfDouble then SuggestedMultiplier(t.bpmHistory, c.minBPM, c.maxBPM) else None)
  }

  /** Autocorrelation of the z-normalised onset history: what one estimation
      cycle measures. */
  function OnsetTempo(sqrt: real -> real, c: Config, onsets: seq<real>): AcResult
    requires IsSqrt(sqrt) && ConfigOk(c) && |onsets| > 0
  {
    AutocorrelationOf(c, Normalize(sqrt, onsets))
  }
}
