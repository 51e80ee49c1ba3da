/** Manual tempo from taps (frontend/lib/audio/tap-tempo.ts): a bounded list
    of millisecond timestamps that restarts after a pause, turned into a tempo
    from the mean inter-tap interval after interquartile-range outlier
    rejection, with a confidence from the intervals' coefficient of variation.
    The clock reading is passed to `Tap`, and the automatic reset timer is the
    explicit `Timeout` operation. */
module TapTempoEstimator {
  import opened Wrappers
  import opened Stats

  const MIN_TAPS: nat := 4
  const MAX_TAPS: nat := 16
  /** A pause longer than this (in ms) starts a new session. */
  const TIMEOUT_MS: int := 3000

  datatype TapResult = TapResult(bpm: real, taps: nat, confidence: real)

  /** Every tap is later than the one before it. */
  ghost predicate StrictlyIncreasing(t: seq<int>) {
    forall i, j :: 0 <= i < j < |t| ==> t[i] < t[j]
  }

  // ---------------------------------------------------------------------------
  // Recording a tap

  /** The tap list after a tap at `now`: emptied first if the previous tap is
      more than 3000 ms old, then `now` appended, keeping the newest 16. */
  function Record(taps: seq<int>, now: int): seq<int> {
    var kept := if taps != [] && now - taps[|taps| - 1] > TIMEOUT_MS then [] else taps;
    PushBounded(kept, now, MAX_TAPS)
  }

  /** A tap leaves between 1 and 16 timestamps, newest last and in increasing
      order; after a long pause it leaves only the new tap; otherwise it keeps
      the newest of the previous taps in order. */
  lemma RecordSpec(taps: seq<int>, now: int)
    requires |taps| <= MAX_TAPS && StrictlyIncreasing(taps)
    requires taps == [] || now > taps[|taps| - 1]
    ensures var r := Record(taps, now);
      && 1 <= |r| <= MAX_TAPS
      && r[|r| - 1] == now
      && StrictlyIncreasing(r)
      && (taps != [] && now - taps[|taps| - 1] > TIMEOUT_MS ==> r == [now])
      && (!(taps != [] && now - taps[|taps| - 1] > TIMEOUT_MS) ==>
            r[..|r| - 1] == taps[|taps| + 1 - |r|..])
  {
    var paused := taps != [] && now - taps[|taps| - 1] > TIMEOUT_MS;
    var kept := if paused then [] else taps;
    var r := Record(taps, now);
    assert r == PushBounded(kept, now, MAX_TAPS);
    PushIncreasing(kept, now);
    if paused {
      assert |r| == 1 && r[0] == now;
      assert r == [now];
    }
  }

  /** A bounded push of a later timestamp keeps the list increasing, ends
      with the new timestamp and keeps the newest earlier ones. */
  lemma PushIncreasing(kept: seq<int>, now: int)
    requires |kept| <= MAX_TAPS && StrictlyIncreasing(kept)
    requires kept == [] || now > kept[|kept| - 1]
    ensures var r := PushBounded(kept, now, MAX_TAPS);
      && 1 <= |r| <= MAX_TAPS
      && r[|r| - 1] == now
      && StrictlyIncreasing(r)
      && r[..|r| - 1] == kept[|kept| + 1 - |r|..]
  {
    PushBoundedKeepsOrder(kept, now, MAX_TAPS);
    AppendIncreasing(kept, now);
    var all := kept + [now];
    var r := PushBounded(kept, now, MAX_TAPS);
    if |kept| + 1 > MAX_TAPS {
      assert r == all[1..];
      SuffixIncreasing(all, 1);
    } else {
      assert r == all;
    }
  }

  lemma AppendIncreasing(t: seq<int>, x: int)
    requires StrictlyIncreasing(t) && (t == [] || x > t[|t| - 1])
    ensures StrictlyIncreasing(t + [x])
  {
    var u := t + [x];
    forall i, j | 0 <= i < j < |u|
      ensures u[i] < u[j]
    {
      if j == |t| && i < |t| - 1 {
        assert t[i] < t[|t| - 1];
      }
    }
  }

  lemma SuffixIncreasing(t: seq<int>, k: nat)
    requires StrictlyIncreasing(t) && k <= |t|
    ensures StrictlyIncreasing(t[k..])
  {
    var u := t[k..];
    forall i, j | 0 <= i < j < |u|
      ensures u[i] < u[j]
    {
      assert u[i] == t[k + i] && u[j] == t[k + j];
    }
  }

  // ---------------------------------------------------------------------------
  // Intervals

  /** The gaps between consecutive taps, in ms. */
  function Intervals(t: seq<int>): (r: seq<real>)
    ensures |r| == if |t| == 0 then 0 else |t| - 1
    ensures forall i :: 0 <= i < |r| ==> r[i] == (t[i + 1] - t[i]) as real
    decreases |t|
  {
    if |t| <= 1 then []
    else
      assert t[..|t| - 1][|t| - 2] == t[|t| - 2];
      Intervals(t[..|t| - 1]) + [(t[|t| - 1] - t[|t| - 2]) as real]
  }

  /** One more tap adds one more interval. */
  lemma IntervalsStep(t: seq<int>, i: nat)
    requires 1 <= i < |t|
    ensures Intervals(t[..i + 1]) == Intervals(t[..i]) + [(t[i] - t[i - 1]) as real]
  {
    assert t[..i + 1][..i] == t[..i];
  }

  lemma IntervalsPositive(t: seq<int>)
    requires StrictlyIncreasing(t)
    ensures AllPositive(Intervals(t))
  {}

  // ---------------------------------------------------------------------------
  // Outlier rejection

  /** The elements of `s` within [lo, hi], in their original order. */
  function KeepWithin(s: seq<real>, lo: real, hi: real): seq<real>
  {
    if s == [] then []
    else (if lo <= s[0] <= hi then [s[0]] else []) + KeepWithin(s[1..], lo, hi)
  }

  /** Filtering distributes over concatenation, so it never reorders. */
  lemma {:induction false} KeepWithinAppend(a: seq<real>, b: seq<real>, lo: real, hi: real)
    ensures KeepWithin(a + b, lo, hi) == KeepWithin(a, lo, hi) + KeepWithin(b, lo, hi)
    decreases |a|
  {
    if a != [] {
      assert (a + b)[1..] == a[1..] + b;
      KeepWithinAppend(a[1..], b, lo, hi);
    } else {
      assert a + b == b;
    }
  }

  /** Each value within the bounds is kept as often as it occurs; every other
      value is dropped. */
  lemma {:induction false} KeepWithinCount(s: seq<real>, lo: real, hi: real, x: real)
    ensures multiset(KeepWithin(s, lo, hi))[x] == if lo <= x <= hi then multiset(s)[x] else 0
    decreases |s|
  {
    if s != [] {
      KeepWithinCount(s[1..], lo, hi, x);
      assert s == [s[0]] + s[1..];
    }
  }

  /** A sequence entirely within the bounds is kept whole. */
  lemma {:induction false} KeepWithinAll(s: seq<real>, lo: real, hi: real)
    requires forall i :: 0 <= i < |s| ==> lo <= s[i] <= hi
    ensures KeepWithin(s, lo, hi) == s
    decreases |s|
  {
    if s != [] {
      KeepWithinAll(s[1..], lo, hi);
    }
  }

  /** First quartile: the sorted value at index floor(n * 0.25). */
  function Quartile1(s: seq<real>): real
    requires |s| > 0
  {
    Sort(s)[|s| / 4]
  }

  /** Third quartile: the sorted value at index floor(n * 0.75). */
  function Quartile3(s: seq<real>): real
    requires |s| > 0
  {
    Sort(s)[(3 * |s|) / 4]
  }

  function LowerFence(s: seq<real>): real
    requires |s| > 0
  {
    Quartile1(s) - 1.5 * (Quartile3(s) - Quartile1(s))
  }

  function UpperFence(s: seq<real>): real
    requires |s| > 0
  {
    Quartile3(s) + 1.5 * (Quartile3(s) - Quartile1(s))
  }

  /** Interquartile-range outlier rejection; fewer than 3 intervals are kept as they are. */
  function RemoveOutliers(intervals: seq<real>): (r: seq<real>)
    ensures |intervals| < 3 ==> r == intervals
  {
    if |intervals| < 3 then intervals
    else KeepWithin(intervals, LowerFence(intervals), UpperFence(intervals))
  }

  /** From 3 intervals on, the survivors are exactly the intervals inside the
      fences, each as often as it occurs; the first quartile itself always
      survives, so the result is never empty. */
  lemma RemoveOutliersSpec(intervals: seq<real>, x: real)
    requires |intervals| >= 3
    ensures var r := RemoveOutliers(intervals);
      && multiset(r)[x] == (if LowerFence(intervals) <= x <= UpperFence(intervals)
                            then multiset(intervals)[x] else 0)
      && Quartile1(intervals) in r
      && r != []
  {
    var lo, hi := LowerFence(intervals), UpperFence(intervals);
    var n := |intervals|;
    var q1, q3 := Quartile1(intervals), Quartile3(intervals);
    assert q1 <= q3;
    SortedMember(intervals, n / 4);
    assert q1 in multiset(intervals);
    KeepWithinCount(intervals, lo, hi, x);
    KeepWithinCount(intervals, lo, hi, q1);
    assert q1 in multiset(RemoveOutliers(intervals));
  }

  // ---------------------------------------------------------------------------
  // Confidence

  /** 100 * (1 - 5 * cv), clamped to [0, 100], where cv is the population
      standard deviation over the mean; 50 for fewer than 2 intervals. */
  function CalculateConfidence(sqrt: real -> real, intervals: seq<real>, avgInterval: real): (r: real)
    requires IsSqrt(sqrt) && avgInterval > 0.0
    ensures 0.0 <= r <= 100.0
    ensures |intervals| < 2 ==> r == 50.0
  {
    if |intervals| < 2 then 50.0
    else
      var variance := SquaredDeviations(intervals, avgInterval) / |intervals| as real;
      var stdDev := sqrt(variance);
      var cv := stdDev / avgInterval;
      Max(0.0, Min(100.0, (1.0 - cv * 5.0) * 100.0))
  }

  /** Equal intervals give full confidence. */
  lemma EqualIntervalsFullConfidence(sqrt: real -> real, intervals: seq<real>, gap: real)
    requires IsSqrt(sqrt) && gap > 0.0 && |intervals| >= 2 && AllEqual(intervals, gap)
    ensures CalculateConfidence(sqrt, intervals, gap) == 100.0
  {
    SquaredDeviationsOfConstant(intervals, gap);
    SqrtOfZero(sqrt);
  }

  /** Intervals whose standard deviation reaches a fifth of the mean give
      confidence 0. */
  lemma IrregularIntervalsNoConfidence(sqrt: real -> real, intervals: seq<real>, avg: real)
    requires IsSqrt(sqrt) && avg > 0.0 && |intervals| >= 2
    requires sqrt(SquaredDeviations(intervals, avg) / |intervals| as real) >= avg / 5.0
    ensures CalculateConfidence(sqrt, intervals, avg) == 0.0
  {
    var stdDev := sqrt(SquaredDeviations(intervals, avg) / |intervals| as real);
    RatioAtLeast(stdDev, avg, 0.2);
  }

  lemma RatioAtLeast(x: real, d: real, c: real)
    requires d > 0.0 && x >= d * c
    ensures x / d >= c
  {
    var q := x / d;
    assert q * d == x;
    assert d * (q - c) == x - d * c;
    FactorSign(d, q - c);
  }

  lemma FactorSign(d: real, y: real)
    requires d > 0.0 && d * y >= 0.0
    ensures y >= 0.0
  {
    if y < 0.0 {
      PositiveProduct(d, -y);
    }
  }

  // ---------------------------------------------------------------------------
  // Tempo from taps

  /** The result of `calculateBPM` for a list of taps: nothing computed below
      4 taps, otherwise 60000 / (mean surviving interval) to one decimal, the
      tap count and the rounded confidence. */
  function TapEstimate(sqrt: real -> real, taps: seq<int>): (r: TapResult)
    requires IsSqrt(sqrt) && StrictlyIncreasing(taps)
    ensures r.taps == |taps|
  {
    if |taps| < MIN_TAPS then TapResult(0.0, |taps|, 0.0)
    else
      var filtered := RemoveOutliers(Intervals(taps));
      if filtered == [] then TapResult(0.0, |taps|, 0.0)
      else
        SurvivorsPositive(taps);
        MeanOfPositives(filtered);
        var avgInterval := Mean(filtered);
        var bpm := 60000.0 / avgInterval;
        var confidence := CalculateConfidence(sqrt, filtered, avgInterval);
        TapResult(RoundTo1(bpm), |taps|, Round(confidence) as real)
  }

  lemma SurvivorsPositive(taps: seq<int>)
    requires StrictlyIncreasing(taps)
    ensures AllPositive(RemoveOutliers(Intervals(taps)))
  {
    var s := Intervals(taps);
    IntervalsPositive(taps);
    if |s| >= 3 {
      var r := RemoveOutliers(s);
      forall i | 0 <= i < |r|
        ensures r[i] > 0.0
      {
        KeepWithinCount(s, LowerFence(s), UpperFence(s), r[i]);
        assert r[i] in multiset(r);
        assert r[i] in multiset(s);
      }
    }
  }

  /** With 4 or more taps a result is always computed (the empty-survivor
      branch is never taken): its tempo is not negative and its confidence
      lies in [0, 100]. */
  lemma TapEstimateComputed(sqrt: real -> real, taps: seq<int>)
    requires IsSqrt(sqrt) && StrictlyIncreasing(taps) && |taps| >= MIN_TAPS
    ensures RemoveOutliers(Intervals(taps)) != []
    ensures TapEstimate(sqrt, taps).bpm >= 0.0
    ensures 0.0 <= TapEstimate(sqrt, taps).confidence <= 100.0
  {
    var s := Intervals(taps);
    RemoveOutliersSpec(s, 0.0);
    SurvivorsPositive(taps);
    var filtered := RemoveOutliers(s);
    MeanOfPositives(filtered);
    var avg := Mean(filtered);
    QuotientOfPositives(60000.0, avg);
    RoundOfPositive(60000.0 / avg);
    RoundWithin(CalculateConfidence(sqrt, filtered, avg), 0, 100);
  }

  lemma RoundOfPositive(x: real)
    requires x > 0.0
    ensures RoundTo1(x) >= 0.0
  {
    RoundWithin(x * 10.0, 0, (x * 10.0).Floor + 1);
  }

  /** Evenly spaced taps give exactly 60000 / gap (to one decimal) at full confidence. */
  lemma EvenTapsExactTempo(sqrt: real -> real, taps: seq<int>, start: int, gap: int)
    requires IsSqrt(sqrt) && gap > 0 && |taps| >= MIN_TAPS
    requires forall i :: 0 <= i < |taps| ==> taps[i] == start + i * gap
    ensures StrictlyIncreasing(taps)
    ensures TapEstimate(sqrt, taps) == TapResult(RoundTo1(60000.0 / gap as real), |taps|, 100.0)
  {
    EvenTapsIncrease(taps, start, gap);
    var s := Intervals(taps);
    var g := gap as real;
    EvenTapsEqualIntervals(taps, start, gap);
    EqualIntervalsSurvive(s, g);
    ConstantHasNoSpread(sqrt, s, g);
    EqualIntervalsFullConfidence(sqrt, s, g);
    RoundOfInteger(100);
    TapEstimateFromSurvivors(sqrt, taps, g);
  }

  /** With 4 or more taps the reported tempo is 60000 / (mean surviving
      interval) to within the 0.05 of one-decimal rounding, and the reported
      confidence is the survivors' confidence rounded to an integer in [0, 100]. */
  lemma TapEstimateNearTempo(sqrt: real -> real, taps: seq<int>)
    requires IsSqrt(sqrt) && StrictlyIncreasing(taps) && |taps| >= MIN_TAPS
    ensures RemoveOutliers(Intervals(taps)) != []
    ensures Mean(RemoveOutliers(Intervals(taps))) > 0.0
    ensures var tempo := 60000.0 / Mean(RemoveOutliers(Intervals(taps)));
      tempo - 0.05 < TapEstimate(sqrt, taps).bpm <= tempo + 0.05
    ensures var c := CalculateConfidence(sqrt, RemoveOutliers(Intervals(taps)),
                                         Mean(RemoveOutliers(Intervals(taps))));
      TapEstimate(sqrt, taps).confidence == Round(c) as real
      && 0.0 <= TapEstimate(sqrt, taps).confidence <= 100.0
  {
    TapEstimateComputed(sqrt, taps);
    SurvivorsPositive(taps);
    MeanOfPositives(RemoveOutliers(Intervals(taps)));
    TapEstimateFromSurvivors(sqrt, taps, Mean(RemoveOutliers(Intervals(taps))));
  }

  /** With 4 or more taps, the estimate is read off the surviving intervals
      and their mean. */
  lemma TapEstimateFromSurvivors(sqrt: real -> real, taps: seq<int>, avg: real)
    requires IsSqrt(sqrt) && StrictlyIncreasing(taps) && |taps| >= MIN_TAPS
    requires RemoveOutliers(Intervals(taps)) != [] && avg == Mean(RemoveOutliers(Intervals(taps)))
    requires avg > 0.0
    ensures TapEstimate(sqrt, taps) == TapResult(RoundTo1(60000.0 / avg), |taps|,
      Round(CalculateConfidence(sqrt, RemoveOutliers(Intervals(taps)), avg)) as real)
  {}

  lemma EvenTapsIncrease(taps: seq<int>, start: int, gap: int)
    requires gap > 0
    requires forall i :: 0 <= i < |taps| ==> taps[i] == start + i * gap
    ensures StrictlyIncreasing(taps)
  {
    forall i, j | 0 <= i < j < |taps|
      ensures taps[i] < taps[j]
    {
      assert taps[j] - taps[i] == (j - i) * gap;
      PositiveIntProduct(j - i, gap);
    }
  }

  lemma EvenTapsEqualIntervals(taps: seq<int>, start: int, gap: int)
    requires forall i :: 0 <= i < |taps| ==> taps[i] == start + i * gap
    ensures AllEqual(Intervals(taps), gap as real)
  {
    var s := Intervals(taps);
    forall i | 0 <= i < |s|
      ensures s[i] == gap as real
    {
      assert taps[i + 1] - taps[i] == gap;
    }
  }

  /** Equal intervals are never outliers. */
  lemma EqualIntervalsSurvive(s: seq<real>, g: real)
    requires AllEqual(s, g)
    ensures RemoveOutliers(s) == s
  {
    if |s| >= 3 {
      SortOfConstant(s, g);
      var i1, i3 := |s| / 4, (3 * |s|) / 4;
      assert i1 < |s| && i3 < |s|;
      assert Sort(s)[i1] == g && Sort(s)[i3] == g;
      assert LowerFence(s) == g && UpperFence(s) == g;
      KeepWithinAll(s, g, g);
    }
  }

  lemma PositiveIntProduct(a: int, b: int)
    requires a > 0 && b > 0
    ensures a * b > 0
  {}

  /** Taps every 500 ms give 120 BPM at confidence 100. */
  lemma HalfSecondTapsGive120(sqrt: real -> real, taps: seq<int>)
    requires IsSqrt(sqrt) && taps == [0, 500, 1000, 1500, 2000]
    ensures StrictlyIncreasing(taps)
    ensures TapEstimate(sqrt, taps) == TapResult(120.0, 5, 100.0)
  {
    EvenTapsExactTempo(sqrt, taps, 0, 500);
    RoundTo1OfInteger(120);
    assert 60000.0 / 500 as real == 120 as real;
  }

  /** With four intervals the third quartile is the largest one, so a single
      late tap is never rejected: three 500 ms gaps and one 3500 ms gap
      average to 1250 ms, i.e. 48 BPM, at confidence 0. */
  lemma LateTapIsKept(sqrt: real -> real, taps: seq<int>)
    requires IsSqrt(sqrt) && |taps| == 5
    requires taps[0] == 0 && taps[1] == 500 && taps[2] == 1000 && taps[3] == 1500 && taps[4] == 5000
    ensures StrictlyIncreasing(taps)
    ensures RemoveOutliers(Intervals(taps)) == [500.0, 500.0, 500.0, 3500.0]
    ensures TapEstimate(sqrt, taps) == TapResult(48.0, 5, 0.0)
  {
    LateTapSurvivors(taps);
    LateTapParts(sqrt, taps);
    RoundOfInteger(0);
    LateTapTempo();
    EstimateFromParts(sqrt, taps, RemoveOutliers(Intervals(taps)), 1250.0, 0.0);
  }

  lemma LateTapSurvivors(taps: seq<int>)
    requires |taps| == 5
    requires taps[0] == 0 && taps[1] == 500 && taps[2] == 1000 && taps[3] == 1500 && taps[4] == 5000
    ensures StrictlyIncreasing(taps)
    ensures RemoveOutliers(Intervals(taps)) == [500.0, 500.0, 500.0, 3500.0]
  {
    LateTapIntervals(taps);
    LateTapSurvives(Intervals(taps));
  }

  lemma LateTapParts(sqrt: real -> real, taps: seq<int>)
    requires IsSqrt(sqrt) && |taps| == 5
    requires taps[0] == 0 && taps[1] == 500 && taps[2] == 1000 && taps[3] == 1500 && taps[4] == 5000
    ensures RemoveOutliers(Intervals(taps)) != []
    ensures Mean(RemoveOutliers(Intervals(taps))) == 1250.0
    ensures CalculateConfidence(sqrt, RemoveOutliers(Intervals(taps)), 1250.0) == 0.0
  {
    LateTapSurvivors(taps);
    var s := RemoveOutliers(Intervals(taps));
    MeanOfFour(s);
    LateTapNoConfidence(sqrt, s);
  }

  /** The estimate assembled from its parts: the survivors, their mean and
      the confidence computed from them. */
  lemma EstimateFromParts(sqrt: real -> real, taps: seq<int>, filtered: seq<real>, avg: real,
                          confidence: real)
    requires IsSqrt(sqrt) && StrictlyIncreasing(taps) && |taps| >= MIN_TAPS
    requires filtered == RemoveOutliers(Intervals(taps)) && filtered != [] && avg == Mean(filtered)
    requires avg > 0.0 && confidence == CalculateConfidence(sqrt, filtered, avg)
    ensures TapEstimate(sqrt, taps) == TapResult(RoundTo1(60000.0 / avg), |taps|, Round(confidence) as real)
  {
    TapEstimateFromSurvivors(sqrt, taps, avg);
  }

  lemma LateTapTempo()
    ensures RoundTo1(60000.0 / 1250.0) == 48.0
  {
    assert 60000.0 / 1250.0 == 48 as real;
    RoundTo1OfInteger(48);
  }

  lemma LateTapIntervals(taps: seq<int>)
    requires |taps| == 5
    requires taps[0] == 0 && taps[1] == 500 && taps[2] == 1000 && taps[3] == 1500 && taps[4] == 5000
    ensures StrictlyIncreasing(taps)
    ensures Intervals(taps) == [500.0, 500.0, 500.0, 3500.0]
  {
    var s := Intervals(taps);
    assert |s| == 4;
    assert s[0] == (taps[1] - taps[0]) as real;
    assert s[1] == (taps[2] - taps[1]) as real;
    assert s[2] == (taps[3] - taps[2]) as real;
    assert s[3] == (taps[4] - taps[3]) as real;
  }

  lemma LateTapSurvives(s: seq<real>)
    requires s == [500.0, 500.0, 500.0, 3500.0]
    ensures RemoveOutliers(s) == s
  {
    SortFour(s);
    assert |s| / 4 == 1 && (3 * |s|) / 4 == 3;
    assert Quartile1(s) == s[1] == 500.0;
    assert Quartile3(s) == s[3] == 3500.0;
    assert LowerFence(s) == -4000.0 && UpperFence(s) == 8000.0;
    KeepWithinAll(s, -4000.0, 8000.0);
  }

  lemma LateTapNoConfidence(sqrt: real -> real, s: seq<real>)
    requires IsSqrt(sqrt) && s == [500.0, 500.0, 500.0, 3500.0]
    ensures CalculateConfidence(sqrt, s, 1250.0) == 0.0
  {
    var variance := SquaredDeviations(s, 1250.0) / |s| as real;
    SpreadOfFour(s);
    SqrtBelow(sqrt, variance, 250.0);
    IrregularIntervalsNoConfidence(sqrt, s, 1250.0);
  }

  lemma SortFour(s: seq<real>)
    requires s == [500.0, 500.0, 500.0, 3500.0]
    ensures Sort(s) == s
  {
    assert Sorted(s);
    SortOfSorted(s);
  }

  lemma MeanOfFour(s: seq<real>)
    requires s == [500.0, 500.0, 500.0, 3500.0]
    ensures Mean(s) == 1250.0
  {
    var a, b, c := [500.0], [500.0, 500.0], [500.0, 500.0, 500.0];
    assert a[..0] == [] && b[..1] == a && c[..2] == b && s[..3] == c;
    assert Sum(a) == 500.0;
    assert Sum(b) == 1000.0;
    assert Sum(c) == 1500.0;
    assert Sum(s) == 5000.0;
  }

  lemma SpreadOfFour(s: seq<real>)
    requires s == [500.0, 500.0, 500.0, 3500.0]
    ensures SquaredDeviations(s, 1250.0) / 4.0 == 1687500.0
  {
    var a, b, c := [500.0], [500.0, 500.0], [500.0, 500.0, 500.0];
    assert a[..0] == [] && b[..1] == a && c[..2] == b && s[..3] == c;
    assert SquaredDeviations(a, 1250.0) == 562500.0;
    assert SquaredDeviations(b, 1250.0) == 1125000.0;
    assert SquaredDeviations(c, 1250.0) == 1687500.0;
    assert SquaredDeviations(s, 1250.0) == 6750000.0;
  }

  // ---------------------------------------------------------------------------
  // The tap-tempo object

  class TapTempo {
    /** The square root the estimator computes with (`Math.sqrt`). */
    const sqrt: real -> real
    /** Tap timestamps in ms, oldest first. */
    var tapTimes: seq<int>
    /** Whether an automatic-reset timer is pending (`timeoutId` set). */
    var timerArmed: bool

    ghost predicate Valid()
      reads this
    {
      IsSqrt(sqrt) && |tapTimes| <= MAX_TAPS && StrictlyIncreasing(tapTimes)
    }

    constructor (sqrt: real -> real)
      requires IsSqrt(sqrt)
      ensures Valid() && this.sqrt == sqrt
      ensures tapTimes == [] && !timerArmed
    {
      this.sqrt := sqrt;
      tapTimes := [];
      timerArmed := false;
    }

    /** Register a tap at time `now` (ms); a result once at least 4 taps are held. */
    method Tap(now: int) returns (r: Option<TapResult>)
      requires Valid()
      requires tapTimes == [] || now > tapTimes[|tapTimes| - 1]
      modifies this`tapTimes, this`timerArmed
      ensures Valid() && timerArmed
      ensures tapTimes == Record(old(tapTimes), now)
      ensures r.None? <==> |tapTimes| < MIN_TAPS
      ensures r.Some? ==> r.value == TapEstimate(sqrt, tapTimes) && r.value.taps == |tapTimes|
    {
      ghost var taps0 := tapTimes;
      RecordTap(now);
      RecordSpec(taps0, now);
      if |tapTimes| >= MIN_TAPS {
        var result := CalculateBPM();
        return Some(result);
      }
      return None;
    }

    /** The bookkeeping part of a tap: cancel the pending timer, start over
        after a pause, append the tap, drop the oldest beyond 16 and arm
        the timer again. */
    method RecordTap(now: int)
      modifies this`tapTimes, this`timerArmed
      ensures tapTimes == Record(old(tapTimes), now) && timerArmed
    {
      ghost var taps0 := tapTimes;
      ghost var kept := if taps0 != [] && now - taps0[|taps0| - 1] > TIMEOUT_MS then [] else taps0;
      if timerArmed {
        timerArmed := false;
      }
      if |tapTimes| > 0 && now - tapTimes[|tapTimes| - 1] > TIMEOUT_MS {
        Reset();
      }
      assert tapTimes == kept;
      tapTimes := tapTimes + [now];
      if |tapTimes| > MAX_TAPS {
        tapTimes := tapTimes[1..];
      }
      timerArmed := true;
    }

    /** Tempo, tap count and confidence of the held taps. */
    method CalculateBPM() returns (r: TapResult)
      requires Valid()
      ensures r == TapEstimate(sqrt, tapTimes)
    {
      if |tapTimes| < MIN_TAPS {
        return TapResult(0.0, |tapTimes|, 0.0);
      }
      var intervals := CollectIntervals(tapTimes);
      var filteredIntervals := RemoveOutliers(intervals);
      assert filteredIntervals == RemoveOutliers(Intervals(tapTimes));
      if |filteredIntervals| == 0 {
        return TapResult(0.0, |tapTimes|, 0.0);
      }
      SurvivorsPositive(tapTimes);
      MeanOfPositives(filteredIntervals);
      var avgInterval := Sum(filteredIntervals) / |filteredIntervals| as real;
      var bpm := 60000.0 / avgInterval;
      var confidence := CalculateConfidence(sqrt, filteredIntervals, avgInterval);
      r := TapResult(RoundTo1(bpm), |tapTimes|, Round(confidence) as real);
      TapEstimateFromSurvivors(sqrt, tapTimes, avgInterval);
    }

    /** The gaps between consecutive held taps, gathered in a loop. */
    static method CollectIntervals(taps: seq<int>) returns (intervals: seq<real>)
      requires taps != []
      ensures intervals == Intervals(taps)
    {
      intervals := [];
      var i := 1;
      while i < |taps|
        invariant 1 <= i <= |taps|
        invariant intervals == Intervals(taps[..i])
      {
        IntervalsStep(taps, i);
        intervals := intervals + [(taps[i] - taps[i - 1]) as real];
        i := i + 1;
      }
      assert taps[..|taps|] == taps;
    }

    /** Number of taps recorded. */
    function GetTapCount(): (n: nat)
      reads this
      ensures n == |tapTimes|
    {
      |tapTimes|
    }

    /** Forget all taps and cancel the pending timer. */
    method Reset()
      modifies this`tapTimes, this`timerArmed
      ensures tapTimes == [] && !timerArmed
      ensures GetTapCount() == 0
    {
      tapTimes := [];
      if timerArmed {
        timerArmed := false;
      }
    }

    /** The automatic-reset timer firing 3000 ms after the last tap. */
    method Timeout()
      requires timerArmed
      modifies this`tapTimes, this`timerArmed
      ensures tapTimes == [] && !timerArmed
      ensures GetTapCount() == 0
    {
      Reset();
    }
  }
}
