/*
  The server-side tempo detector: audio chunks are queued up to a budget of
  samples, and once three seconds are available the tempo candidates of the
  signal analysis are range-filtered, weight-combined, smoothed by the
  median of a short history and checked for stability.

  The signal analysis itself (onset envelope, beat tracking, tempogram,
  autocorrelation and peak picking) is a library call: it enters the model
  as the parameter `analyze`, and only what the detector does with its
  outputs is modelled.
*/
module Backend {
  import opened Wrappers
  import opened Stats

  const DEFAULT_SAMPLE_RATE: nat := 44100
  const MAX_HISTORY_SECONDS: nat := 10
  const MIN_BPM: real := 40.0
  const MAX_BPM: real := 200.0
  /** Seconds of audio needed before any detection is attempted. */
  const MIN_SECONDS: nat := 3
  const HOP_LENGTH: nat := 512
  const ONSET_WEIGHT: real := 0.4
  const TEMPOGRAM_WEIGHT: real := 0.3
  const AUTOCORR_WEIGHT: real := 0.3
  /** Confidence reported when no candidate lies in the tempo range. */
  const FALLBACK_CONFIDENCE: real := 30.0
  const HISTORY_CAP: nat := 10
  /** History length from which the median is reported. */
  const MEDIAN_FROM: nat := 3
  /** History length from which stability is judged, over that many entries. */
  const STABLE_WINDOW: nat := 5
  const STABLE_SPREAD: real := 2.0
  /** What a non-finite tempo is reported as. */
  const DEFAULT_TEMPO: real := 120.0

  // ---------------------------------------------------------------------------
  // The chunk queue
  // ---------------------------------------------------------------------------

  function TotalLength(chunks: seq<seq<real>>): nat
  {
    if chunks == [] then 0 else |chunks[0]| + TotalLength(chunks[1..])
  }

  /** All queued chunks, oldest first, as one signal. */
  function Concat(chunks: seq<seq<real>>): (r: seq<real>)
  {
    if chunks == [] then [] else chunks[0] + Concat(chunks[1..])
  }

  lemma {:induction false} ConcatLength(chunks: seq<seq<real>>)
    ensures |Concat(chunks)| == TotalLength(chunks)
  {
    if chunks != [] {
      ConcatLength(chunks[1..]);
    }
  }

  /** Drops the oldest chunks while the queue is over budget and more than
      one chunk is left. */
  function Trim(chunks: seq<seq<real>>, budget: nat): seq<seq<real>>
  {
    if TotalLength(chunks) > budget && |chunks| > 1 then Trim(chunks[1..], budget) else chunks
  }

  /** Trimming keeps a non-empty suffix of the queue (the newest chunk
      survives, the oldest go first), ends within budget unless a single
      chunk is left, and drops a chunk only while the queue holding it was
      over budget. */
  lemma {:induction false} TrimSpec(chunks: seq<seq<real>>, budget: nat)
    requires chunks != []
    ensures var r := Trim(chunks, budget);
      && 0 < |r| <= |chunks|
      && r == chunks[|chunks| - |r|..]
      && (TotalLength(r) <= budget || |r| == 1)
      && forall d :: 0 <= d < |chunks| - |r| ==> TotalLength(chunks[d..]) > budget
  {
    if TotalLength(chunks) > budget && |chunks| > 1 {
      var tail := chunks[1..];
      TrimSpec(tail, budget);
      var r := Trim(tail, budget);
      assert chunks[|chunks| - |r|..] == tail[|tail| - |r|..];
      forall d | 0 <= d < |chunks| - |r|
        ensures TotalLength(chunks[d..]) > budget
      {
        if d > 0 {
          assert chunks[d..] == tail[d - 1..];
        }
      }
    }
  }

  /** After a chunk is queued and the queue trimmed, the queue is never
      empty and ends with that chunk, so the signal handed to the analysis
      always contains the newest audio. */
  lemma QueueKeepsNewest(queue: seq<seq<real>>, audio: seq<real>, budget: nat)
    ensures var r := Trim(queue + [audio], budget);
      r != [] && r[|r| - 1] == audio
  {
    TrimSpec(queue + [audio], budget);
  }

  /** The audio handed to the analysis after a chunk is queued stays within
      the sample budget, unless the newest chunk alone exceeds it. */
  lemma AnalysedAudioWithinBudget(queue: seq<seq<real>>, audio: seq<real>, budget: nat)
    ensures var r := Trim(queue + [audio], budget);
      |Concat(r)| <= budget || r == [audio]
  {
    var r := Trim(queue + [audio], budget);
    TrimSpec(queue + [audio], budget);
    QueueKeepsNewest(queue, audio, budget);
    ConcatLength(r);
    if |r| == 1 {
      assert r == [audio];
    }
  }

  // ---------------------------------------------------------------------------
  // Analysis outputs and their combination
  // ---------------------------------------------------------------------------

  /** A floating-point value as the analysis library may return it. */
  datatype Float = Finite(value: real) | PosInf | NegInf | NaN

  /** Replaces a non-finite value by a default. */
  function Sanitize(v: Float, default: real): (r: real)
    ensures v.Finite? ==> r == v.value
    ensures !v.Finite? ==> r == default
  {
    if v.Finite? then v.value else default
  }

  /** `lo <= v <= hi` on a float: false for infinities and NaN. */
  predicate InRange(v: Float, lo: real, hi: real)
  {
    v.Finite? && lo <= v.value <= hi
  }

  /** A peak index of the autocorrelation; a peak always has a left
      neighbour, so it is never 0. */
  type PeakIndex = p: nat | p > 0 witness 1

  /** The outputs of the signal analysis: the beat tracker's tempo, the
      tempogram's dominant tempo (infinite for the zero-lag bin) and the
      strongest autocorrelation peak, if any; or the message of the
      exception it raised. */
  datatype Analysis =
    | Tempos(onset: real, tempogram: Float, peak: Option<PeakIndex>)
    | AnalysisError(message: string)

  /** The autocorrelation tempo: 60 s over the peak's lag, or the onset tempo
      when no peak was found. */
  function AutocorrTempo(onset: real, peak: Option<PeakIndex>, sr: nat): real
  {
    match peak
    case None => onset
    case Some(p) => (60 * sr) as real / (p * HOP_LENGTH) as real
  }

  /** Parallel lists of the tempos that take part and their weights. */
  datatype Candidates = Candidates(tempos: seq<real>, weights: seq<real>)

  /** Adds a tempo with its weight when it lies in range. */
  function Admit(c: Candidates, v: Float, w: real, lo: real, hi: real): Candidates
  {
    if InRange(v, lo, hi) then Candidates(c.tempos + [v.value], c.weights + [w]) else c
  }

  /** Only in-range tempos take part, each with a positive weight. */
  function Qualifying(onset: real, tempogram: Float, autocorr: real, lo: real, hi: real): (r: Candidates)
    ensures |r.tempos| == |r.weights| && AllPositive(r.weights)
    ensures forall i :: 0 <= i < |r.tempos| ==> lo <= r.tempos[i] <= hi
  {
    var c := Admit(Candidates([], []), Finite(onset), ONSET_WEIGHT, lo, hi);
    var c := Admit(c, tempogram, TEMPOGRAM_WEIGHT, lo, hi);
    Admit(c, Finite(autocorr), AUTOCORR_WEIGHT, lo, hi)
  }

  /** The candidate list is empty exactly when no tempo is in range, and
      each in-range tempo takes part. */
  lemma QualifyingSpec(onset: real, tempogram: Float, autocorr: real, lo: real, hi: real)
    ensures var c := Qualifying(onset, tempogram, autocorr, lo, hi);
      && (InRange(Finite(onset), lo, hi) ==> onset in c.tempos)
      && (InRange(tempogram, lo, hi) ==> tempogram.value in c.tempos)
      && (InRange(Finite(autocorr), lo, hi) ==> autocorr in c.tempos)
      && (c.tempos == [] <==>
            !InRange(Finite(onset), lo, hi) && !InRange(tempogram, lo, hi)
            && !InRange(Finite(autocorr), lo, hi))
  {
  }

  function WeightedSum(t: seq<real>, w: seq<real>): real
    requires |t| == |w|
    decreases |t|
  {
    if t == [] then 0.0 else WeightedSum(t[..|t| - 1], w[..|w| - 1]) + t[|t| - 1] * w[|w| - 1]
  }

  /** `numpy.average` with weights. */
  function WeightedAverage(t: seq<real>, w: seq<real>): real
    requires |t| == |w| && AllPositive(w) && w != []
  {
    SumOfPositives(w);
    WeightedSum(t, w) / Sum(w)
  }

  lemma {:induction false} WeightedSumWithin(t: seq<real>, w: seq<real>, lo: real, hi: real)
    requires |t| == |w| && AllPositive(w)
    requires forall i :: 0 <= i < |t| ==> lo <= t[i] <= hi
    ensures lo * Sum(w) <= WeightedSum(t, w) <= hi * Sum(w)
    decreases |t|
  {
    if t != [] {
      var n := |t| - 1;
      WeightedSumWithin(t[..n], w[..n], lo, hi);
      MultiplyMonotone(w[n], lo, t[n]);
      MultiplyMonotone(w[n], t[n], hi);
      assert Sum(w) == Sum(w[..n]) + w[n];
    }
  }

  /** A weighted average with positive weights lies within the range of
      the averaged values. */
  lemma WeightedAverageWithin(t: seq<real>, w: seq<real>, lo: real, hi: real)
    requires |t| == |w| && AllPositive(w) && w != []
    requires forall i :: 0 <= i < |t| ==> lo <= t[i] <= hi
    ensures lo <= WeightedAverage(t, w) <= hi
  {
    SumOfPositives(w);
    WeightedSumWithin(t, w, lo, hi);
    QuotientWithin(WeightedSum(t, w), Sum(w), lo, hi);
  }

  /** A combined tempo and the methods' agreement on it. */
  datatype Combined = Combined(bpm: real, confidence: real)

  /** Confidence from the spread of the candidates: 100 less three times
      their standard deviation, clamped to [0, 100]. */
  function Agreement(sqrt: real -> real, tempos: seq<real>): real
    requires tempos != []
  {
    Max(0.0, Min(100.0, 100.0 - StdDev(sqrt, tempos) * 3.0))
  }

  /** Weighted mean of the in-range candidates, or the onset tempo at
      confidence 30 when none is in range. */
  function Combine(sqrt: real -> real, c: Candidates, onset: real): Combined
    requires |c.tempos| == |c.weights| && AllPositive(c.weights)
  {
    if c.tempos == [] then Combined(onset, FALLBACK_CONFIDENCE)
    else Combined(WeightedAverage(c.tempos, c.weights), Agreement(sqrt, c.tempos))
  }

  /** The combined tempo lies in range whenever some candidate does, and is
      the onset tempo otherwise; the confidence is a percentage. */
  lemma CombineSpec(sqrt: real -> real, onset: real, tempogram: Float, autocorr: real, lo: real, hi: real)
    ensures var c := Qualifying(onset, tempogram, autocorr, lo, hi);
      var r := Combine(sqrt, c, onset);
      && 0.0 <= r.confidence <= 100.0
      && (c.tempos == [] ==> r == Combined(onset, FALLBACK_CONFIDENCE))
      && (c.tempos != [] ==> lo <= r.bpm <= hi)
  {
    var c := Qualifying(onset, tempogram, autocorr, lo, hi);
    QualifyingSpec(onset, tempogram, autocorr, lo, hi);
    if c.tempos != [] {
      WeightedAverageWithin(c.tempos, c.weights, lo, hi);
    }
  }

  lemma {:induction false} WeightedSumOfConstant(t: seq<real>, w: seq<real>, x: real)
    requires |t| == |w| && AllEqual(t, x)
    ensures WeightedSum(t, w) == x * Sum(w)
    decreases |t|
  {
    if t != [] {
      var n := |t| - 1;
      WeightedSumOfConstant(t[..n], w[..n], x);
    }
  }

  /** When all three methods agree on an in-range tempo, that tempo is
      reported at full confidence. */
  lemma AgreeingMethods(sqrt: real -> real, x: real, lo: real, hi: real)
    requires IsSqrt(sqrt) && lo <= x <= hi
    ensures Combine(sqrt, Qualifying(x, Finite(x), x, lo, hi), x) == Combined(x, 100.0)
  {
    var c := Qualifying(x, Finite(x), x, lo, hi);
    assert c == Candidates([x, x, x], [ONSET_WEIGHT, TEMPOGRAM_WEIGHT, AUTOCORR_WEIGHT]);
    WeightedAverageOfConstant(c.tempos, c.weights, x);
    ConstantHasNoSpread(sqrt, c.tempos, x);
  }

  /** Averaging equal values gives that value, whatever the weights. */
  lemma WeightedAverageOfConstant(t: seq<real>, w: seq<real>, x: real)
    requires |t| == |w| && AllPositive(w) && w != [] && AllEqual(t, x)
    ensures WeightedAverage(t, w) == x
  {
    WeightedSumOfConstant(t, w, x);
    SumOfPositives(w);
    QuotientWithin(WeightedSum(t, w), Sum(w), x, x);
  }

  // ---------------------------------------------------------------------------
  // Smoothing and stability
  // ---------------------------------------------------------------------------

  /** The reported tempo: the median of the history once it holds three
      entries, the combined tempo before that. */
  function Reported(history: seq<real>, combined: real): real
  {
    if |history| >= MEDIAN_FROM then Median(history) else combined
  }

  /** Stable: at least five entries, and the last five spread by less than
      2 BPM. */
  predicate IsStable(sqrt: real -> real, history: seq<real>)
  {
    |history| >= STABLE_WINDOW && StdDev(sqrt, Recent(history, STABLE_WINDOW)) < STABLE_SPREAD
  }

  /** Five identical recent tempos make the detection stable. */
  lemma SteadyHistoryIsStable(sqrt: real -> real, history: seq<real>, x: real)
    requires IsSqrt(sqrt) && |history| >= STABLE_WINDOW
    requires AllEqual(Recent(history, STABLE_WINDOW), x)
    ensures IsStable(sqrt, history)
  {
    ConstantHasNoSpread(sqrt, Recent(history, STABLE_WINDOW), x);
  }

  /** A history of identical tempos reports that tempo once the median is
      in use. */
  lemma SteadyHistoryReportsItsTempo(history: seq<real>, combined: real, x: real)
    requires |history| >= MEDIAN_FROM && AllEqual(history, x)
    ensures Reported(history, combined) == x
  {
    MedianWithinEntries(history);
  }

  // ---------------------------------------------------------------------------
  // The detector
  // ---------------------------------------------------------------------------

  datatype Methods = Methods(onset: real, tempogram: real, autocorr: real)

  datatype Status =
    | Detected(methods: Methods, audioDuration: real)
    | Collecting
    | Failed(error: string)

  datatype Detection = Detection(bpm: real, confidence: real, stable: bool, status: Status)

  /** The result while no detection is made: the last tempo (0 if none) at
      confidence 0, not stable. */
  function Idle(lastBpm: Option<real>, status: Status): (r: Detection)
    ensures r.confidence == 0.0 && !r.stable
  {
    Detection(lastBpm.GetOr(0.0), 0.0, false, status)
  }

  class BPMDetector {
    const sqrt: real -> real
    var sampleRate: nat
    /** Queued audio chunks, oldest first. */
    var history: seq<seq<real>>
    var maxHistorySeconds: nat
    var lastBpm: Option<real>
    /** Recent combined tempos, oldest first. */
    var bpmHistory: seq<real>
    var minBpm: real
    var maxBpm: real

    ghost predicate Valid()
      reads this
    {
      IsSqrt(sqrt) && |bpmHistory| <= HISTORY_CAP
    }

    constructor(sqrt: real -> real)
      requires IsSqrt(sqrt)
      ensures Valid() && this.sqrt == sqrt
      ensures sampleRate == DEFAULT_SAMPLE_RATE && history == []
      ensures maxHistorySeconds == MAX_HISTORY_SECONDS && lastBpm == None && bpmHistory == []
      ensures minBpm == MIN_BPM && maxBpm == MAX_BPM
    {
      this.sqrt := sqrt;
      sampleRate := DEFAULT_SAMPLE_RATE;
      history := [];
      maxHistorySeconds := MAX_HISTORY_SECONDS;
      lastBpm := None;
      bpmHistory := [];
      minBpm := MIN_BPM;
      maxBpm := MAX_BPM;
    }

    /** Queues a chunk, trims the queue to its budget, and once three
        seconds are queued runs the analysis and folds its tempo into the
        history. */
    method ProcessAudioChunk(audio: seq<real>, sr: nat, analyze: (seq<real>, nat) -> Analysis)
      returns (res: Detection)
      requires Valid() && sr > 0
      modifies this`history, this`bpmHistory, this`lastBpm
      ensures Valid()
      ensures history == Trim(old(history) + [audio], maxHistorySeconds * sr)
      ensures |Concat(history)| <= maxHistorySeconds * sr || history == [audio]
      ensures var full := Concat(history);
        |full| < MIN_SECONDS * sr ==>
          res == Idle(old(lastBpm), Collecting)
          && bpmHistory == old(bpmHistory) && lastBpm == old(lastBpm)
      ensures var full := Concat(history);
        |full| >= MIN_SECONDS * sr && analyze(full, sr).AnalysisError? ==>
          res == Idle(old(lastBpm), Failed(analyze(full, sr).message))
          && bpmHistory == old(bpmHistory) && lastBpm == old(lastBpm)
      ensures var full := Concat(history);
        |full| >= MIN_SECONDS * sr && analyze(full, sr).Tempos? ==>
          var a := analyze(full, sr);
          var ac := AutocorrTempo(a.onset, a.peak, sr);
          var combined := Combine(sqrt, Qualifying(a.onset, a.tempogram, ac, minBpm, maxBpm), a.onset);
          && bpmHistory == PushBounded(old(bpmHistory), combined.bpm, HISTORY_CAP)
          && lastBpm == Some(Reported(bpmHistory, combined.bpm))
          && res == Detection(Reported(bpmHistory, combined.bpm), combined.confidence,
                              IsStable(sqrt, bpmHistory),
                              Detected(Methods(a.onset, Sanitize(a.tempogram, DEFAULT_TEMPO), ac),
                                       |full| as real / sr as real))
    {
      ghost var queue0 := history;
      Enqueue(audio, maxHistorySeconds * sr);
      AnalysedAudioWithinBudget(queue0, audio, maxHistorySeconds * sr);
      var fullAudio := Concat(history);
      if |fullAudio| < MIN_SECONDS * sr {
        return Idle(lastBpm, Collecting);
      }
      var analysis := analyze(fullAudio, sr);
      if analysis.AnalysisError? {
        return Idle(lastBpm, Failed(analysis.message));
      }
      var tempoOnset, tempoTempogram := analysis.onset, analysis.tempogram;
      var tempoAc := AutocorrTempo(tempoOnset, analysis.peak, sr);
      var combined := CombineTempos(tempoOnset, tempoTempogram, tempoAc);
      var finalBpm, stable := Smooth(combined.bpm);
      res := Detection(finalBpm, combined.confidence, stable,
        Detected(Methods(tempoOnset, Sanitize(tempoTempogram, DEFAULT_TEMPO), tempoAc),
                 |fullAudio| as real / sr as real));
    }

    /** Appends a chunk and drops the oldest ones while the queue is over
        budget and more than one chunk is left. */
    method Enqueue(audio: seq<real>, maxSamples: nat)
      modifies this`history
      ensures history == Trim(old(history) + [audio], maxSamples)
    {
      history := history + [audio];
      ghost var queued := history;
      var totalSamples := TotalLength(history);
      while totalSamples > maxSamples && |history| > 1
        invariant history != [] && totalSamples == TotalLength(history)
        invariant Trim(history, maxSamples) == Trim(queued, maxSamples)
        decreases |history|
      {
        var removed := history[0];
        history := history[1..];
        totalSamples := totalSamples - |removed|;
      }
    }

    /** Collects the in-range tempos with their weights, in the order onset,
        tempogram, autocorrelation. */
    method CollectCandidates(tempoOnset: real, tempoTempogram: Float, tempoAc: real)
      returns (tempos: seq<real>, weights: seq<real>)
      ensures Candidates(tempos, weights) == Qualifying(tempoOnset, tempoTempogram, tempoAc, minBpm, maxBpm)
    {
      tempos, weights := [], [];
      if minBpm <= tempoOnset <= maxBpm {
        tempos := tempos + [tempoOnset];
        weights := weights + [ONSET_WEIGHT];
      }
      ghost var c := Admit(Candidates([], []), Finite(tempoOnset), ONSET_WEIGHT, minBpm, maxBpm);
      assert Candidates(tempos, weights) == c;
      if tempoTempogram.Finite? && minBpm <= tempoTempogram.value <= maxBpm {
        tempos := tempos + [tempoTempogram.value];
        weights := weights + [TEMPOGRAM_WEIGHT];
      }
      c := Admit(c, tempoTempogram, TEMPOGRAM_WEIGHT, minBpm, maxBpm);
      assert Candidates(tempos, weights) == c;
      if minBpm <= tempoAc <= maxBpm {
        tempos := tempos + [tempoAc];
        weights := weights + [AUTOCORR_WEIGHT];
      }
    }

    /** Combines the in-range tempos: their weighted mean with a confidence
        from their spread, or the onset tempo at confidence 30 when none is
        in range. */
    method CombineTempos(tempoOnset: real, tempoTempogram: Float, tempoAc: real) returns (r: Combined)
      ensures r == Combine(sqrt, Qualifying(tempoOnset, tempoTempogram, tempoAc, minBpm, maxBpm), tempoOnset)
    {
      var tempos, weights := CollectCandidates(tempoOnset, tempoTempogram, tempoAc);
      if |tempos| == 0 {
        r := Combined(tempoOnset, FALLBACK_CONFIDENCE);
      } else {
        var finalBpm := WeightedAverage(tempos, weights);
        var stdDev := StdDev(sqrt, tempos);
        var confidence := Max(0.0, Min(100.0, 100.0 - stdDev * 3.0));
        r := Combined(finalBpm, confidence);
      }
    }

    /** Pushes the combined tempo into the bounded history and reports the
        smoothed tempo and whether it is stable. */
    method Smooth(combined: real) returns (finalBpm: real, stable: bool)
      requires Valid()
      modifies this`bpmHistory, this`lastBpm
      ensures Valid()
      ensures bpmHistory == PushBounded(old(bpmHistory), combined, HISTORY_CAP)
      ensures finalBpm == Reported(bpmHistory, combined) && lastBpm == Some(finalBpm)
      ensures stable == IsStable(sqrt, bpmHistory)
    {
      bpmHistory := bpmHistory + [combined];
      if |bpmHistory| > HISTORY_CAP {
        bpmHistory := bpmHistory[1..];
      }
      finalBpm := combined;
      if |bpmHistory| >= MEDIAN_FROM {
        finalBpm := Median(bpmHistory);
      }
      stable := false;
      if |bpmHistory| >= STABLE_WINDOW {
        var recentStd := StdDev(sqrt, Recent(bpmHistory, STABLE_WINDOW));
        stable := recentStd < STABLE_SPREAD;
      }
      lastBpm := Some(finalBpm);
    }

    /** Clears the audio queue and the tempo history; the tempo range and
        the queue budget stay. */
    method Reset()
      modifies this`history, this`lastBpm, this`bpmHistory
      ensures history == [] && lastBpm == None && bpmHistory == []
      ensures minBpm == old(minBpm) && maxBpm == old(maxBpm)
      ensures maxHistorySeconds == old(maxHistorySeconds)
    {
      history := [];
      lastBpm := None;
      bpmHistory := [];
    }
  }
}
