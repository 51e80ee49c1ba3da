/** The stateful half of the client-side tempo estimator
    (lib/audio/bpm-estimator.ts): the `BPMEstimator` object, whose methods
    update its fields frame by frame and are proved against the functions of
    module EstimatorSpec. */
module Estimator {
  import opened Wrappers
  import opened Stats
  import opened EstimatorSpec

  /** Samples the onset history must exceed before an estimate is made. */
  const ESTIMATE_MIN_HISTORY: nat := 50
  /** An estimate is attempted on every 8th frame. */
  const ESTIMATE_EVERY: nat := 8

  class BPMEstimator {
    /** The square root the estimator computes with (`Math.sqrt`). */
    const sqrt: real -> real
    /** High-pass coefficient, fixed from the sample rate at construction. */
    const hpAlpha: real
    var config: Config
    var onsetHistory: seq<real>
    /** Energy of the previous frame (`previousSpectrum[0]`), None before the first frame. */
    var previousEnergy: Option<real>
    var currentBPM: real
    var bpmHistory: seq<real>
    var frameCount: nat
    var smoothingAlpha: real
    var hpState: real

    ghost predicate Valid()
      reads this
    {
      && IsSqrt(sqrt)
      && ConfigOk(config)
      && 0.0 < hpAlpha < 1.0
      && smoothingAlpha == SmoothingAlpha(config.smoothing)
      && |bpmHistory| <= BPM_HISTORY_CAP
    }

    /** The tempo-tracking part of the state. */
    function TrackState(): Track
      reads this
    {
      Track(currentBPM, bpmHistory)
    }

    constructor (config: Config, sqrt: real -> real)
      requires ConfigOk(config) && IsSqrt(sqrt)
      ensures Valid()
      ensures this.config == config && this.sqrt == sqrt
      ensures hpAlpha == HpAlpha(config.sampleRate)
      ensures onsetHistory == [] && previousEnergy == None && bpmHistory == []
      ensures currentBPM == INITIAL_BPM && frameCount == 0 && hpState == 0.0
    {
      this.config := config;
      this.sqrt := sqrt;
      onsetHistory := [];
      previousEnergy := None;
      currentBPM := INITIAL_BPM;
      bpmHistory := [];
      frameCount := 0;
      smoothingAlpha := SmoothingAlpha(config.smoothing);
      hpState := 0.0;
      hpAlpha := HpAlpha(config.sampleRate);
    }

    /** Feed one audio frame: filter it, push its onset strength into the
        bounded history, and on every 8th frame with more than 50 onset
        samples run an estimate; otherwise report the current tempo and the
        stability without touching the tempo track. */
    method ProcessFrame(audioData: array<real>) returns (res: BPMResult)
      requires Valid() && audioData.Length > 0
      modifies this`frameCount, this`hpState, this`previousEnergy, this`onsetHistory
      modifies this`currentBPM, this`bpmHistory
      ensures Valid()
      ensures config == old(config)
      ensures frameCount == old(frameCount) + 1
      ensures hpState == FilterState(hpAlpha, old(hpState), audioData[..])
      ensures var energy := Rms(sqrt, HighPass(hpAlpha, old(hpState), audioData[..]));
        && previousEnergy == Some(energy)
        && onsetHistory == PushBounded(old(onsetHistory), OnsetStrength(old(previousEnergy), energy),
                                       MaxHistory(config.sampleRate))
      ensures |old(onsetHistory)| <= MaxHistory(config.sampleRate) ==>
        |onsetHistory| <= MaxHistory(config.sampleRate)
      ensures frameCount % ESTIMATE_EVERY == 0 && |onsetHistory| > ESTIMATE_MIN_HISTORY ==>
        var ac := OnsetTempo(sqrt, config, onsetHistory);
        && TrackState() == TrackUpdate(config, smoothingAlpha, old(TrackState()), ac)
        && res == EstimateResult(sqrt, config, TrackState(), ac.confidence)
      ensures !(frameCount % ESTIMATE_EVERY == 0 && |onsetHistory| > ESTIMATE_MIN_HISTORY) ==>
        && TrackState() == old(TrackState())
        && res == PassiveResult(sqrt, old(TrackState()))
    {
      ghost var history0, track0 := onsetHistory, TrackState();
      frameCount := frameCount + 1;
      var filtered := HighPassFilter(audioData);
      var onsetStrength := ComputeSpectralFlux(filtered);
      assert TrackState() == track0;
      onsetHistory := onsetHistory + [onsetStrength];
      var maxHistory := MaxHistory(config.sampleRate);
      if |onsetHistory| > maxHistory {
        onsetHistory := onsetHistory[1..];
      }
      assert onsetHistory == PushBounded(history0, onsetStrength, maxHistory);
      PushBoundedKeepsOrder(history0, onsetStrength, maxHistory);
      if frameCount % ESTIMATE_EVERY == 0 && |onsetHistory| > ESTIMATE_MIN_HISTORY {
        res := EstimateBPM();
        return;
      }
      res := BPMResult(currentBPM, Stability(sqrt, bpmHistory),
        |bpmHistory| > 5 && Stability(sqrt, bpmHistory) > 60.0, None);
    }

    /** Filter a frame into a new buffer, carrying `hpState` across samples
        and leaving it at the last output. */
    method HighPassFilter(data: array<real>) returns (filtered: array<real>)
      modifies this`hpState
      ensures fresh(filtered)
      ensures filtered[..] == HighPass(hpAlpha, old(hpState), data[..])
      ensures hpState == FilterState(hpAlpha, old(hpState), data[..])
    {
      filtered := new real[data.Length];
      ghost var state0, input := hpState, data[..];
      var i := 0;
      while i < data.Length
        invariant 0 <= i <= data.Length
        invariant filtered[..i] == HighPass(hpAlpha, state0, input[..i])
        invariant i == 0 ==> hpState == state0
        invariant i > 0 ==> hpState == filtered[i - 1]
      {
        ghost var y := filtered[..i];
        HighPassStep(hpAlpha, state0, input, i);
        var v := hpAlpha * (hpState + data[i] - (if i > 0 then data[i - 1] else 0.0));
        assert v == FilterSample(hpAlpha, hpState, input[i], if i == 0 then 0.0 else input[i - 1]);
        filtered[i] := v;
        assert filtered[..i + 1] == y + [v];
        hpState := v;
        i := i + 1;
      }
      assert input[..data.Length] == input;
      assert filtered[..data.Length] == filtered[..];
    }

    /** The onset strength of a filtered frame: the rise of its RMS energy over
        the previous frame's, which it then records. */
    method ComputeSpectralFlux(data: array<real>) returns (flux: real)
      requires IsSqrt(sqrt) && data.Length > 0
      modifies this`previousEnergy
      ensures previousEnergy == Some(Rms(sqrt, data[..]))
      ensures flux == OnsetStrength(old(previousEnergy), Rms(sqrt, data[..]))
    {
      var energy := 0.0;
      var i := 0;
      while i < data.Length
        invariant 0 <= i <= data.Length
        invariant energy == SquaredDeviations(data[..i], 0.0)
      {
        energy := energy + data[i] * data[i];
        assert data[..i + 1][..i] == data[..i];
        i := i + 1;
      }
      assert data[..data.Length] == data[..];
      energy := sqrt(energy / data.Length as real);
      flux := 0.0;
      if previousEnergy.Some? {
        var prevEnergy := previousEnergy.value;
        flux := Max(0.0, energy - prevEnergy);
      }
      previousEnergy := Some(energy);
    }

    /** One estimation cycle: normalise the onset history, find the tempo by
        autocorrelation and fold it into the tempo track. With fewer than 50
        onset samples nothing changes and the confidence is 0. */
    method EstimateBPM() returns (res: BPMResult)
      requires Valid()
      modifies this`currentBPM, this`bpmHistory
      ensures Valid()
      ensures |onsetHistory| < ESTIMATE_MIN_HISTORY ==>
        TrackState() == old(TrackState()) && res == BPMResult(currentBPM, 0.0, false, None)
      ensures |onsetHistory| >= ESTIMATE_MIN_HISTORY ==>
        var ac := OnsetTempo(sqrt, config, onsetHistory);
        && TrackState() == TrackUpdate(config, smoothingAlpha, old(TrackState()), ac)
        && res == EstimateResult(sqrt, config, TrackState(), ac.confidence)
    {
      if |onsetHistory| < ESTIMATE_MIN_HISTORY {
        return BPMResult(currentBPM, 0.0, false, None);
      }
      var normalized := Normalize(sqrt, onsetHistory);
      var ac := Autocorrelation(normalized);
      if ac.confidence > MIN_CONFIDENCE {
        Commit(ac);
      }
      res := BPMResult(RoundTo1(currentBPM), Round(ac.confidence) as real,
        Stability(sqrt, bpmHistory) > 60.0,
        if config.preferHalfDouble then SuggestedMultiplier(bpmHistory, config.minBPM, config.maxBPM) else None);
    }

    /** The accepted-estimate branch of an estimation cycle: correct, smooth,
        apply the hysteresis gate and record the smoothed value. */
    method Commit(ac: AcResult)
      requires Valid() && ac.confidence > MIN_CONFIDENCE
      modifies this`currentBPM, this`bpmHistory
      ensures Valid()
      ensures TrackState() == TrackUpdate(config, smoothingAlpha, old(TrackState()), ac)
    {
      ghost var track0 := TrackState();
      ghost var candidate := Candidate(config, smoothingAlpha, track0, ac);
      var finalBPM := ac.bpm;
      if config.preferHalfDouble {
        var correction := CheckHalfDouble(ac.bpm, ac.secondBestBPM, config.minBPM, config.maxBPM);
        finalBPM := correction.bpm;
      }
      ghost var corrected := finalBPM;
      if |bpmHistory| > 0 {
        finalBPM := smoothingAlpha * finalBPM + (1.0 - smoothingAlpha) * currentBPM;
        assert finalBPM == Ema(smoothingAlpha, corrected, currentBPM);
      }
      assert finalBPM == candidate;
      var bpmDiff := Abs(finalBPM - currentBPM);
      if bpmDiff > 2.0 || ac.confidence > 70.0 {
        currentBPM := finalBPM;
      }
      bpmHistory := bpmHistory + [finalBPM];
      if |bpmHistory| > BPM_HISTORY_CAP {
        bpmHistory := bpmHistory[1..];
      }
      PushBoundedKeepsOrder(track0.bpmHistory, candidate, BPM_HISTORY_CAP);
    }

    /** Scan the lags of the tempo range in increasing order, keeping the best
        and the runner-up score, and turn them into a tempo, a confidence and
        the runner-up's tempo. */
    method Autocorrelation(signal: seq<real>) returns (r: AcResult)
      requires Valid()
      ensures r == AutocorrelationOf(config, signal)
      ensures 0.0 <= r.confidence <= 100.0
    {
      var minLag: nat := MinLag(config);
      var maxLag := MaxLag(config);
      var bestLag: nat, bestScore := minLag, NegInfinity;
      var secondBestScore, secondBestLag: nat := NegInfinity, minLag;
      var lag := minLag;
      while lag < maxLag && 2 * lag < |signal|
        invariant minLag <= lag <= ScanEnd(minLag, maxLag, |signal|)
        invariant LagScan(bestLag, bestScore, secondBestLag, secondBestScore) == ScanLags(signal, minLag, lag)
      {
        var sum := 0.0;
        var count := 0;
        var i := 0;
        while i < |signal| - lag
          invariant 0 <= i <= |signal| - lag
          invariant sum == LagSum(signal, lag, i) && count == i
        {
          sum := sum + signal[i] * signal[i + lag];
          count := count + 1;
          i := i + 1;
        }
        var score := if count > 0 then sum / count as real else 0.0;
        if Exceeds(score, bestScore) {
          secondBestScore := bestScore;
          secondBestLag := bestLag;
          bestScore := Finite(score);
          bestLag := lag;
        } else if Exceeds(score, secondBestScore) {
          secondBestScore := Finite(score);
          secondBestLag := lag;
        }
        lag := lag + 1;
      }
      if minLag < lag {
        ScanLagsFindsMaximum(signal, minLag, lag);
      }
      var bpm := LagToBPM(config, bestLag);
      var secondBestBPM := LagToBPM(config, secondBestLag);
      var confidence := PeakConfidence(bestScore, secondBestScore);
      r := AcResult(bpm, confidence, secondBestBPM);
    }

    /** Merge a partial configuration; the smoothing factor follows a new
        smoothing level. The high-pass coefficient keeps its construction-time
        value even when the sample rate changes. */
    method UpdateConfig(update: ConfigUpdate)
      requires Valid() && ConfigOk(Merge(config, update))
      modifies this`config, this`smoothingAlpha
      ensures Valid()
      ensures config == Merge(old(config), update)
      ensures update.smoothing.None? ==> smoothingAlpha == old(smoothingAlpha)
    {
      config := Merge(config, update);
      if update.smoothing.Some? {
        smoothingAlpha := SmoothingAlpha(update.smoothing.value);
      }
    }

    /** Forget the histories, the previous energy, the frame count and the
        tempo; the configuration and the filter state are kept. */
    method Reset()
      requires Valid()
      modifies this`onsetHistory, this`previousEnergy, this`bpmHistory, this`frameCount, this`currentBPM
      ensures Valid()
      ensures onsetHistory == [] && previousEnergy == None && bpmHistory == []
      ensures frameCount == 0 && currentBPM == INITIAL_BPM
    {
      onsetHistory := [];
      previousEnergy := None;
      bpmHistory := [];
      frameCount := 0;
      currentBPM := INITIAL_BPM;
    }
  }
}
