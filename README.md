# BPMETER tempo detection, modelled in Dafny

BPMETER detects the tempo of live audio in four places. This project models
all four and proves what each one promises:

- **Client-side estimator** (`lib/audio/bpm-estimator.ts`, class `BPMEstimator`).
  It high-pass filters every audio frame and turns it into one onset-strength
  sample, the rise of the frame's RMS energy. It keeps a bounded history of
  those samples. On every 8th frame it z-normalises the history and scans
  autocorrelation lags for the best and runner-up period. It then applies
  half/double correction, EMA smoothing and a hysteresis gate to a bounded
  tempo track. From that track it derives stability and an advisory
  multiplier. Modules `EstimatorSpec` (the values) and `Estimator` (the
  object, proved against them).
- **Tap tempo** (`frontend/lib/audio/tap-tempo.ts`, class `TapTempo`). It keeps
  a bounded list of millisecond taps that restarts after a 3-second pause.
  From four taps on it rejects outlying intervals by the interquartile-range
  rule. It reports 60000 / mean interval, with a confidence taken from the
  coefficient of variation. Module `TapTempoEstimator`.
- **Audio-thread frame buffer** (`public/audio-processor.js`, class
  `BPMProcessor`). It mixes the input channels to mono and fills a 2048-slot
  buffer in place. Each time the buffer is full it posts a frame and moves
  the newest 1536 samples to the front, a hop of 512. Module `FrameBuffer`.
- **Server-side detector** (`backend/server.py`, class `BPMDetector`). It
  queues audio chunks within a sample budget and waits for 3 seconds of
  audio. It then range-filters and weight-combines three tempo candidates
  from the signal-analysis library. It reports the median of a 10-entry
  history and whether the last five entries agree. Module `Backend`.

`Stats` holds the shared arithmetic: sums, population variance, standard
deviation, `Math.round`, sorting and the median. `Wrappers` holds `Option`.

Numbers are `real`. The square root is a parameter `sqrt` constrained by
`Stats.IsSqrt`: the result is non-negative and squares back to its argument.
Each class that computes a square root keeps that parameter as a constant field. The clock reading of a
tap is the argument `now` of `Tap`, and the automatic-reset timer is the
operation `Timeout`. The signal analysis of the server is the function
parameter `analyze`.

## Model

| member | source | states |
|---|---|---|
| EstimatorSpec.SmoothingAlpha | lib/audio/bpm-estimator.ts:58-64 | each smoothing level maps to a weight strictly between 0 and 1 (0.3, 0.15, 0.05) |
| EstimatorSpec.HpAlpha | lib/audio/bpm-estimator.ts:66-70 | the 100 Hz high-pass coefficient RC/(RC+dt) lies strictly between 0 and 1 for any positive sample rate |
| EstimatorSpec.HighPassCausal | lib/audio/bpm-estimator.ts:109-118 | filtering a prefix of a frame gives the prefix of the filtered frame |
| EstimatorSpec.HighPassRecurrence | lib/audio/bpm-estimator.ts:112-114 | each output is alpha times (previous output, or the carried state at index 0, plus the input minus the previous input, or 0 at index 0) |
| EstimatorSpec.HighPassBlocksConstant | lib/audio/bpm-estimator.ts:109-118 | on a constant frame c the i-th output is alpha^(i+1) * (state + c): DC is removed except for a geometrically decaying step |
| EstimatorSpec.Rms | lib/audio/bpm-estimator.ts:125-129 | the RMS energy of a non-empty frame is non-negative |
| EstimatorSpec.OnsetStrength | lib/audio/bpm-estimator.ts:131-139 | the onset strength is never negative, is 0 when there is no previous frame, and is the energy rise when the energy rose |
| EstimatorSpec.NormalizeIsZScore | lib/audio/bpm-estimator.ts:301-311 | the normalised history has mean 0, and variance 1 whenever its standard deviation is at least 1e-10 |
| EstimatorSpec.NormalizeIdempotent | lib/audio/bpm-estimator.ts:301-311 | normalising a signal that already has mean 0 and variance 1 returns it unchanged |
| EstimatorSpec.ScanLagsFindsMaximum | lib/audio/bpm-estimator.ts:203-228 | after the scan the best lag is in range, its score is the maximum, no earlier lag attains it, every other lag scores at most the runner-up, the runner-up is a different lag, and second <= best |
| EstimatorSpec.ScanLagsEmptyRange | lib/audio/bpm-estimator.ts:203-206 | with no lag to scan, best and runner-up lag are minLag and both scores stay at -Infinity |
| EstimatorSpec.ScanEnd | lib/audio/bpm-estimator.ts:208 | a lag from minLag on is scanned exactly when lag < maxLag and 2*lag < the signal length |
| EstimatorSpec.PeakConfidence | lib/audio/bpm-estimator.ts:235-237 | the confidence lies in [0,100] and is 50 whenever the runner-up score is not positive, including when nothing was scanned |
| EstimatorSpec.AutocorrelationOf | lib/audio/bpm-estimator.ts:199-240 | the autocorrelation step always yields a confidence in [0,100] |
| EstimatorSpec.AutocorrelationOfEmptyRange | lib/audio/bpm-estimator.ts:199-240 | when no lag fits, the tempo is that of minLag and the confidence is 50 |
| EstimatorSpec.CheckHalfDouble | lib/audio/bpm-estimator.ts:245-258 | the result is bpm, bpm/2 or bpm*2 with the matching multiplier; half is chosen exactly when its test passes; double only when its own test passes; no change only when the double test fails; an in-range tempo stays in range |
| EstimatorSpec.HalfDoubleExample | lib/audio/bpm-estimator.ts:245-258 | 75 BPM with a 150 BPM runner-up becomes 150 BPM with multiplier 2 when maxBPM >= 150 |
| EstimatorSpec.Smooth | lib/audio/bpm-estimator.ts:171-174 | EMA smoothing is skipped for an empty history, and the smoothed tempo always lies between the old tempo and the new estimate |
| EstimatorSpec.SmoothBetween | lib/audio/bpm-estimator.ts:173 | an EMA step lands between the two values it blends |
| EstimatorSpec.TrackUpdateSpec | lib/audio/bpm-estimator.ts:160-186 | confidence <= 30 leaves the track unchanged; the tempo moves only by more than 2 BPM or at confidence above 70, and then to the smoothed candidate; the candidate is appended even when the tempo is held; the history stays within 20 |
| EstimatorSpec.HysteresisHoldsTempo | lib/audio/bpm-estimator.ts:176-180 | an estimate within 2 BPM at confidence <= 70 leaves the displayed tempo unchanged |
| EstimatorSpec.Stability | lib/audio/bpm-estimator.ts:263-274 | stability is 0 with fewer than 5 entries and always lies in [0,100] |
| EstimatorSpec.SteadyTrackIsStable | lib/audio/bpm-estimator.ts:263-274 | a track whose last 10 entries are equal has stability 100 |
| EstimatorSpec.SuggestedMultiplier | lib/audio/bpm-estimator.ts:279-296 | nothing below 5 entries; 0.5 exactly when the mean of the last 5 is above 150 and its half is at least minBPM; 2 exactly when that fails and the mean is below 90 with its double at most maxBPM |
| Estimator.BPMEstimator.constructor | lib/audio/bpm-estimator.ts:42-71 | empty histories, no previous energy, tempo 120, frame count 0, filter state 0, the smoothing weight of the level and the high-pass coefficient of the sample rate |
| Estimator.BPMEstimator.ProcessFrame | lib/audio/bpm-estimator.ts:76-104 | one onset sample is pushed into the bounded history, which stays within floor(8*sampleRate/512) and keeps its order; on every 8th frame with more than 50 samples the track is updated by the estimate of the normalised history; otherwise the track is untouched and the current tempo and stability are reported |
| Estimator.BPMEstimator.HighPassFilter | lib/audio/bpm-estimator.ts:109-118 | the loop's output is the filtered frame and the state is left at its last output |
| Estimator.BPMEstimator.ComputeSpectralFlux | lib/audio/bpm-estimator.ts:123-140 | the loop computes the RMS energy, which is recorded, and the returned flux is its rise over the previous energy |
| Estimator.BPMEstimator.EstimateBPM | lib/audio/bpm-estimator.ts:145-194 | below 50 samples nothing changes and confidence 0 is reported; otherwise the track takes the estimate's update and the result is the rounded tempo, rounded confidence, stability above 60 and the advisory multiplier |
| Estimator.BPMEstimator.Commit | lib/audio/bpm-estimator.ts:160-186 | an accepted estimate updates the track exactly as the track update prescribes |
| Estimator.BPMEstimator.Autocorrelation | lib/audio/bpm-estimator.ts:199-240 | the nested lag loop computes the autocorrelation step: tempo of the best lag, peak-ratio confidence in [0,100] and the runner-up's tempo |
| Estimator.BPMEstimator.UpdateConfig | lib/audio/bpm-estimator.ts:313-321 | the configuration is merged with the update; the smoothing weight changes only when a smoothing level is given |
| Estimator.BPMEstimator.Reset | lib/audio/bpm-estimator.ts:323-329 | both histories are emptied, the previous energy is forgotten, the frame count is 0 and the tempo 120; configuration and filter state are kept |
| Stats.PushBoundedKeepsOrder | lib/audio/bpm-estimator.ts:86-92 | a bounded push appends the new element last, drops at most the oldest, keeps order, and keeps a queue within its capacity |
| Stats.Recent | lib/audio/bpm-estimator.ts:266 | the last k entries (all when fewer) form a suffix of the sequence |
| TapTempoEstimator.RecordSpec | frontend/lib/audio/tap-tempo.ts:32-43 | after a tap 1 to 16 increasing timestamps are held, the newest last; after a pause of more than 3000 ms only the new tap is held; otherwise the newest earlier taps are kept in order |
| TapTempoEstimator.Intervals | frontend/lib/audio/tap-tempo.ts:66-70 | one interval per consecutive pair of taps, the later minus the earlier |
| TapTempoEstimator.IntervalsPositive | frontend/lib/audio/tap-tempo.ts:66-70 | increasing taps give positive intervals |
| TapTempoEstimator.KeepWithinAppend | frontend/lib/audio/tap-tempo.ts:108 | the filter distributes over concatenation, so survivors keep their order |
| TapTempoEstimator.KeepWithinCount | frontend/lib/audio/tap-tempo.ts:108 | each value inside the bounds survives as often as it occurs and every other value is dropped |
| TapTempoEstimator.RemoveOutliers | frontend/lib/audio/tap-tempo.ts:98-99 | fewer than 3 intervals are returned unchanged |
| TapTempoEstimator.RemoveOutliersSpec | frontend/lib/audio/tap-tempo.ts:98-109 | from 3 intervals on, the survivors are exactly the intervals inside [q1-1.5*iqr, q3+1.5*iqr] with their multiplicities; q1 itself survives, so the result is non-empty |
| TapTempoEstimator.EqualIntervalsSurvive | frontend/lib/audio/tap-tempo.ts:98-109 | equal intervals are never outliers |
| TapTempoEstimator.CalculateConfidence | frontend/lib/audio/tap-tempo.ts:114-131 | confidence lies in [0,100] and is 50 with fewer than 2 intervals |
| TapTempoEstimator.EqualIntervalsFullConfidence | frontend/lib/audio/tap-tempo.ts:114-131 | equal intervals give confidence 100 |
| TapTempoEstimator.IrregularIntervalsNoConfidence | frontend/lib/audio/tap-tempo.ts:114-131 | a standard deviation of at least a fifth of the mean gives confidence 0 |
| TapTempoEstimator.TapEstimate | frontend/lib/audio/tap-tempo.ts:61-93 | the result always reports the number of held taps |
| TapTempoEstimator.SurvivorsPositive | frontend/lib/audio/tap-tempo.ts:73-80 | every surviving interval is positive, so their mean is |
| TapTempoEstimator.TapEstimateComputed | frontend/lib/audio/tap-tempo.ts:61-93 | with 4 or more taps some interval survives, the tempo is non-negative and the confidence lies in [0,100] |
| TapTempoEstimator.TapEstimateNearTempo | frontend/lib/audio/tap-tempo.ts:79-91 | with 4 or more taps some interval survives, their mean is positive, the reported tempo is within 0.05 of 60000 / that mean, and the reported confidence is the survivors' confidence rounded to an integer in [0,100] |
| TapTempoEstimator.EvenTapsExactTempo | frontend/lib/audio/tap-tempo.ts:61-93 | evenly spaced taps give exactly 60000 / gap at confidence 100 |
| TapTempoEstimator.HalfSecondTapsGive120 | frontend/lib/audio/tap-tempo.ts:61-93 | taps at 0, 500, 1000, 1500, 2000 ms give 120 BPM, 5 taps, confidence 100 |
| TapTempoEstimator.LateTapIsKept | frontend/lib/audio/tap-tempo.ts:98-109 | taps at 0, 500, 1000, 1500, 5000 ms keep the 3500 ms gap (q3 is the largest of four intervals) and give 48 BPM at confidence 0 |
| TapTempoEstimator.TapTempo.constructor | frontend/lib/audio/tap-tempo.ts:14-19 | no taps and no pending timer |
| TapTempoEstimator.TapTempo.Tap | frontend/lib/audio/tap-tempo.ts:24-56 | the tap list becomes the recorded list and the timer is armed; no result exactly when fewer than 4 taps are held, otherwise the estimate of the held taps with their count |
| TapTempoEstimator.TapTempo.RecordTap | frontend/lib/audio/tap-tempo.ts:27-48 | cancel, restart after a pause, append, drop the oldest beyond 16 and re-arm give the recorded list |
| TapTempoEstimator.TapTempo.CalculateBPM | frontend/lib/audio/tap-tempo.ts:61-93 | the method computes the tap estimate of the held taps |
| TapTempoEstimator.TapTempo.CollectIntervals | frontend/lib/audio/tap-tempo.ts:66-70 | the push loop builds exactly the intervals of the taps |
| TapTempoEstimator.TapTempo.GetTapCount | frontend/lib/audio/tap-tempo.ts:136-138 | the count is the number of held taps |
| TapTempoEstimator.TapTempo.Reset | frontend/lib/audio/tap-tempo.ts:143-149 | no taps remain, the timer is cancelled and the count is 0 |
| TapTempoEstimator.TapTempo.Timeout | frontend/lib/audio/tap-tempo.ts:46-48 | the timer firing leaves no taps and a count of 0 |
| Stats.Sort | frontend/lib/audio/tap-tempo.ts:101 | the sorted copy is ascending and a permutation of its input |
| Stats.RoundTo1 | frontend/lib/audio/tap-tempo.ts:89 | rounding to one decimal moves a value by at most 0.05 |
| FrameBuffer.Mono | public/audio-processor.js:24-39 | the mono signal is as long as the first channel |
| FrameBuffer.MonoOfEqualChannels | public/audio-processor.js:27-39 | channels carrying the same signal mix back to that signal, and a single channel is copied |
| FrameBuffer.MonoWithin | public/audio-processor.js:27-39 | mixing never leaves the range of the channel samples when that range contains 0 |
| FrameBuffer.MixToMono | public/audio-processor.js:24-39 | the nested channel loop fills a fresh array with the mono signal |
| FrameBuffer.IndexAfter | public/audio-processor.js:42-58 | the write index stays below 2048 and, once a frame is out, never drops below 1536 |
| FrameBuffer.FramesOf | public/audio-processor.js:46-57 | after n samples 0 frames (n < 2048) or 1 + floor((n-2048)/512) frames of 2048 samples are posted |
| FrameBuffer.FramesOverlap | public/audio-processor.js:54-57 | consecutive frames share 1536 samples |
| FrameBuffer.FramesPrefix | public/audio-processor.js:46-53 | more input only adds frames; posted frames are never revised |
| FrameBuffer.IndexStep | public/audio-processor.js:42-58 | a sample either advances the index or completes a frame ending at it and rewinds the index to 1536 |
| FrameBuffer.FramesStep | public/audio-processor.js:42-58 | a sample either posts nothing or posts the window of the newest 2048 samples |
| FrameBuffer.BPMProcessor.constructor | public/audio-processor.js:9-15 | a zeroed 2048-slot buffer, index 0, nothing posted |
| FrameBuffer.BPMProcessor.Push | public/audio-processor.js:42-58 | one sample is consumed in place and the buffer invariant (index, newest samples before it, posted frames) is kept |
| FrameBuffer.BPMProcessor.Process | public/audio-processor.js:17-62 | missing input leaves the state untouched; otherwise the mono mix of the first input is consumed; the processor is always kept alive |
| Backend.TrimSpec | backend/server.py:50-56 | trimming keeps a non-empty suffix of the queue, ends within budget unless one chunk is left, and drops a chunk only while the queue was over budget |
| Backend.QueueKeepsNewest | backend/server.py:47-60 | after queueing and trimming, the queue is non-empty and ends with the new chunk |
| Backend.ConcatLength | backend/server.py:62-63 | the concatenated queue is as long as the counted total |
| Backend.AnalysedAudioWithinBudget | backend/server.py:50-62 | after queueing and trimming, the concatenated audio holds at most max_history_seconds * sr samples unless the new chunk alone is left |
| Backend.Sanitize | backend/server.py:201-204 | a finite value is returned as is and a non-finite one becomes the default |
| Backend.Qualifying | backend/server.py:139-167 | candidates and weights pair up, every weight is positive and every candidate lies in the tempo range |
| Backend.QualifyingSpec | backend/server.py:139-167 | each in-range tempo takes part, and the list is empty exactly when none is in range |
| Backend.WeightedAverageWithin | backend/server.py:176 | a weighted average with positive weights lies between the smallest and largest averaged value |
| Backend.CombineSpec | backend/server.py:169-180 | the confidence lies in [0,100]; with no candidate the result is the onset tempo at confidence 30; otherwise the combined tempo is within the range |
| Backend.AgreeingMethods | backend/server.py:139-180 | three methods agreeing on an in-range tempo give that tempo at confidence 100 |
| Backend.WeightedAverageOfConstant | backend/server.py:176 | averaging equal values gives that value whatever the weights |
| Stats.MedianWithinEntries | backend/server.py:188-190 | the median lies between entries, is an entry for an odd count, and is the common value of a constant history |
| Backend.SteadyHistoryIsStable | backend/server.py:192-196 | five identical recent tempos make the detection stable |
| Backend.SteadyHistoryReportsItsTempo | backend/server.py:188-190 | a constant history of at least 3 entries reports its tempo |
| Backend.Idle | backend/server.py:67-75 | a non-detection reports confidence 0 and not stable |
| Backend.BPMDetector.constructor | backend/server.py:33-40 | 44100 Hz, empty queue and history, 10 s budget, no last tempo, range 40-200 |
| Backend.BPMDetector.ProcessAudioChunk | backend/server.py:42-229 | the queue is trimmed to max_history_seconds * sr, so the analysed audio is within that budget unless the new chunk alone is left; under 3 s of audio, or when the analysis raises, the last tempo (or 0) is reported at confidence 0 and nothing else changes; otherwise the combined tempo is pushed into the history and the median, confidence, stability, method tempos and duration are reported |
| Backend.BPMDetector.Enqueue | backend/server.py:47-56 | the append-and-pop loop computes the trimmed queue |
| Backend.BPMDetector.CollectCandidates | backend/server.py:139-167 | the appends build exactly the qualifying candidates with weights 0.4, 0.3, 0.3 in order |
| Backend.BPMDetector.CombineTempos | backend/server.py:139-181 | the result is the combination of the qualifying candidates |
| Backend.BPMDetector.Smooth | backend/server.py:183-198 | the history takes a bounded push (at most 10), the reported tempo is the median from 3 entries on and becomes the last tempo, and stability is judged on the last 5 |
| Backend.BPMDetector.Reset | backend/server.py:231-236 | queue and history are emptied and the last tempo cleared; range and budget are kept |

The loop methods `HighPassFilter`, `ComputeSpectralFlux`, `Autocorrelation`,
`CollectIntervals`, `MixToMono`, `Push`, `Process` and `Enqueue` are each
proved against the function that specifies them. The properties above are
proved about those functions.

Some behaviour of the code is worth stating outright:

- With no positive runner-up score the confidence is 50 (lib/audio/bpm-estimator.ts:235-237, `EstimatorSpec.PeakConfidence`).
- An estimate is attempted only with more than 50 onset samples (lib/audio/bpm-estimator.ts:95, `Estimator.BPMEstimator.ProcessFrame`).
- `reset` keeps the high-pass filter state (lib/audio/bpm-estimator.ts:323-329, `Estimator.BPMEstimator.Reset`).
- A discarded estimate, at confidence 30 or below, still reports its own rounded confidence (lib/audio/bpm-estimator.ts:188-193, `Estimator.BPMEstimator.EstimateBPM`).
- Taps at 0, 500, 1000, 1500 and 5000 ms keep the 3500 ms interval. With four intervals the third quartile is the largest one, so the fences admit it, and the result is 48 BPM at confidence 0 (frontend/lib/audio/tap-tempo.ts:102-108, `TapTempoEstimator.LateTapIsKept`).

## Left out

- Floating point: Float32 storage, NaN and Infinity and the exact double value of `Math.PI` are not modelled; every number is a real. The exception is the tempogram tempo, which may be infinite (`Backend.Float`).
- The square root is a parameter characterised by `Stats.IsSqrt`.
- The signal analysis of the server (onset envelope, beat tracking, tempogram, autocorrelation, peak picking) is the parameter `analyze`. Its result is the onset tempo, the tempogram tempo and the strongest peak index, or an exception message.
- Backend.BPMDetector.ProcessAudioChunk: does not model Python's `round(x, 1)` and `round(x, 0)` on the reported values. It also does not model the sanitising of the final tempo, the confidence and the onset and autocorrelation tempos, which are finite in the model.
- Backend.BPMDetector.ProcessAudioChunk: requires a positive sample rate, which the source divides by without checking.
- The empty-queue branch of `process_audio_chunk` (backend/server.py:59-60) is unreachable (`Backend.QueueKeepsNewest`), so it has no counterpart.
- Estimator.BPMEstimator.ProcessFrame: requires a non-empty frame. The source divides the energy by the frame length, which is NaN for an empty frame.
- Estimator.BPMEstimator.UpdateConfig: requires the merged configuration to give a positive sample rate, positive tempo bounds and a shortest lag of at least one onset sample. Without these the source divides by zero.
- Estimator.BPMEstimator.constructor: requires the same configuration conditions.
- TapTempoEstimator.TapTempo.Tap: requires strictly increasing timestamps. A repeated timestamp adds a zero interval; if every surviving interval is zero, the source computes 60000 / 0 = Infinity and a NaN confidence. A clock going backwards gives negative intervals. Neither case is modelled.
- TapTempoEstimator.TapTempo.Timeout: requires a pending timer. The real timer, its 3000 ms delay and any concurrency with taps are not modelled.
- `Date.now()` is the argument `now` of `Tap`.
- The detector's `sample_rate` field is set but never read by the source; it is kept as a field only.
- FrameBuffer.BPMProcessor.Process: the `outputs` and `parameters` arguments, which the source never reads, are left out.
- Posting to the message port is modelled as appending to the field `posted`, which holds the frames in order.
- FrameBuffer.BPMProcessor.Push: says nothing about the buffer beyond the write index. Those slots are stale and are overwritten before the next frame is posted.
- The periodic impulse-train recovery of the autocorrelation (an impulse train of period P yields about 60*sampleRate/(P*512)) is not proved. It needs bounds on the normalised autocorrelation of a specific signal family.
- The Flask routes, CORS, logging, the browser audio engines, the React UI, the service worker and the build scripts are I/O or presentation and are not part of this model.
