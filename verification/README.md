# pYIN orchestration layer in Dafny

This project models the part of pYIN (probabilistic YIN pitch and note
tracking, packaged as a Vamp plugin) that sits between the numeric kernels:

- **YIN frame processing** (`Yin.cpp`, module `YinEstimator`, class `Yin`).
  - Classic YIN turns the signed lag chosen by the threshold search into an
    f0, a voiced probability and a clipped salience curve.
  - Probabilistic YIN turns the per-lag probability curve into a salience
    curve and a compacted list of (frequency, probability) candidates.
  - The setters keep the difference buffer at half a frame.
- **The plugin session** (`PYinVamp.cpp`, module `PYin`, class `PYinVamp`).
  - Parameters and their identifiers; `initialise` and `reset`.
  - The per-block `process` step: the block RMS drives a low-amplitude gate
    on the candidate probabilities (module `AmplitudeGate`); the gated
    candidates go to the pitch HMM, which is initialised on the first frame
    of the window and stepped afterwards.
  - The fixed-lag window over timestamps and candidate lists (module
    `FixedLagWindow`). In fixed-lag mode a full window pops its front and
    reports one smoothed pitch. The unvoiced-output mode decides whether
    and how that pitch is reported (module `OutputPolicy`).
  - The end-of-stream flush of the frames left in the window.
  - Note segmentation (module `NoteSegmentation`): voiced frames are
    grouped into maximal runs; runs shorter than the pruning threshold are
    dropped; each kept run becomes a note. The note's pitch is the upper
    median of the run's log-pitches, taken from the run buffer after it is
    sorted in place (module `Sorting`), and converted to Hz.

Timestamps and durations are counted in samples. The kernels are outside
this model: YinUtil's difference functions, `yinProb`, `absoluteThreshold`,
`parabolicInterpolation` and `sumSquare`; MonoPitchHMM; MonoNote; and the
Hz/log-pitch conversions. Whatever they produce arrives as a parameter of
the call that uses it.

Two consequences of the fixed-lag design are proved rather than assumed
(`FixedLagWindow.StreamedFrames`, `FixedLagWindow.SessionFrames`):

- The timestamp reported on a pop is that of the new front. Frame 0's
  timestamp is therefore never reported while streaming.
- When the HMM decodes the whole remaining window at the end, the frame
  `n - lag` is reported twice.

## Model

| member | source | states |
|---|---|---|
| Sorting.InsertPermutes | PYinVamp.cpp:691 | inserting a value into a sequence adds exactly that value to its elements |
| Sorting.InsertKeepsSorted | PYinVamp.cpp:691 | inserting a value into a sorted sequence leaves it sorted |
| Sorting.SortIsSortedPermutation | PYinVamp.cpp:691 | the reference sort of the run buffer is in non-decreasing order and is a permutation of the buffer (same multiset) |
| Sorting.SortedPermutationUnique | PYinVamp.cpp:691 | two sorted sequences with the same elements are equal, so any correct in-place sort yields exactly `Sort` of the buffer |
| Sorting.IndexOfLeast | PYinVamp.cpp:691 | the index returned lies in the unsorted tail and holds a least element of it |
| Sorting.SelectionStep | PYinVamp.cpp:691 | swapping a least element of the tail into the first unsorted position keeps the elements and grows the sorted prefix, every element of which stays at or below the tail |
| Sorting.SortInPlace | PYinVamp.cpp:691 | sorting the run buffer in place leaves the array equal to `Sort` of its old contents, hence sorted and a permutation of them |
| Sorting.MinMaxBound | PYinVamp.cpp:692 | every element of a non-empty buffer lies between its minimum and maximum |
| Sorting.UpperMedianInRange | PYinVamp.cpp:692 | element size/2 of the sorted buffer is one of the buffer's values and lies between its minimum and maximum |
| YinEstimator.TruncateToUnsigned | Yin.cpp:135-140 | the float-to-unsigned conversion truncates: floor for non-negative values, 0 for values in (-1, 0) |
| YinEstimator.PositiveBins | Yin.cpp:109-119 | every lag kept lies below the buffer size and has positive probability |
| YinEstimator.PositiveBinsComplete | Yin.cpp:109-119 | every lag below the buffer size with positive probability is kept |
| YinEstimator.PositiveBinsIncreasing | Yin.cpp:109-119 | the kept lags are in strictly increasing order |
| YinEstimator.CandidatesAreListed | Yin.cpp:109-119 | the candidate list built lag by lag has one pair per kept lag, in the same order: the lag's frequency sampleRate / interpolated lag (with a non-zero interpolated lag) and its probability unchanged |
| YinEstimator.CandidatesArePositive | Yin.cpp:109-119 | the candidate list is empty exactly when no lag has positive probability, and every probability in it is positive |
| YinEstimator.Yin.constructor | Yin.cpp:28-40 | every frame size is stored as given (the power-of-two check does nothing); the selector starts at 2; the buffer is half a frame |
| YinEstimator.Yin.Process | Yin.cpp:47-86 | tau = 0 gives f0 = 0; otherwise f0 is sampleRate / interpolated lag at abs(tau), negated when tau < 0; voiced probability is 1 - y[abs(tau)]; the salience has one entry per lag, 1 - y[i] when y[i] < 1 else 0, so never negative; no candidates |
| YinEstimator.Yin.ProcessProbabilisticYin | Yin.cpp:88-125 | f0 and voiced probability are 0; salience equals the per-lag probabilities; the candidates are the lag-by-lag list `Candidates`, hence one pair per positive lag, in lag order, with that lag's probability unchanged and frequency sampleRate / interpolated lag; the list is empty exactly when no lag has positive probability, and all its probabilities are positive |
| YinEstimator.Yin.SetThreshold | Yin.cpp:128-133 | only the threshold changes |
| YinEstimator.Yin.SetThresholdDistr | Yin.cpp:135-140 | the selector becomes the truncated parameter; nothing else changes |
| YinEstimator.Yin.SetFrameSize | Yin.cpp:142-148 | frame size set and buffer size kept at half of it |
| YinEstimator.Yin.SetFast | Yin.cpp:150-155 | only the fast flag changes |
| AmplitudeGate.GateFactorAtSilence | PYinVamp.cpp:482 | at rms 0 the factor is 0.01/1.01 = 1/101 |
| AmplitudeGate.GateFactorIncreasing | PYinVamp.cpp:482 | the factor is strictly increasing in the rms |
| AmplitudeGate.GateFactorRange | PYinVamp.cpp:482 | the factor is 1 exactly at the threshold; in [1/101, 1) for 0 <= rms < lowAmp; above 1 past the threshold (never clamped) |
| AmplitudeGate.GateAttenuates | PYinVamp.cpp:466-486 | a frame at or above the threshold passes probabilities unchanged; a quiet one maps p in [0, 1] into [p/101, p], strictly below p when p > 0 |
| AmplitudeGate.GateCandidates | PYinVamp.cpp:473-486 | candidate count and order are kept; each frequency becomes its log-pitch and each probability goes through the gate |
| AmplitudeGate.TruncateToInt | PYinVamp.cpp:457-461 | conversion of the running double sum to the int accumulator truncates toward zero |
| AmplitudeGate.QuietBlockSumsToZeroAsWritten | PYinVamp.cpp:457-464 | with the int accumulator, every block whose samples lie in (-1, 1) sums to 0 |
| AmplitudeGate.AccumulatorTruncationExample | PYinVamp.cpp:457-464 | the block [0.5, 0.5] sums to 0 as written and to 0.5 as intended |
| AmplitudeGate.QuietBlockAlwaysGatedAsWritten | PYinVamp.cpp:457-466 | as written, such a block has rms 0 and every candidate probability is scaled by 1/101 |
| AmplitudeGate.SumOfSquaresBounds | PYinVamp.cpp:457-464 | the intended sum of squares is non-negative, is 0 on a silent block, and is never below the truncated one, which is itself non-negative |
| AmplitudeGate.MeanSquare | PYinVamp.cpp:463 | the intended mean square is non-negative and 0 on a silent block |
| AmplitudeGate.MeanSquareAsWritten | PYinVamp.cpp:457-463 | the mean square the code computes (int-accumulated sum over the block size) is non-negative, never exceeds the intended one, and is 0 on every block inside (-1, 1) |
| AmplitudeGate.QuietBlockRmsAsWritten | PYinVamp.cpp:457-486 | an rms whose square is the as-written mean square of a block inside (-1, 1) is 0, so for a positive threshold the gate scales every probability by 1/101 |
| FixedLagWindow.FixedLagWindowIsRecentFrames | PYinVamp.cpp:496-506 | after n pushes the fixed-lag window holds the last min(n, lag) frames, oldest first |
| FixedLagWindow.BatchWindowKeepsEveryFrame | PYinVamp.cpp:496-503 | without fixed-lag smoothing no frame is ever popped |
| FixedLagWindow.FixedLagEmission | PYinVamp.cpp:499-514 | the n-th push pops exactly when n > lag, and then the new front is frame n - lag, never frame 0 |
| FixedLagWindow.StreamedFrames | PYinVamp.cpp:503-514 | over a stream of n frames the pops report frames 1 .. n - lag in order, each once |
| FixedLagWindow.SessionFrames | PYinVamp.cpp:588-597 | streaming reports followed by the end-of-stream window give frames 1 .. n - lag then n - lag .. n - 1 |
| FixedLagWindow.SessionFramesExample | PYinVamp.cpp:503-514 | two frames at lag 1 report frame 1 twice and frame 0 never |
| OutputPolicy.ReportedValue | PYinVamp.cpp:517-529 | a frame is dropped exactly when its frequency is negative in mode 0; mode 1 reports abs(freq) (never negative); other modes report freq unchanged; a non-negative freq is always reported as it is |
| NoteSegmentation.ObservationsOf | PYinVamp.cpp:618-628 | one observation list per frame, non-empty exactly when the frequency is positive, then holding (log-pitch, 0.9) |
| NoteSegmentation.PitchObservations | PYinVamp.cpp:618-628 | the loop builds exactly those observation lists |
| NoteSegmentation.OnsetPasses | PYinVamp.cpp:677 | for a positive level two frames ahead, the test passes exactly when the current level exceeds sensitivity times that level |
| NoteSegmentation.VoicingAgreesFromTwoFrames | PYinVamp.cpp:674-677 | from two frames on, the voicing test as written (unsigned nFrame - 2) and the model agree |
| NoteSegmentation.SingleFrameReadsPastLevel | PYinVamp.cpp:676-677 | with one voiced frame, nFrame - 2 wraps and the level two frames ahead is read past the end |
| NoteSegmentation.LastFrameClosesRuns | PYinVamp.cpp:678-707 | the last frame never extends a run (the `iFrame != nFrame-1` guard), so the run through any extending frame is a maximal run closed by a later frame of the track, within the scan |
| NoteSegmentation.RunEndDeterminesStart | PYinVamp.cpp:678-687 | a maximal run is determined by the frame that closes it |
| NoteSegmentation.RunEndFollowsExtendingFrame | PYinVamp.cpp:678-687 | a maximal run closes at a frame that does not extend, right after one that does |
| NoteSegmentation.Frames.RunStart | PYinVamp.cpp:678-682 | the onset of the run through an extending frame: every frame from it up to that frame extends, and the frame before it does not (or it is frame 0) |
| NoteSegmentation.RunsAreClosedSpans | PYinVamp.cpp:678-707 | a span [a, b) is a maximal run exactly when frame b closes a run and a is that run's onset |
| NoteSegmentation.RunPitches | PYinVamp.cpp:684-685 | a run's pitch buffer holds one log-pitch per frame of the run, in frame order, so its length is iFrame - onsetFrame |
| NoteSegmentation.EmittedPastNonEnd | PYinVamp.cpp:687 | a frame at which no run ends adds no note |
| NoteSegmentation.EmittedPastShortRun | PYinVamp.cpp:689 | a run shorter than minNoteFrames that ends at a frame adds no note |
| NoteSegmentation.EmittedPastLongRun | PYinVamp.cpp:689-705 | a long enough run that ends at a frame adds its note after all earlier ones |
| NoteSegmentation.SegmentationMeaning | PYinVamp.cpp:672-711 | the notes of the reference segmentation are those of exactly the maximal voiced runs of at least minNoteFrames frames (an unrounded real), one note per run, in frame order; each starts at onset * step + offset, lasts (end - onset) * step, and has the upper median of the run's log-pitches |
| NoteSegmentation.NotesInOrder | PYinVamp.cpp:697-705 | notes of runs in frame order end no later than the next note starts |
| NoteSegmentation.MedianPitch | PYinVamp.cpp:691-692 | the run buffer, sorted in place, gives at index size/2 the upper median of the run's log-pitches |
| NoteSegmentation.ExtendingFrame | PYinVamp.cpp:678-685 | a voiced frame that is not the last adds no note and grows the open run by its log-pitch, opening it at this frame when the frame before was not voiced |
| NoteSegmentation.ClosingFrame | PYinVamp.cpp:686-707 | a frame that does not extend after one that did closes the run, whose buffer then holds iFrame - onsetFrame > 0 pitches; the run adds its note exactly when the buffer has at least minNoteFrames entries |
| NoteSegmentation.IdleFrame | PYinVamp.cpp:686-688 | a frame that does not extend after one that did not adds no note |
| NoteSegmentation.SegmentNotes | PYinVamp.cpp:672-711 | the loop's notes equal the reference segmentation, so (by `SegmentationMeaning` and `NotesInOrder`) they are the maximal voiced runs of at least minNoteFrames frames, one per run, in order and without overlap |
| PYin.SumOfPositives | PYinVamp.cpp:543-555 | a sum of positive probabilities is non-negative, and positive exactly when there is a candidate |
| PYin.ReportedFeatures | PYinVamp.cpp:590-608 | the flush reports at most one feature per decoded frame |
| PYin.ReportedFeaturesShape | PYinVamp.cpp:590-608 | outside mode 0 every frame is reported at its own timestamp; in modes 0 and 1 every reported value is non-negative |
| PYin.CandidateFrequencies | PYinVamp.cpp:533-541 | the F0-candidates feature lists each candidate's frequency, in order |
| PYin.CandidateProbabilities | PYinVamp.cpp:543-555 | the probabilities feature lists each candidate's probability in order, and the voiced probability is their sum, positive exactly when there is a candidate |
| PYin.SalienceValues | PYinVamp.cpp:557-565 | the salience feature is the salience curve, copied in order |
| PYin.FrameFeatures | PYinVamp.cpp:473-565 | the HMM is fed one (log-pitch, gated probability) pair per candidate; the candidate and probability features pair back up into YIN's candidate list; the voiced probability is their sum, positive exactly when there is a candidate; the salience feature is YIN's salience; all at the frame's timestamp |
| PYin.ReportTrack | PYinVamp.cpp:590-608 | the flush reports each decoded frame in turn at its own timestamp, kept or dropped under the output mode |
| PYin.PYinVamp.AnalysisOffset | PYinVamp.cpp:447 | the timestamp offset is half a block with precise timing, a quarter otherwise, never more than half a block |
| PYin.PYinVamp.GetParameter | PYinVamp.cpp:234-258 | an unknown identifier reads as 0 |
| PYin.PYinVamp.constructor | PYinVamp.cpp:31-58 | default step 256, block 2048, threshold distribution 2, fixed lag on, unvoiced output 0, imprecise timing, low-amplitude threshold 0.1, onset sensitivity 0.7, prune threshold 0.1; empty stores; YIN over 2048-sample frames with threshold 0 |
| PYin.PYinVamp.SetParameter | PYinVamp.cpp:261-292 | afterwards reading the set identifier gives the value when it is known; every other identifier reads as before; no per-frame store changes |
| PYin.PYinVamp.Reset | PYinVamp.cpp:428-442 | YIN gets the truncated selector, the block size as frame size and fast = not precise timing; the HMM lag is 100 iff fixed lag > 0.5, else 0; all four per-frame stores are empty |
| PYin.PYinVamp.Initialise | PYinVamp.cpp:413-426 | accepted exactly for one channel, then sizes are taken and the session reset; a refused call changes nothing |
| PYin.PYinVamp.PushFrame | PYinVamp.cpp:488-531 | the HMM is initialised iff the window is empty, else stepped; the frame is pushed; a full fixed-lag window pops its front, appends the decoded frequency to the pitch track, and reports it at the new front's timestamp under the output mode |
| PYin.PYinVamp.Process | PYinVamp.cpp:444-568 | the gate uses the rms the code computes (as-written mean square, see `QuietBlockRmsAsWritten`); the level gains YIN's rms; the HMM is fed the gated candidates; both deques slide together; the window is never empty afterwards; at most one smoothed feature; the candidate, probability, voiced-probability and salience features carry the offset timestamp and are exactly the YIN candidates, their probabilities, their sum and the salience curve |
| PYin.PYinVamp.AddNoteFeatures | PYinVamp.cpp:615-712 | the note features are the notes of the whole pitch track, as `SegmentNotes` states, with minNoteFrames = sampleRate * pruneThresh / step, each median log-pitch converted to Hz; each note ends no later than the next starts |
| PYin.PYinVamp.GetRemainingFeatures | PYinVamp.cpp:570-613 | with an empty window nothing happens; otherwise the decoded window is appended to the pitch track (which then covers every processed block), reported under the output mode at the window's timestamps, and the notes are added |

## Left out

- YinUtil, MonoPitchHMM and MonoNote are not part of this model. Their results are parameters: the per-lag probabilities, interpolated lags, chosen lag and rms of YIN; the decoded frequencies of the HMM; the note states of MonoNote.
- The HMM's internal state is not modelled; the session records the sequence of initialise/step calls with the observation lists they receive.
- The session keeps no history of the timestamps pushed since `Reset`. Each `Process` call is tied to the window model by one `Slide` step, and the window over a whole stream (`FixedLagWindowIsRecentFrames`, `StreamedFrames`) is proved on that model rather than on the session's fields.
- PYin.PYinVamp.GetRemainingFeatures: requires the decoded track to have one entry per frame in the window, the length the HMM's `track` is expected to return.
- Floating-point rounding, single versus double precision, NaN and infinity: all arithmetic is exact over reals. The one exception is the level-ratio test, where a zero denominator is given its IEEE outcome.
- The square root of the block RMS: `Process` takes the rms with the requirement that its square is the block's mean square as the code computes it (`MeanSquareAsWritten`, with the int accumulator), not the intended `MeanSquare`.
- The Hz to MIDI log-pitch conversion and its inverse: opaque functions `logPitch` and `toHz`. The segmenter works on log-pitches; a note's median is converted to Hz where its feature is built (`PYin.NoteFeatures`), which gives the same value as converting inside the loop.
- The interpolated lags of `parabolicInterpolation` arrive as a sequence indexed by lag; the YIN buffer they are computed from is not modelled.
- Sorting.SortInPlace: `std::sort`'s own algorithm is not modelled; a selection sort stands in for it. Only the sorted result is observable, and it is unique (`Sorting.SortedPermutationUnique`).
- RealTime arithmetic and the rounding of the sample rate in frame-to-time conversion: timestamps are sample counts.
- Output numbering from the output descriptors: the feature set has one named field per output.
- The plugin's metadata, parameter and output descriptors, programs, preferred sizes, and the `hasTimestamp`/`hasDuration` flags.
- The stored but unused `m_fmin`, `m_fmax`; the unused sums `probSum` (probabilistic YIN) and `salienceSum` (process).
- The setters' constant return code 0.
- The default of YIN's `fast` flag, declared in Yin.h, is not part of this model. The session constructor passes false, and `Reset` sets the flag before any block is processed.
- YinUtil is built once with the initial buffer size and is not rebuilt when the frame size changes; the kernel is outside this model.
- Buffer allocation and release, and diagnostic output to stderr.
- PYin.PYinVamp.Reset: requires the threshold-distribution parameter above -1, below which the float-to-unsigned conversion is undefined; likewise `Initialise`.
- PYin.PYinVamp.Process: requires a positive HMM lag whenever fixed-lag mode is on. With lag 0 the window pops to empty and the front of an empty deque is read.
- PYin.PYinVamp.GetRemainingFeatures: requires a positive step size when there are frames, because the model does not give division by zero a floating-point value. It is also meant to be called once per stream: a second call would push the window again and read the level past its end, which `Valid` excludes.
- AmplitudeGate.MeanSquare: states non-negativity and zero on silence, not that only a silent block has mean square 0.
- PYin.ReportedFeatures: its own contract bounds only the length; the shape of the reported features is stated by `PYin.ReportedFeaturesShape`.

## Findings

| source | as written | input that shows it | evidently intended | confidence | as-written member | corrected member |
|---|---|---|---|---|---|---|
| PYinVamp.cpp:457-464 | `std::accumulate` is seeded with the int `0`, so the accumulator is an int and every partial sum of squares is truncated toward zero | the block [0.5, 0.5] sums to 0 instead of 0.5; any block with samples in (-1, 1) gets rms 0, and every candidate probability is scaled by 1/101 whenever lowAmp > 0 | a double accumulator (seed `0.0`), giving the block's true mean square | high, not executed | AmplitudeGate.AccumulatorTruncationExample | AmplitudeGate.SumOfSquaresBounds |
| PYinVamp.cpp:676-677 | `iFrame >= nFrame-2` is computed in size_t, so with nFrame = 1 the bound wraps to 2^64 - 1 and the lookahead branch is taken | a pitch track of one voiced frame, note state 0, with one level value: `m_level[2]` is read past the end | the lookahead test only when two frames remain ahead (iFrame + 2 < nFrame) | high, not executed | NoteSegmentation.SingleFrameReadsPastLevel | NoteSegmentation.VoicingAgreesFromTwoFrames |

How the session treats each:

- The accumulator: the session follows the code as written. `Process` takes an rms whose square is `MeanSquareAsWritten` of the block, the int-accumulated sum divided by the block size. `QuietBlockRmsAsWritten` shows that on a block inside (-1, 1) this rms is 0 and the gate scales every probability by 1/101. `MeanSquare` is the intended value, and `MeanSquareAsWritten` never exceeds it.
- The voicing test: the out-of-bounds read has no defined outcome to follow, so `SegmentNotes` uses the corrected `Frames.IsVoiced`. That function reads the level two frames ahead only when that frame exists, and it agrees with the code as written from two frames on.
