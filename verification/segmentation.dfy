/**
 * Note segmentation (PYinVamp::addNoteFeatures): the smoothed pitch track
 * is scanned frame by frame; contiguous voiced frames form a run, a run
 * long enough becomes a note whose pitch is the upper median of the run's
 * log-pitches.
 *
 * MonoNote is not part of this model: its per-frame note states arrive as
 * `noteState`. The log-pitch conversion arrives as the function
 * `logPitch`; a note is segmented with its median log-pitch, and the
 * conversion back to Hz happens where the note feature is built (module
 * PYin).
 */
module NoteSegmentation {
  import opened Common
  import opened Sorting

  /** A note event: onset and duration in samples, and its median log-pitch. */
  datatype Note = Note(start: int, duration: int, pitch: real)

  /** The observation weight the segmenter attaches to every voiced frame. */
  const VoicedWeight: real := 0.9

  /**
   * The per-frame observation lists handed to MonoNote: empty for a frame
   * whose decoded frequency is not positive, else one (log-pitch, 0.9) pair.
   */
  function ObservationsOf(track: seq<real>, logPitch: real -> real): (obs: seq<seq<(real, real)>>)
    ensures |obs| == |track|
    ensures forall i :: 0 <= i < |track| ==> (|obs[i]| > 0 <==> track[i] > 0.0)
    ensures forall i :: 0 <= i < |track| && track[i] > 0.0 ==>
      obs[i] == [(logPitch(track[i]), VoicedWeight)] && FramePitch(obs[i]) == logPitch(track[i])
  {
    seq(|track|, i requires 0 <= i < |track| =>
      if track[i] > 0.0 then [(logPitch(track[i]), VoicedWeight)] else [])
  }

  /** The loop that builds the observation lists, frame by frame. */
  method PitchObservations(track: seq<real>, logPitch: real -> real)
    returns (obs: seq<seq<(real, real)>>)
    ensures obs == ObservationsOf(track, logPitch)
  {
    obs := [];
    var iFrame := 0;
    while iFrame < |track|
      invariant 0 <= iFrame <= |track|
      invariant |obs| == iFrame
      invariant forall i :: 0 <= i < iFrame ==> (|obs[i]| > 0 <==> track[i] > 0.0)
      invariant forall i :: 0 <= i < iFrame && track[i] > 0.0 ==>
        obs[i] == [(logPitch(track[i]), VoicedWeight)]
      invariant forall i :: 0 <= i < iFrame && track[i] <= 0.0 ==> obs[i] == []
    {
      var temp: seq<(real, real)> := [];
      if track[iFrame] > 0.0 {
        temp := temp + [(logPitch(track[iFrame]), VoicedWeight)];
      }
      obs := obs + [temp];
      iFrame := iFrame + 1;
    }
  }

  /**
   * level[i] / level[i + 2] > sensitivity under IEEE division: a zero
   * denominator gives +infinity for a positive numerator (the test passes)
   * and NaN for a zero one (the test fails).
   */
  function OnsetPasses(current: real, ahead: real, sensitivity: real): (r: bool)
    ensures ahead > 0.0 ==> (r <==> current > sensitivity * ahead)
  {
    if ahead != 0.0 then current / ahead > sensitivity else current > 0.0
  }

  /** The size_t modulus: `nFrame - 2` wraps around modulo 2^64. */
  const SizeModulus: int := 0x1_0000_0000_0000_0000

  /** The log-pitch a frame's observation list carries (0 when it is empty). */
  function FramePitch(o: seq<(real, real)>): real
  {
    if o == [] then 0.0 else o[0].0
  }

  /**
   * What the segmenter reads per frame: MonoNote's note state, the pitch
   * observations, the frame level, and the onset sensitivity.
   */
  datatype Frames = Frames(
    noteState: seq<nat>, obs: seq<seq<(real, real)>>, level: seq<real>, sensitivity: real)
  {
    /** Every frame of the pitch track has a note state and a level. */
    predicate Consistent()
    {
      |obs| <= |noteState| && |obs| <= |level|
    }

    /**
     * Frame i is voiced when its note state is below 3 (attack or stable
     * part of a note), it carries a pitch, and either it is one of the last
     * two frames or the level two frames ahead does not jump up too much.
     */
    predicate IsVoiced(i: nat)
      requires Consistent() && i < |obs|
    {
      noteState[i] < 3 && |obs[i]| > 0 &&
      (i + 2 >= |obs| || OnsetPasses(level[i], level[i + 2], sensitivity))
    }

    /**
     * The voicing test exactly as written, with `nFrame - 2` computed in
     * size_t. None stands for a read of `m_level` past its end.
     */
    function IsVoicedAsWritten(i: nat): Option<bool>
      requires i < |obs| <= |noteState|
    {
      if !(noteState[i] < 3 && |obs[i]| > 0) then Some(false)
      else if i >= (|obs| - 2) % SizeModulus then Some(true)
      else if i + 2 < |level| then Some(OnsetPasses(level[i], level[i + 2], sensitivity))
      else None
    }

    /** A frame extends the current run: it is voiced and is not the last frame. */
    predicate Extends(i: nat)
      requires Consistent() && i < |obs|
    {
      IsVoiced(i) && i != |obs| - 1
    }

    /**
     * [a, b) is a maximal run of extending frames, closed by the
     * non-extending frame b.
     */
    ghost predicate IsRun(a: int, b: int)
      requires Consistent()
    {
      && 0 <= a < b < |obs|
      && (forall j :: a <= j < b ==> Extends(j))
      && (a == 0 || !Extends(a - 1))
      && !Extends(b)
    }

    /** Frame i closes a run: the frame before it extends one and it does not. */
    predicate Closes(i: nat)
      requires Consistent() && i < |obs|
    {
      i > 0 && Extends(i - 1) && !Extends(i)
    }

    /**
     * The first frame of the run that the extending frame i belongs to: the
     * earliest frame from which every frame up to i extends.
     */
    function RunStart(i: nat): (a: nat)
      requires Consistent() && i < |obs| && Extends(i)
      ensures a <= i && (a == 0 || !Extends(a - 1))
      ensures forall j :: a <= j <= i ==> Extends(j)
    {
      if i == 0 || !Extends(i - 1) then i else RunStart(i - 1)
    }
  }

  /** From two frames on, the test as written and the model agree. */
  lemma VoicingAgreesFromTwoFrames(f: Frames, i: nat)
    requires f.Consistent() && i < |f.obs| && 2 <= |f.obs| < SizeModulus
    ensures f.IsVoicedAsWritten(i) == Some(f.IsVoiced(i))
  {
    assert (|f.obs| - 2) % SizeModulus == |f.obs| - 2;
  }

  /**
   * With a single voiced frame, `nFrame - 2` wraps to 2^64 - 1, the
   * lookahead test is taken, and `m_level[2]` is read out of bounds.
   */
  lemma SingleFrameReadsPastLevel(level: real)
    ensures Frames([0], [[(69.0, VoicedWeight)]], [level], 0.7).IsVoicedAsWritten(0) == None
  {
    assert (1 - 2) % SizeModulus == SizeModulus - 1;
  }

  /**
   * The last frame never extends a run, so every run is closed by the end
   * of the track: the run through an extending frame i is a maximal run
   * closed by some later frame of the track.
   */
  lemma {:induction false} LastFrameClosesRuns(f: Frames, i: nat)
    requires f.Consistent() && i < |f.obs| && f.Extends(i)
    ensures !f.Extends(|f.obs| - 1)
    ensures exists b :: i < b < |f.obs| && f.IsRun(f.RunStart(i), b)
    decreases |f.obs| - i
  {
    if !f.Extends(i + 1) {
      assert f.IsRun(f.RunStart(i), i + 1);
    } else {
      LastFrameClosesRuns(f, i + 1);
      assert f.RunStart(i + 1) == f.RunStart(i);
    }
  }

  /** Two maximal runs that end at the same frame are the same run. */
  lemma RunEndDeterminesStart(f: Frames, a: int, a': int, b: int)
    requires f.Consistent() && f.IsRun(a, b) && f.IsRun(a', b)
    ensures a == a'
  {
  }

  /** The frame before a run's end still extends the run. */
  lemma RunEndFollowsExtendingFrame(f: Frames, a: int, b: int)
    requires f.Consistent() && f.IsRun(a, b)
    ensures b >= 1 && f.Extends(b - 1)
  {
  }

  /** The log-pitches of the frames a .. b-1, in frame order. */
  function RunPitches(obs: seq<seq<(real, real)>>, a: int, b: int): (p: seq<real>)
    requires 0 <= a <= b <= |obs|
    ensures |p| == b - a
    ensures forall k :: 0 <= k < b - a ==> p[k] == FramePitch(obs[a + k])
  {
    if a == b then [] else RunPitches(obs, a, b - 1) + [FramePitch(obs[b - 1])]
  }

  /**
   * The note a run [a, b) yields: onset a * step + offset samples, duration
   * (b - a) * step samples, and the upper median of the run's log-pitches.
   */
  function NoteFor(obs: seq<seq<(real, real)>>, a: int, b: int, step: nat, offset: int): Note
    requires 0 <= a < b <= |obs|
  {
    Note(a * step + offset, (b - a) * step, UpperMedian(RunPitches(obs, a, b)))
  }

  /**
   * `notes` are the notes of exactly those maximal runs that end before
   * frame `upTo` and span at least `minNoteFrames` frames, in frame order;
   * `runs` names each note's run.
   */
  ghost predicate Emitted(
    f: Frames, minNoteFrames: real, step: nat, offset: int,
    upTo: int, notes: seq<Note>, runs: seq<(int, int)>)
    requires f.Consistent()
  {
    && |runs| == |notes|
    && (forall k :: 0 <= k < |runs| ==>
         && f.IsRun(runs[k].0, runs[k].1)
         && runs[k].1 < upTo
         && (runs[k].1 - runs[k].0) as real >= minNoteFrames
         && notes[k] == NoteFor(f.obs, runs[k].0, runs[k].1, step, offset))
    && (forall a, b ::
         (f.IsRun(a, b) && b < upTo && (b - a) as real >= minNoteFrames) ==> (a, b) in runs)
    && (forall k :: 0 <= k < |runs| - 1 ==> runs[k].1 < runs[k + 1].0)
  }

  /** A frame at which no run ends adds no note. */
  lemma EmittedPastNonEnd(
    f: Frames, minNoteFrames: real, step: nat, offset: int,
    i: int, notes: seq<Note>, runs: seq<(int, int)>)
    requires f.Consistent()
    requires Emitted(f, minNoteFrames, step, offset, i, notes, runs)
    requires forall a :: !f.IsRun(a, i)
    ensures Emitted(f, minNoteFrames, step, offset, i + 1, notes, runs)
  {
  }

  /** A run that ends at frame i but is too short adds no note. */
  lemma EmittedPastShortRun(
    f: Frames, minNoteFrames: real, step: nat, offset: int,
    i: int, onset: int, notes: seq<Note>, runs: seq<(int, int)>)
    requires f.Consistent()
    requires Emitted(f, minNoteFrames, step, offset, i, notes, runs)
    requires f.IsRun(onset, i) && !((i - onset) as real >= minNoteFrames)
    ensures Emitted(f, minNoteFrames, step, offset, i + 1, notes, runs)
  {
    forall a | f.IsRun(a, i) ensures a == onset {
      RunEndDeterminesStart(f, a, onset, i);
    }
  }

  /** A long enough run that ends at frame i adds its note, after all earlier ones. */
  lemma EmittedPastLongRun(
    f: Frames, minNoteFrames: real, step: nat, offset: int,
    i: int, onset: int, notes: seq<Note>, runs: seq<(int, int)>)
    requires f.Consistent()
    requires Emitted(f, minNoteFrames, step, offset, i, notes, runs)
    requires f.IsRun(onset, i) && (i - onset) as real >= minNoteFrames
    requires forall k :: 0 <= k < |runs| ==> runs[k].1 < onset
    ensures Emitted(f, minNoteFrames, step, offset, i + 1,
      notes + [NoteFor(f.obs, onset, i, step, offset)], runs + [(onset, i)])
  {
    forall a | f.IsRun(a, i) ensures a == onset {
      RunEndDeterminesStart(f, a, onset, i);
    }
  }

  /** Maximal runs are exactly the spans from a closing frame's run start to that frame. */
  lemma RunsAreClosedSpans(f: Frames, a: int, b: int)
    requires f.Consistent() && 0 <= b < |f.obs|
    ensures f.IsRun(a, b) <==> (f.Closes(b) && a == f.RunStart(b - 1))
  {
    if f.Closes(b) {
      assert f.IsRun(f.RunStart(b - 1), b);
      if f.IsRun(a, b) {
        RunEndDeterminesStart(f, a, f.RunStart(b - 1), b);
      }
    }
  }

  /**
   * The maximal runs closed before frame `upTo` that span at least
   * `minNoteFrames` frames, in frame order.
   */
  function ClosedRuns(f: Frames, minNoteFrames: real, upTo: int): seq<(int, int)>
    requires f.Consistent() && 0 <= upTo <= |f.obs|
  {
    if upTo == 0 then []
    else
      var b := upTo - 1;
      var earlier := ClosedRuns(f, minNoteFrames, b);
      if f.Closes(b) && (b - f.RunStart(b - 1)) as real >= minNoteFrames
      then earlier + [(f.RunStart(b - 1), b)]
      else earlier
  }

  /** The notes of the runs closed before frame `upTo`, one per long enough run. */
  function Segmented(f: Frames, minNoteFrames: real, step: nat, offset: int, upTo: int): seq<Note>
    requires f.Consistent() && 0 <= upTo <= |f.obs|
  {
    if upTo == 0 then []
    else
      var b := upTo - 1;
      var earlier := Segmented(f, minNoteFrames, step, offset, b);
      if f.Closes(b) && (b - f.RunStart(b - 1)) as real >= minNoteFrames
      then earlier + [NoteFor(f.obs, f.RunStart(b - 1), b, step, offset)]
      else earlier
  }

  /**
   * What the segmentation means: its notes are the notes of exactly the
   * maximal runs of at least `minNoteFrames` frames closed before `upTo`,
   * one per run, in frame order.
   */
  lemma {:induction false} SegmentationMeaning(
    f: Frames, minNoteFrames: real, step: nat, offset: int, upTo: int)
    requires f.Consistent() && 0 <= upTo <= |f.obs|
    ensures Emitted(f, minNoteFrames, step, offset, upTo,
      Segmented(f, minNoteFrames, step, offset, upTo), ClosedRuns(f, minNoteFrames, upTo))
  {
    if upTo > 0 {
      var b := upTo - 1;
      var notes := Segmented(f, minNoteFrames, step, offset, b);
      var runs := ClosedRuns(f, minNoteFrames, b);
      SegmentationMeaning(f, minNoteFrames, step, offset, b);
      if f.Closes(b) {
        var a := f.RunStart(b - 1);
        RunsAreClosedSpans(f, a, b);
        if (b - a) as real >= minNoteFrames {
          forall k | 0 <= k < |runs| ensures runs[k].1 < a {
            assert !f.Extends(runs[k].1);
          }
          EmittedPastLongRun(f, minNoteFrames, step, offset, b, a, notes, runs);
        } else {
          EmittedPastShortRun(f, minNoteFrames, step, offset, b, a, notes, runs);
        }
      } else {
        forall a | f.IsRun(a, b) ensures false {
          RunsAreClosedSpans(f, a, b);
        }
        EmittedPastNonEnd(f, minNoteFrames, step, offset, b, notes, runs);
      }
    }
  }

  /** Notes of runs in increasing frame order do not overlap. */
  lemma NotesInOrder(
    f: Frames, minNoteFrames: real, step: nat, offset: int,
    upTo: int, notes: seq<Note>, runs: seq<(int, int)>)
    requires f.Consistent()
    requires Emitted(f, minNoteFrames, step, offset, upTo, notes, runs)
    ensures forall k :: 0 <= k < |notes| - 1 ==> notes[k].start + notes[k].duration <= notes[k + 1].start
  {
    forall k | 0 <= k < |notes| - 1
      ensures notes[k].start + notes[k].duration <= notes[k + 1].start
    {
      var a, b, c := runs[k].0, runs[k].1, runs[k + 1].0;
      assert a * step + (b - a) * step == b * step;
      MultiplyMonotone(b, c, step);
    }
  }

  lemma MultiplyMonotone(b: int, c: int, step: nat)
    requires b <= c
    ensures b * step <= c * step
  {
  }

  /**
   * A note's median log-pitch: the run's log-pitches are copied into a
   * buffer, sorted in place, and the element at index size / 2 is taken.
   */
  method MedianPitch(pitches: seq<real>) returns (median: real)
    requires |pitches| > 0
    ensures median == UpperMedian(pitches)
  {
    var buffer := new real[|pitches|](k requires 0 <= k < |pitches| => pitches[k]);
    assert buffer[..] == pitches;
    SortInPlace(buffer);
    median := buffer[buffer.Length / 2];
  }

  /**
   * The open run just before frame i: frame i-1 extends a run that starts
   * at `onset`, and `pitches` holds the log-pitches of frames onset .. i-1.
   */
  predicate OpenRunAt(f: Frames, i: int, onset: int, pitches: seq<real>)
    requires f.Consistent() && 0 < i <= |f.obs|
  {
    f.Extends(i - 1) && onset == f.RunStart(i - 1) && pitches == RunPitches(f.obs, onset, i)
  }

  /**
   * An extending frame closes no run and grows the open run, or opens one
   * at this frame when the frame before was not voiced.
   */
  lemma ExtendingFrame(
    f: Frames, minNoteFrames: real, step: nat, offset: int,
    i: int, voicedBefore: bool, onset: int, pitches: seq<real>)
    requires f.Consistent() && 0 <= i < |f.obs| && f.Extends(i)
    requires voicedBefore == (i > 0 && f.IsVoiced(i - 1))
    requires voicedBefore ==> OpenRunAt(f, i, onset, pitches)
    requires !voicedBefore ==> pitches == []
    ensures OpenRunAt(f, i + 1, if voicedBefore then onset else i, pitches + [FramePitch(f.obs[i])])
    ensures Segmented(f, minNoteFrames, step, offset, i + 1) == Segmented(f, minNoteFrames, step, offset, i)
  {
    var onset' := if voicedBefore then onset else i;
    assert RunPitches(f.obs, onset', i + 1) == RunPitches(f.obs, onset', i) + [FramePitch(f.obs[i])];
  }

  /**
   * A frame that does not extend the open run closes it; the run adds its
   * note (onset, duration, upper median log-pitch) when it spans
   * at least `minNoteFrames` frames.
   */
  lemma ClosingFrame(
    f: Frames, minNoteFrames: real, step: nat, offset: int,
    i: int, onset: int, pitches: seq<real>)
    requires f.Consistent() && 0 < i < |f.obs| && !f.Extends(i) && OpenRunAt(f, i, onset, pitches)
    ensures f.Closes(i) && |pitches| == i - onset > 0
    ensures Segmented(f, minNoteFrames, step, offset, i + 1) ==
      Segmented(f, minNoteFrames, step, offset, i) +
      if |pitches| as real >= minNoteFrames
      then [Note(onset * step + offset, (i - onset) * step, UpperMedian(pitches))]
      else []
  {
  }

  /** A frame after a non-extending one that does not extend either adds no note. */
  lemma IdleFrame(
    f: Frames, minNoteFrames: real, step: nat, offset: int, i: int)
    requires f.Consistent() && 0 <= i < |f.obs| && (i == 0 || !f.Extends(i - 1))
    ensures Segmented(f, minNoteFrames, step, offset, i + 1) == Segmented(f, minNoteFrames, step, offset, i)
  {
  }

  /**
   * The segmentation loop. Its notes are the reference segmentation
   * `Segmented`: by `SegmentationMeaning` and `NotesInOrder`, exactly the
   * maximal runs of at least `minNoteFrames` frames, one note per run, in
   * increasing and non-overlapping order.
   */
  method SegmentNotes(f: Frames, minNoteFrames: real, step: nat, offset: int)
    returns (notes: seq<Note>)
    requires f.Consistent()
    ensures notes == Segmented(f, minNoteFrames, step, offset, |f.obs|)
  {
    var nFrame := |f.obs|;
    notes := [];
    var onsetFrame := 0;
    var isVoiced := false;
    var oldIsVoiced := false;
    var notePitchTrack: seq<real> := [];
    var iFrame := 0;
    while iFrame < nFrame
      invariant 0 <= iFrame <= nFrame
      invariant oldIsVoiced == (iFrame > 0 && f.IsVoiced(iFrame - 1))
      invariant oldIsVoiced && iFrame < nFrame ==> OpenRunAt(f, iFrame, onsetFrame, notePitchTrack)
      invariant !oldIsVoiced ==> notePitchTrack == []
      invariant notes == Segmented(f, minNoteFrames, step, offset, iFrame)
    {
      isVoiced := f.IsVoiced(iFrame);
      if isVoiced && iFrame != nFrame - 1 {
        ExtendingFrame(f, minNoteFrames, step, offset, iFrame, oldIsVoiced, onsetFrame, notePitchTrack);
        if !oldIsVoiced {
          onsetFrame := iFrame;
        }
        notePitchTrack := notePitchTrack + [f.obs[iFrame][0].0];
      } else if oldIsVoiced {
        ClosingFrame(f, minNoteFrames, step, offset, iFrame, onsetFrame, notePitchTrack);
        if |notePitchTrack| as real >= minNoteFrames {
          var medianPitch := MedianPitch(notePitchTrack);
          notes := notes + [Note(onsetFrame * step + offset, (iFrame - onsetFrame) * step, medianPitch)];
        }
        notePitchTrack := [];
      } else {
        IdleFrame(f, minNoteFrames, step, offset, iFrame);
      }
      oldIsVoiced := isVoiced;
      iFrame := iFrame + 1;
    }
  }
}
