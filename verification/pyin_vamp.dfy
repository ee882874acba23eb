/**
 * The pYIN plugin session (PYinVamp.cpp): parameters, the per-block
 * process step (probabilistic YIN, amplitude gate, pitch HMM feeding,
 * fixed-lag window), the end-of-stream flush and note segmentation.
 *
 * Timestamps are counted in samples. Every value the session obtains from
 * code outside this model arrives as a parameter of the call that uses it:
 *   - YIN's kernels (see the YinEstimator module): `peakProb`, `lags`, `yinRms`;
 *   - the block RMS, whose square is the block's mean square as the source
 *     computes it (`MeanSquareAsWritten`, with the int accumulator);
 *   - the pitch HMM: the decoded frequency (`decodedFreq`) of the frame it
 *     reports in fixed-lag mode, and the decoded track (`decoded`) at the end;
 *   - MonoNote: the per-frame note states;
 *   - the conversions Hz -> MIDI log-pitch (`logPitch`) and back (`toHz`).
 * The HMM itself is modelled by the log of the observation lists it is fed.
 */
module PYin {
  import opened Common
  import opened YinEstimator
  import opened AmplitudeGate
  import opened FixedLagWindow
  import opened OutputPolicy
  import opened NoteSegmentation

  /** One feature of a non-note output: a timestamp and its values. */
  datatype Feature = Feature(timestamp: int, values: seq<real>)

  /** The features one call returns, per output. */
  datatype FeatureSet = FeatureSet(
    f0Candidates: seq<Feature>,
    f0Probs: seq<Feature>,
    voicedProb: seq<Feature>,
    candidateSalience: seq<Feature>,
    smoothedPitchTrack: seq<Feature>,
    notes: seq<NoteFeature>)

  /** A note feature: onset and duration in samples, and the frequency in Hz. */
  datatype NoteFeature = NoteFeature(timestamp: int, duration: int, frequency: real)

  /** The note features of segmented notes: each median log-pitch converted to Hz. */
  function NoteFeatures(notes: seq<Note>, toHz: real -> real): seq<NoteFeature>
  {
    seq(|notes|, k requires 0 <= k < |notes| => NoteFeature(notes[k].start, notes[k].duration, toHz(notes[k].pitch)))
  }

  const NoFeatures: FeatureSet := FeatureSet([], [], [], [], [], [])

  /** A call into the pitch HMM, with the observation list it was given. */
  datatype HmmCall = Initialise(obs: seq<(real, real)>) | Step(obs: seq<(real, real)>)

  /** The HMM's lag when fixed-lag smoothing is on at reset; 0 means full Viterbi. */
  const SmoothingLag: nat := 100

  /** The parameter identifiers the plugin answers to. */
  predicate IsParameterId(identifier: string)
  {
    identifier in {"threshdistr", "fixedlag", "outputunvoiced", "precisetime",
                   "lowampsuppression", "onsetsensitivity", "prunethresh"}
  }

  /** Candidate frequencies and probabilities, paired back up. */
  function Pairs(freqs: seq<real>, probs: seq<real>): (p: seq<(real, real)>)
    requires |freqs| == |probs|
    ensures |p| == |freqs|
    ensures forall k :: 0 <= k < |p| ==> p[k].0 == freqs[k] && p[k].1 == probs[k]
  {
    seq(|freqs|, k requires 0 <= k < |freqs| => (freqs[k], probs[k]))
  }

  /**
   * What the HMM is fed for a frame: one (log-pitch, gated probability)
   * pair per candidate, in candidate order.
   */
  ghost predicate IsGated(
    obs: seq<(real, real)>, freqs: seq<real>, probs: seq<real>, rms: real, lowAmp: real, logPitch: real -> real)
    requires rms >= 0.0
  {
    && |obs| == |freqs| == |probs|
    && forall k :: 0 <= k < |obs| ==> obs[k] == (logPitch(freqs[k]), Gate(probs[k], rms, lowAmp))
  }

  /** Splitting a candidate list into its two halves and pairing them back gives it again. */
  lemma PairsOfComponents(freqProb: seq<(real, real)>, freqs: seq<real>, probs: seq<real>)
    requires |freqs| == |probs| == |freqProb|
    requires forall k :: 0 <= k < |freqProb| ==> freqs[k] == freqProb[k].0 && probs[k] == freqProb[k].1
    ensures Pairs(freqs, probs) == freqProb
  {
  }

  /** The sum of a sequence, accumulated from the front. */
  function Sum(s: seq<real>): real
  {
    if s == [] then 0.0 else Sum(s[..|s| - 1]) + s[|s| - 1]
  }

  /** A sum of positive terms is positive exactly when there is a term. */
  lemma {:induction false} SumOfPositives(s: seq<real>)
    requires forall k :: 0 <= k < |s| ==> s[k] > 0.0
    ensures Sum(s) >= 0.0
    ensures Sum(s) > 0.0 <==> |s| > 0
  {
    if s != [] {
      SumOfPositives(s[..|s| - 1]);
    }
  }

  /**
   * The smoothed-pitch features a decoded track yields, frame by frame,
   * under the output mode: dropped frames leave no feature.
   */
  function ReportedFeatures(timestamps: seq<int>, freqs: seq<real>, outputUnvoiced: real): (r: seq<Feature>)
    requires |timestamps| == |freqs|
    ensures |r| <= |freqs|
  {
    if freqs == [] then []
    else
      var n := |freqs| - 1;
      var earlier := ReportedFeatures(timestamps[..n], freqs[..n], outputUnvoiced);
      match ReportedValue(freqs[n], outputUnvoiced)
      case None => earlier
      case Some(v) => earlier + [Feature(timestamps[n], [v])]
  }

  /**
   * Outside mode 0 every frame is reported, at its own timestamp; in modes
   * 0 and 1 no reported frequency is negative.
   */
  lemma {:induction false} ReportedFeaturesShape(timestamps: seq<int>, freqs: seq<real>, outputUnvoiced: real)
    requires |timestamps| == |freqs|
    ensures outputUnvoiced != 0.0 ==>
      && |ReportedFeatures(timestamps, freqs, outputUnvoiced)| == |freqs|
      && forall k :: 0 <= k < |freqs| ==> ReportedFeatures(timestamps, freqs, outputUnvoiced)[k].timestamp == timestamps[k]
    ensures outputUnvoiced == 0.0 || outputUnvoiced == 1.0 ==>
      forall k :: 0 <= k < |ReportedFeatures(timestamps, freqs, outputUnvoiced)| ==>
        |ReportedFeatures(timestamps, freqs, outputUnvoiced)[k].values| == 1 &&
        ReportedFeatures(timestamps, freqs, outputUnvoiced)[k].values[0] >= 0.0
  {
    if freqs != [] {
      var n := |freqs| - 1;
      ReportedFeaturesShape(timestamps[..n], freqs[..n], outputUnvoiced);
    }
  }

  /** The F0-candidates feature: each candidate's frequency, in order. */
  method CandidateFrequencies(freqProb: seq<(real, real)>) returns (values: seq<real>)
    ensures |values| == |freqProb|
    ensures forall k :: 0 <= k < |freqProb| ==> values[k] == freqProb[k].0
  {
    values := [];
    var i := 0;
    while i < |freqProb|
      invariant 0 <= i <= |freqProb|
      invariant |values| == i
      invariant forall k :: 0 <= k < i ==> values[k] == freqProb[k].0
    {
      values := values + [freqProb[i].0];
      i := i + 1;
    }
  }

  /**
   * The F0-probabilities feature and the voiced probability: each
   * candidate's probability in order, and their sum; with positive
   * probabilities the sum is positive exactly when there is a candidate.
   */
  method CandidateProbabilities(freqProb: seq<(real, real)>) returns (values: seq<real>, voicedProb: real)
    ensures |values| == |freqProb|
    ensures forall k :: 0 <= k < |freqProb| ==> values[k] == freqProb[k].1
    ensures voicedProb == Sum(values)
    ensures (forall k :: 0 <= k < |freqProb| ==> freqProb[k].1 > 0.0) ==>
      (voicedProb > 0.0 <==> |freqProb| > 0)
  {
    values := [];
    voicedProb := 0.0;
    var i := 0;
    while i < |freqProb|
      invariant 0 <= i <= |freqProb|
      invariant |values| == i
      invariant forall k :: 0 <= k < i ==> values[k] == freqProb[k].1
      invariant voicedProb == Sum(values)
    {
      values := values + [freqProb[i].1];
      assert values[..i] == values[..|values| - 1];
      voicedProb := voicedProb + freqProb[i].1;
      i := i + 1;
    }
    if forall k :: 0 <= k < |freqProb| ==> freqProb[k].1 > 0.0 {
      SumOfPositives(values);
    }
  }

  /** The salience feature: the per-lag curve, copied in order. */
  method SalienceValues(salience: seq<real>) returns (values: seq<real>)
    ensures values == salience
  {
    values := [];
    var i := 0;
    while i < |salience|
      invariant 0 <= i <= |salience|
      invariant values == salience[..i]
    {
      values := values + [salience[i]];
      i := i + 1;
    }
    assert salience[..|salience|] == salience;
  }

  /**
   * The per-frame part of `process`, from one YIN output: what the HMM is
   * fed, and the candidate, probability, voiced-probability and salience
   * features, all at the frame's timestamp.
   */
  method FrameFeatures(
    freqProb: seq<(real, real)>, yinSalience: seq<real>, stamp: int, rms: real, lowAmp: real, logPitch: real -> real)
    returns (obs: seq<(real, real)>, candidates: Feature, probs: Feature, voicedProb: Feature, salience: Feature)
    requires rms >= 0.0
    requires forall k :: 0 <= k < |freqProb| ==> freqProb[k].1 > 0.0
    ensures candidates.timestamp == stamp && probs.timestamp == stamp
    ensures voicedProb.timestamp == stamp && salience.timestamp == stamp
    ensures |candidates.values| == |probs.values| && Pairs(candidates.values, probs.values) == freqProb
    ensures IsGated(obs, candidates.values, probs.values, rms, lowAmp, logPitch)
    ensures voicedProb.values == [Sum(probs.values)]
    ensures voicedProb.values[0] > 0.0 <==> |candidates.values| > 0
    ensures salience.values == yinSalience
  {
    obs := GateCandidates(freqProb, rms, lowAmp, logPitch);
    var freqs := CandidateFrequencies(freqProb);
    var probValues, sum := CandidateProbabilities(freqProb);
    PairsOfComponents(freqProb, freqs, probValues);
    var salienceValues := SalienceValues(yinSalience);
    candidates := Feature(stamp, freqs);
    probs := Feature(stamp, probValues);
    voicedProb := Feature(stamp, [sum]);
    salience := Feature(stamp, salienceValues);
  }

  /**
   * The smoothed-pitch loop of `getRemainingFeatures`: each decoded frame
   * in turn, at its timestamp, kept or dropped under the output mode.
   */
  method ReportTrack(timestamps: seq<int>, decoded: seq<real>, outputUnvoiced: real) returns (smoothed: seq<Feature>)
    requires |timestamps| == |decoded|
    ensures smoothed == ReportedFeatures(timestamps, decoded, outputUnvoiced)
  {
    smoothed := [];
    var iFrame := 0;
    while iFrame < |decoded|
      invariant 0 <= iFrame <= |decoded|
      invariant smoothed == ReportedFeatures(timestamps[..iFrame], decoded[..iFrame], outputUnvoiced)
    {
      var freq := decoded[iFrame];
      assert timestamps[..iFrame + 1][..iFrame] == timestamps[..iFrame];
      assert decoded[..iFrame + 1][..iFrame] == decoded[..iFrame];
      var reported := ReportedValue(freq, outputUnvoiced);
      if reported.Some? {
        smoothed := smoothed + [Feature(timestamps[iFrame], [reported.value])];
      }
      iFrame := iFrame + 1;
    }
    assert decoded[..|decoded|] == decoded && timestamps[..|timestamps|] == timestamps;
  }

  class PYinVamp {
    const inputSampleRate: real
    const yin: Yin
    var channels: nat
    var stepSize: nat
    var blockSize: nat
    var threshDistr: real
    var fixedLag: real
    var outputUnvoiced: real
    var preciseTime: real
    var lowAmp: real
    var onsetSensitivity: real
    var pruneThresh: real
    /** The lag the current pitch HMM was built with. */
    var hmmLag: nat
    var hmmCalls: seq<HmmCall>
    /** Per-frame gated candidates and timestamps still held by the window. */
    var pitchProb: seq<seq<(real, real)>>
    var timestamp: seq<int>
    /** One YIN level per processed block. */
    var level: seq<real>
    /** Decoded frequencies of the frames already reported. */
    var pitchTrack: seq<real>

    /**
     * YIN works on blocks of the session's size; the window deques move
     * together; every processed frame is either still in the window or
     * already decoded.
     */
    ghost predicate Valid()
      reads this, yin
    {
      && yin.Valid()
      && yin.frameSize == blockSize
      && |pitchProb| == |timestamp|
      && |pitchTrack| + |timestamp| == |level|
    }

    /** The analysis point within a block: its middle when timing is precise, else its first quarter. */
    function AnalysisOffset(): (r: nat)
      reads this
      ensures r <= blockSize / 2
    {
      if preciseTime == 1.0 then blockSize / 2 else blockSize / 4
    }

    /** The value `getParameter` reports; unknown identifiers give 0. */
    function GetParameter(identifier: string): (v: real)
      reads this
      ensures !IsParameterId(identifier) ==> v == 0.0
    {
      if identifier == "threshdistr" then threshDistr
      else if identifier == "fixedlag" then fixedLag
      else if identifier == "outputunvoiced" then outputUnvoiced
      else if identifier == "precisetime" then preciseTime
      else if identifier == "lowampsuppression" then lowAmp
      else if identifier == "onsetsensitivity" then onsetSensitivity
      else if identifier == "prunethresh" then pruneThresh
      else 0.0
    }

    /** A new session: default parameters, 256-sample steps over 2048-sample blocks. */
    constructor (inputSampleRate: real)
      requires inputSampleRate > 0.0
      ensures this.inputSampleRate == inputSampleRate
      ensures Valid() && fresh(yin)
      ensures channels == 0 && stepSize == 256 && blockSize == 2048
      ensures yin.inputSampleRate == TruncateToUnsigned(inputSampleRate) && yin.thresh == 0.0
      ensures threshDistr == 2.0 && fixedLag == 1.0 && outputUnvoiced == 0.0 && preciseTime == 0.0
      ensures lowAmp == 0.1 && onsetSensitivity == 0.7 && pruneThresh == 0.1
      ensures hmmLag == 0 && hmmCalls == []
      ensures pitchProb == [] && timestamp == [] && level == [] && pitchTrack == []
    {
      this.inputSampleRate := inputSampleRate;
      channels := 0;
      stepSize := 256;
      blockSize := 2048;
      yin := new Yin(2048, TruncateToUnsigned(inputSampleRate), 0.0, false);
      threshDistr := 2.0;
      fixedLag := 1.0;
      outputUnvoiced := 0.0;
      preciseTime := 0.0;
      lowAmp := 0.1;
      onsetSensitivity := 0.7;
      pruneThresh := 0.1;
      hmmLag := 0;
      hmmCalls := [];
      pitchProb := [];
      timestamp := [];
      level := [];
      pitchTrack := [];
    }

    /**
     * `setParameter`: a known identifier takes the value, and reading any
     * identifier back afterwards gives the new value for that one and the
     * old value for every other.
     */
    method SetParameter(identifier: string, value: real)
      modifies this
      ensures forall id :: GetParameter(id) == (if id == identifier && IsParameterId(id) then value else old(GetParameter(id)))
      ensures channels == old(channels) && stepSize == old(stepSize) && blockSize == old(blockSize)
      ensures hmmLag == old(hmmLag) && hmmCalls == old(hmmCalls)
      ensures pitchProb == old(pitchProb) && timestamp == old(timestamp)
      ensures level == old(level) && pitchTrack == old(pitchTrack)
      ensures Valid() == old(Valid())
    {
      if identifier == "threshdistr" {
        threshDistr := value;
      }
      if identifier == "fixedlag" {
        fixedLag := value;
      }
      if identifier == "outputunvoiced" {
        outputUnvoiced := value;
      }
      if identifier == "precisetime" {
        preciseTime := value;
      }
      if identifier == "lowampsuppression" {
        lowAmp := value;
      }
      if identifier == "onsetsensitivity" {
        onsetSensitivity := value;
      }
      if identifier == "prunethresh" {
        pruneThresh := value;
      }
    }

    /**
     * `reset`: hand the current parameters to YIN, rebuild the pitch HMM
     * (lag 100 under fixed-lag smoothing, else 0) and empty every per-frame
     * store. Parameters are left alone.
     */
    method Reset()
      requires yin.Valid()
      requires threshDistr > -1.0
      modifies this, yin
      ensures Valid()
      ensures yin.threshDistr == TruncateToUnsigned(old(threshDistr))
      ensures yin.frameSize == blockSize && yin.fast == (preciseTime == 0.0)
      ensures yin.thresh == old(yin.thresh) && yin.inputSampleRate == old(yin.inputSampleRate)
      ensures hmmLag == (if fixedLag > 0.5 then SmoothingLag else 0) && hmmCalls == []
      ensures pitchProb == [] && timestamp == [] && level == [] && pitchTrack == []
      ensures channels == old(channels) && stepSize == old(stepSize) && blockSize == old(blockSize)
      ensures ParametersUnchanged()
    {
      yin.SetThresholdDistr(threshDistr);
      yin.SetFrameSize(blockSize);
      yin.SetFast(preciseTime == 0.0);
      if fixedLag > 0.5 {
        hmmLag := SmoothingLag;
      } else {
        hmmLag := 0;
      }
      hmmCalls := [];
      pitchProb := [];
      timestamp := [];
      level := [];
      pitchTrack := [];
    }

    /**
     * `initialise`: only a single channel is accepted; then the step and
     * block sizes are taken and the session is reset. A refused call
     * changes nothing.
     */
    method Initialise(channels: nat, stepSize: nat, blockSize: nat) returns (ok: bool)
      requires yin.Valid()
      requires threshDistr > -1.0
      modifies this, yin
      ensures ok <==> channels == 1
      ensures ok ==> Valid() && this.channels == channels && this.stepSize == stepSize && this.blockSize == blockSize
      ensures ok ==> yin.frameSize == blockSize && yin.threshDistr == TruncateToUnsigned(old(threshDistr))
      ensures ok ==> yin.fast == (preciseTime == 0.0)
      ensures ok ==> hmmLag == (if fixedLag > 0.5 then SmoothingLag else 0) && hmmCalls == []
      ensures ok ==> pitchProb == [] && timestamp == [] && level == [] && pitchTrack == []
      ensures !ok ==> this.channels == old(this.channels) && this.stepSize == old(this.stepSize)
      ensures !ok ==> this.blockSize == old(this.blockSize) && hmmLag == old(hmmLag) && hmmCalls == old(hmmCalls)
      ensures !ok ==> pitchProb == old(pitchProb) && timestamp == old(timestamp)
      ensures !ok ==> level == old(level) && pitchTrack == old(pitchTrack)
      ensures !ok ==> unchanged(yin)
      ensures ParametersUnchanged()
    {
      if channels < 1 || channels > 1 {
        return false;
      }
      this.channels := channels;
      this.stepSize := stepSize;
      this.blockSize := blockSize;
      Reset();
      return true;
    }

    /** Neither the parameters nor the sizes nor the HMM's lag change. */
    twostate predicate SettingsUnchanged()
      reads this
    {
      && channels == old(channels) && stepSize == old(stepSize) && blockSize == old(blockSize)
      && ParametersUnchanged()
      && hmmLag == old(hmmLag)
    }

    /** The seven user parameters, so every value GetParameter reports, are unchanged. */
    twostate predicate ParametersUnchanged()
      reads this
    {
      && threshDistr == old(threshDistr) && fixedLag == old(fixedLag) && outputUnvoiced == old(outputUnvoiced)
      && preciseTime == old(preciseTime) && lowAmp == old(lowAmp)
      && onsetSensitivity == old(onsetSensitivity) && pruneThresh == old(pruneThresh)
    }

    /**
     * One frame enters the HMM and the window (the middle of `process`):
     * the HMM is initialised when the window is empty and stepped
     * otherwise; the frame is pushed; in fixed-lag mode a window of lag + 1
     * frames pops its front, the decoded frequency joins the pitch track,
     * and it is reported at the new front's timestamp under the output mode.
     */
    method PushFrame(obs: seq<(real, real)>, stamp: int, decodedFreq: real) returns (smoothed: seq<Feature>)
      requires |pitchProb| == |timestamp|
      requires fixedLag > 0.5 ==> hmmLag > 0
      modifies this
      ensures hmmCalls == old(hmmCalls) + [if old(timestamp) == [] then HmmCall.Initialise(obs) else HmmCall.Step(obs)]
      ensures pitchProb == Slide(old(pitchProb), obs, hmmLag, fixedLag > 0.5)
      ensures timestamp == Slide(old(timestamp), stamp, hmmLag, fixedLag > 0.5)
      ensures Pops(old(timestamp), hmmLag, fixedLag > 0.5) ==>
        && |timestamp| > 0
        && pitchTrack == old(pitchTrack) + [decodedFreq]
        && smoothed == ReportedFeatures(timestamp[..1], [decodedFreq], outputUnvoiced)
      ensures !Pops(old(timestamp), hmmLag, fixedLag > 0.5) ==> pitchTrack == old(pitchTrack) && smoothed == []
      ensures level == old(level) && SettingsUnchanged()
    {
      if timestamp == [] {
        hmmCalls := hmmCalls + [HmmCall.Initialise(obs)];
      } else {
        hmmCalls := hmmCalls + [HmmCall.Step(obs)];
      }
      pitchProb := pitchProb + [obs];
      timestamp := timestamp + [stamp];

      smoothed := [];
      if fixedLag > 0.5 {
        if |timestamp| == hmmLag + 1 {
          timestamp := timestamp[1..];
          pitchProb := pitchProb[1..];
          var freq := decodedFreq;
          pitchTrack := pitchTrack + [freq];
          var reported := ReportedValue(freq, outputUnvoiced);
          if reported.Some? {
            smoothed := [Feature(timestamp[0], [reported.value])];
          }
          assert [decodedFreq][..0] == [] && timestamp[..1][..0] == [];
        }
      }
    }

    /**
     * `process` for one block starting at sample `t`. The frame's
     * candidates are gated by the block RMS and fed to the HMM (initialised
     * on the first frame of the window, stepped after), the frame enters the
     * window, and in fixed-lag mode a full window pops its front and reports
     * the decoded frequency at the new front's timestamp. Every call also
     * reports the candidates, their probabilities, their sum and the salience.
     */
    method Process(
      block: seq<real>, t: int, rms: real,
      peakProb: seq<real>, lags: seq<real>, yinRms: real,
      logPitch: real -> real, decodedFreq: real)
      returns (fs: FeatureSet)
      requires Valid()
      requires |block| == blockSize > 0
      requires rms >= 0.0 && rms * rms == MeanSquareAsWritten(block)
      requires |peakProb| >= yin.yinBufferSize && |lags| >= yin.yinBufferSize
      requires forall i :: 0 <= i < yin.yinBufferSize && peakProb[i] > 0.0 ==> lags[i] != 0.0
      requires fixedLag > 0.5 ==> hmmLag > 0
      modifies this
      ensures Valid()
      ensures var stamp := t + AnalysisOffset();
        && |fs.f0Candidates| == 1 && |fs.f0Probs| == 1 && |fs.voicedProb| == 1 && |fs.candidateSalience| == 1
        && fs.f0Candidates[0].timestamp == stamp && fs.f0Probs[0].timestamp == stamp
        && fs.voicedProb[0].timestamp == stamp && fs.candidateSalience[0].timestamp == stamp
        && fs.notes == []
      ensures |fs.f0Candidates[0].values| == |fs.f0Probs[0].values|
      ensures IsCandidateList(
        Pairs(fs.f0Candidates[0].values, fs.f0Probs[0].values), peakProb, yin.yinBufferSize, lags, yin.inputSampleRate)
      ensures fs.voicedProb[0].values == [Sum(fs.f0Probs[0].values)]
      ensures fs.voicedProb[0].values[0] > 0.0 <==> |fs.f0Candidates[0].values| > 0
      ensures fs.candidateSalience[0].values == peakProb[..yin.yinBufferSize]
      ensures level == old(level) + [yinRms]
      ensures |hmmCalls| == |old(hmmCalls)| + 1 && hmmCalls[..|old(hmmCalls)|] == old(hmmCalls)
      ensures var call := hmmCalls[|old(hmmCalls)|];
        && (call.Initialise? <==> old(timestamp) == [])
        && IsGated(call.obs, fs.f0Candidates[0].values, fs.f0Probs[0].values, rms, lowAmp, logPitch)
        && pitchProb == Slide(old(pitchProb), call.obs, hmmLag, fixedLag > 0.5)
      ensures timestamp == Slide(old(timestamp), t + AnalysisOffset(), hmmLag, fixedLag > 0.5)
      ensures timestamp != [] && |fs.smoothedPitchTrack| <= 1
      ensures Pops(old(timestamp), hmmLag, fixedLag > 0.5) ==>
        && pitchTrack == old(pitchTrack) + [decodedFreq]
        && |timestamp| > 0
        && fs.smoothedPitchTrack == ReportedFeatures(timestamp[..1], [decodedFreq], outputUnvoiced)
      ensures !Pops(old(timestamp), hmmLag, fixedLag > 0.5) ==>
        pitchTrack == old(pitchTrack) && fs.smoothedPitchTrack == []
      ensures SettingsUnchanged()
    {
      var offset := AnalysisOffset();
      var stamp := t + offset;
      var yo := yin.ProcessProbabilisticYin(peakProb, lags, yinRms);
      level := level + [yo.rms];
      var tempPitchProb, candidates, probs, voicedProb, salience :=
        FrameFeatures(yo.freqProb, yo.salience, stamp, rms, lowAmp, logPitch);
      var smoothed := PushFrame(tempPitchProb, stamp, decodedFreq);
      fs := FeatureSet([candidates], [probs], [voicedProb], [salience], smoothed, []);
    }

    /** Notes must span at least this many frames: the pruning duration in frames. */
    function MinNoteFrames(): real
      reads this
      requires stepSize > 0
    {
      (inputSampleRate * pruneThresh) / (stepSize as real)
    }

    /**
     * `addNoteFeatures`: the note features of the whole pitch track, each a
     * maximal voiced run of at least MinNoteFrames() frames, in frame order
     * and without overlap.
     */
    method AddNoteFeatures(noteStates: seq<nat>, logPitch: real -> real, toHz: real -> real)
      returns (notes: seq<NoteFeature>)
      requires |pitchTrack| <= |noteStates| && |pitchTrack| <= |level|
      requires stepSize > 0
      ensures notes == NoteFeatures(Segmented(
        Frames(noteStates, ObservationsOf(pitchTrack, logPitch), level, onsetSensitivity),
        MinNoteFrames(), stepSize, AnalysisOffset(), |pitchTrack|), toHz)
      ensures forall k :: 0 <= k < |notes| - 1 ==> notes[k].timestamp + notes[k].duration <= notes[k + 1].timestamp
    {
      var smoothedPitch := PitchObservations(pitchTrack, logPitch);
      var minNoteFrames := (inputSampleRate * pruneThresh) / (stepSize as real);
      var offset := AnalysisOffset();
      var f := Frames(noteStates, smoothedPitch, level, onsetSensitivity);
      var segmented := SegmentNotes(f, minNoteFrames, stepSize, offset);
      SegmentationMeaning(f, minNoteFrames, stepSize, offset, |smoothedPitch|);
      NotesInOrder(f, minNoteFrames, stepSize, offset, |smoothedPitch|, segmented, ClosedRuns(f, minNoteFrames, |smoothedPitch|));
      notes := NoteFeatures(segmented, toHz);
    }

    /**
     * `getRemainingFeatures`: with no frame in the window nothing happens.
     * Otherwise every frame still in the window gets its decoded frequency
     * appended to the pitch track and reported under the output mode, and
     * the notes of the whole track are added.
     */
    method GetRemainingFeatures(decoded: seq<real>, noteStates: seq<nat>, logPitch: real -> real, toHz: real -> real)
      returns (fs: FeatureSet)
      requires Valid()
      requires |decoded| == |timestamp|
      requires |pitchTrack| + |decoded| <= |noteStates|
      requires pitchProb != [] ==> stepSize > 0
      modifies this
      ensures pitchProb == old(pitchProb) && timestamp == old(timestamp) && level == old(level)
      ensures hmmCalls == old(hmmCalls) && SettingsUnchanged()
      ensures old(pitchProb) == [] ==> fs == NoFeatures && pitchTrack == old(pitchTrack)
      ensures old(pitchProb) != [] ==>
        && pitchTrack == old(pitchTrack) + decoded
        && |pitchTrack| == |level|
        && fs.f0Candidates == [] && fs.f0Probs == [] && fs.voicedProb == [] && fs.candidateSalience == []
        && fs.smoothedPitchTrack == ReportedFeatures(timestamp, decoded, outputUnvoiced)
        && fs.notes == NoteFeatures(Segmented(
             Frames(noteStates, ObservationsOf(pitchTrack, logPitch), level, onsetSensitivity),
             MinNoteFrames(), stepSize, AnalysisOffset(), |pitchTrack|), toHz)
    {
      if pitchProb == [] {
        return NoFeatures;
      }
      var smoothed := ReportTrack(timestamp, decoded, outputUnvoiced);
      pitchTrack := pitchTrack + decoded;
      var notes := AddNoteFeatures(noteStates, logPitch, toHz);
      fs := FeatureSet([], [], [], [], smoothed, notes);
    }
  }
}
