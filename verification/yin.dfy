/**
 * The YIN frame processor (Yin.cpp): turns one frame's normalised
 * difference curve into an f0 estimate (classic YIN) or into a salience
 * curve plus a compact list of (frequency, probability) candidates
 * (probabilistic YIN).
 *
 * The numeric kernels of YinUtil are not part of this model. Each call
 * receives what they would have produced for the frame:
 *   - `yinBuffer`: the cumulative-mean-normalised difference curve;
 *   - `peakProb`: the per-lag probabilities of `yinProb`;
 *   - `tau`: the signed lag chosen by `absoluteThreshold`;
 *   - `lags[i]`: the fractional lag `parabolicInterpolation` refines lag i to;
 *   - `rms`: the frame's root mean square from `sumSquare`.
 */
module YinEstimator {
  import opened Common

  /** One frame's result: f0, voiced probability, RMS, salience and candidates. */
  datatype YinOutput = YinOutput(
    f0: real,
    periodicity: real,
    rms: real,
    salience: seq<real>,
    freqProb: seq<(real, real)>)

  /**
   * A float converted to an unsigned integer (`static_cast<size_t>`):
   * truncation toward zero, defined only above -1.
   */
  function TruncateToUnsigned(x: real): (r: nat)
    requires x > -1.0
    ensures x >= 0.0 ==> r as real <= x < r as real + 1.0
    ensures x < 0.0 ==> r == 0
  {
    if x < 0.0 then 0 else x.Floor
  }

  /** The lags below `n` whose probability is positive, in increasing order. */
  function PositiveBins(p: seq<real>, n: nat): (bins: seq<nat>)
    requires n <= |p|
    ensures forall k :: 0 <= k < |bins| ==> bins[k] < n && p[bins[k]] > 0.0
  {
    if n == 0 then []
    else PositiveBins(p, n - 1) + (if p[n - 1] > 0.0 then [n - 1] else [])
  }

  /** Every positive lag below `n` is kept. */
  lemma {:induction false} PositiveBinsComplete(p: seq<real>, n: nat)
    requires n <= |p|
    ensures forall i :: 0 <= i < n && p[i] > 0.0 ==> i in PositiveBins(p, n)
  {
    if n > 0 {
      PositiveBinsComplete(p, n - 1);
    }
  }

  /** The kept lags increase strictly. */
  lemma {:induction false} PositiveBinsIncreasing(p: seq<real>, n: nat)
    requires n <= |p|
    ensures forall j, k :: 0 <= j < k < |PositiveBins(p, n)| ==> PositiveBins(p, n)[j] < PositiveBins(p, n)[k]
  {
    if n > 0 {
      PositiveBinsIncreasing(p, n - 1);
    }
  }

  /** The frequency a (fractional) lag stands for at a given sample rate. */
  function LagToFrequency(sampleRate: nat, lag: real): real
    requires lag != 0.0
  {
    sampleRate as real * (1.0 / lag)
  }

  /**
   * One pair per positive lag, in lag order, carrying that lag's
   * probability unchanged and the frequency of its (non-zero) refined lag.
   */
  ghost predicate IsCandidateList(
    freqProb: seq<(real, real)>, p: seq<real>, n: nat, lags: seq<real>, sampleRate: nat)
    requires n <= |p| && n <= |lags|
  {
    var bins := PositiveBins(p, n);
    |freqProb| == |bins| &&
    forall k :: 0 <= k < |bins| ==>
      lags[bins[k]] != 0.0 && freqProb[k] == (LagToFrequency(sampleRate, lags[bins[k]]), p[bins[k]])
  }

  /** The candidate list of the first `n` lags, built lag by lag. */
  function Candidates(p: seq<real>, lags: seq<real>, n: nat, sampleRate: nat): (c: seq<(real, real)>)
    requires n <= |p| && n <= |lags|
    requires forall i :: 0 <= i < n && p[i] > 0.0 ==> lags[i] != 0.0
    ensures |c| <= n
  {
    if n == 0 then []
    else
      Candidates(p, lags, n - 1, sampleRate)
        + (if p[n - 1] > 0.0 then [(LagToFrequency(sampleRate, lags[n - 1]), p[n - 1])] else [])
  }

  /** The candidate list holds one pair per positive lag, in lag order, and nothing else. */
  lemma {:induction false} CandidatesAreListed(p: seq<real>, lags: seq<real>, n: nat, sampleRate: nat)
    requires n <= |p| && n <= |lags|
    requires forall i :: 0 <= i < n && p[i] > 0.0 ==> lags[i] != 0.0
    ensures IsCandidateList(Candidates(p, lags, n, sampleRate), p, n, lags, sampleRate)
  {
    if n > 0 {
      CandidatesAreListed(p, lags, n - 1, sampleRate);
      var c, bins := Candidates(p, lags, n - 1, sampleRate), PositiveBins(p, n - 1);
      var c', bins' := Candidates(p, lags, n, sampleRate), PositiveBins(p, n);
      assert |c'| == |bins'|;
      forall k | 0 <= k < |bins'|
        ensures lags[bins'[k]] != 0.0 && c'[k] == (LagToFrequency(sampleRate, lags[bins'[k]]), p[bins'[k]])
      {
        if k < |bins| {
          assert c'[k] == c[k] && bins'[k] == bins[k];
        }
      }
    }
  }

  /** The candidate list is empty exactly when no lag is positive, and its probabilities are positive. */
  lemma {:induction false} CandidatesArePositive(p: seq<real>, lags: seq<real>, n: nat, sampleRate: nat)
    requires n <= |p| && n <= |lags|
    requires forall i :: 0 <= i < n && p[i] > 0.0 ==> lags[i] != 0.0
    ensures Candidates(p, lags, n, sampleRate) == [] <==> forall i :: 0 <= i < n ==> p[i] <= 0.0
    ensures forall k :: 0 <= k < |Candidates(p, lags, n, sampleRate)| ==> Candidates(p, lags, n, sampleRate)[k].1 > 0.0
  {
    if n > 0 {
      CandidatesArePositive(p, lags, n - 1, sampleRate);
      var c := Candidates(p, lags, n - 1, sampleRate);
      if p[n - 1] <= 0.0 {
        assert Candidates(p, lags, n, sampleRate) == c;
        if c == [] {
          forall i | 0 <= i < n
            ensures p[i] <= 0.0
          {
            if i < n - 1 {
              assert p[i] <= 0.0;
            }
          }
        }
      }
    }
  }

  class Yin {
    var frameSize: nat
    var inputSampleRate: nat
    var thresh: real
    var threshDistr: nat
    var yinBufferSize: nat
    var fast: bool

    /** The difference curve covers half a frame. */
    ghost predicate Valid()
      reads this
    {
      yinBufferSize == frameSize / 2
    }

    /**
     * Any frame size is accepted: the power-of-two check in `Yin::Yin` has an
     * empty body, so a non-power-of-two size is stored as it is.
     */
    constructor (frameSize: nat, inputSampleRate: nat, thresh: real, fast: bool)
      ensures Valid()
      ensures this.frameSize == frameSize && this.inputSampleRate == inputSampleRate
      ensures this.thresh == thresh && this.fast == fast && threshDistr == 2
    {
      this.frameSize := frameSize;
      this.inputSampleRate := inputSampleRate;
      this.thresh := thresh;
      threshDistr := 2;
      yinBufferSize := frameSize / 2;
      this.fast := fast;
    }

    /**
     * Classic YIN: the signed lag `tau` gives the f0 (zero when no lag was
     * found, negative when `tau` is), the voiced probability is one minus
     * the aperiodicity at |tau|, and the salience is 1 - y clipped at 0.
     */
    method Process(yinBuffer: seq<real>, tau: int, lags: seq<real>, rms: real)
      returns (yo: YinOutput)
      requires Valid()
      requires |yinBuffer| == yinBufferSize
      requires |lags| == yinBufferSize
      requires -(yinBufferSize as int) < tau < yinBufferSize
      requires tau != 0 ==> lags[Abs(tau)] != 0.0
      ensures tau == 0 ==> yo.f0 == 0.0
      ensures tau > 0 ==> yo.f0 == LagToFrequency(inputSampleRate, lags[tau])
      ensures tau < 0 ==> yo.f0 == -LagToFrequency(inputSampleRate, lags[-tau])
      ensures yo.periodicity == 1.0 - yinBuffer[Abs(tau)]
      ensures yo.rms == rms && yo.freqProb == []
      ensures |yo.salience| == yinBufferSize
      ensures forall i :: 0 <= i < |yo.salience| ==>
        yo.salience[i] == (if yinBuffer[i] < 1.0 then 1.0 - yinBuffer[i] else 0.0)
      ensures forall i :: 0 <= i < |yo.salience| ==> yo.salience[i] >= 0.0
    {
      var f0: real;
      if tau != 0 {
        var interpolatedTau := lags[Abs(tau)];
        f0 := LagToFrequency(inputSampleRate, interpolatedTau);
      } else {
        f0 := 0.0;
      }
      var aperiodicity := yinBuffer[Abs(tau)];
      if tau < 0 {
        f0 := -f0;
      }
      var salience: seq<real> := [];
      var iBuf := 0;
      while iBuf < yinBufferSize
        invariant 0 <= iBuf <= yinBufferSize
        invariant |salience| == iBuf
        invariant forall i :: 0 <= i < iBuf ==>
          salience[i] == (if yinBuffer[i] < 1.0 then 1.0 - yinBuffer[i] else 0.0)
      {
        salience := salience + [if yinBuffer[iBuf] < 1.0 then 1.0 - yinBuffer[iBuf] else 0.0];
        iBuf := iBuf + 1;
      }
      yo := YinOutput(f0, 1.0 - aperiodicity, rms, salience, []);
    }

    /**
     * Probabilistic YIN: the salience is the per-lag probability curve, and
     * every lag with positive probability contributes, in increasing lag
     * order, one (frequency, probability) pair. The f0 and voiced-probability
     * fields stay zero.
     */
    method ProcessProbabilisticYin(peakProb: seq<real>, lags: seq<real>, rms: real)
      returns (yo: YinOutput)
      requires Valid()
      requires |peakProb| >= yinBufferSize && |lags| >= yinBufferSize
      requires forall i :: 0 <= i < yinBufferSize && peakProb[i] > 0.0 ==> lags[i] != 0.0
      ensures yo.f0 == 0.0 && yo.periodicity == 0.0 && yo.rms == rms
      ensures yo.salience == peakProb[..yinBufferSize]
      ensures yo.freqProb == Candidates(peakProb, lags, yinBufferSize, inputSampleRate)
      ensures IsCandidateList(yo.freqProb, peakProb, yinBufferSize, lags, inputSampleRate)
      ensures yo.freqProb == [] <==> forall i :: 0 <= i < yinBufferSize ==> peakProb[i] <= 0.0
      ensures forall k :: 0 <= k < |yo.freqProb| ==> yo.freqProb[k].1 > 0.0
    {
      var salience: seq<real> := [];
      var freqProb: seq<(real, real)> := [];
      var iBuf := 0;
      while iBuf < yinBufferSize
        invariant 0 <= iBuf <= yinBufferSize
        invariant salience == peakProb[..iBuf]
        invariant freqProb == Candidates(peakProb, lags, iBuf, inputSampleRate)
      {
        salience := salience + [peakProb[iBuf]];
        if peakProb[iBuf] > 0.0 {
          var currentF0 := LagToFrequency(inputSampleRate, lags[iBuf]);
          freqProb := freqProb + [(currentF0, peakProb[iBuf])];
        }
        iBuf := iBuf + 1;
      }
      yo := YinOutput(0.0, 0.0, rms, salience, freqProb);
      CandidatesAreListed(peakProb, lags, yinBufferSize, inputSampleRate);
      CandidatesArePositive(peakProb, lags, yinBufferSize, inputSampleRate);
    }

    method SetThreshold(parameter: real)
      modifies this
      ensures thresh == parameter
      ensures frameSize == old(frameSize) && yinBufferSize == old(yinBufferSize)
      ensures threshDistr == old(threshDistr) && fast == old(fast)
      ensures inputSampleRate == old(inputSampleRate)
    {
      thresh := parameter;
    }

    /** The selector is the float parameter truncated toward zero. */
    method SetThresholdDistr(parameter: real)
      requires parameter > -1.0
      modifies this
      ensures threshDistr == TruncateToUnsigned(parameter)
      ensures frameSize == old(frameSize) && yinBufferSize == old(yinBufferSize)
      ensures thresh == old(thresh) && fast == old(fast)
      ensures inputSampleRate == old(inputSampleRate)
      ensures Valid() == old(Valid())
    {
      threshDistr := TruncateToUnsigned(parameter);
    }

    /** Changing the frame size keeps the buffer at half a frame. */
    method SetFrameSize(parameter: nat)
      modifies this
      ensures Valid()
      ensures frameSize == parameter && yinBufferSize == parameter / 2
      ensures thresh == old(thresh) && threshDistr == old(threshDistr) && fast == old(fast)
      ensures inputSampleRate == old(inputSampleRate)
    {
      frameSize := parameter;
      yinBufferSize := frameSize / 2;
    }

    method SetFast(parameter: bool)
      modifies this
      ensures fast == parameter
      ensures frameSize == old(frameSize) && yinBufferSize == old(yinBufferSize)
      ensures thresh == old(thresh) && threshDistr == old(threshDistr)
      ensures inputSampleRate == old(inputSampleRate)
      ensures Valid() == old(Valid())
    {
      fast := parameter;
    }
  }
}
