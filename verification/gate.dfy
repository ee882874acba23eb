/**
 * Low-amplitude attenuation of pitch-candidate probabilities
 * (PYinVamp::process), and the frame RMS it is driven by.
 */
module AmplitudeGate {

  /**
   * The attenuation factor applied on a quiet frame,
   * (rms + 0.01 lowAmp) / (1.01 lowAmp), in exact arithmetic and unclamped.
   */
  function GateFactor(rms: real, lowAmp: real): real
    requires lowAmp > 0.0
  {
    (rms + 0.01 * lowAmp) / (1.01 * lowAmp)
  }

  /** At silence the factor is 0.01 / 1.01 = 1/101. */
  lemma GateFactorAtSilence(lowAmp: real)
    requires lowAmp > 0.0
    ensures GateFactor(0.0, lowAmp) == 1.0 / 101.0
  {
    calc {
      GateFactor(0.0, lowAmp);
      (0.01 * lowAmp) / (1.01 * lowAmp);
      { assert 0.01 * lowAmp == (1.0 / 101.0) * (1.01 * lowAmp); }
      1.0 / 101.0;
    }
  }

  lemma DivideBySelf(d: real)
    requires d != 0.0
    ensures d / d == 1.0
  {
  }

  /** The factor is strictly increasing in the RMS. */
  lemma GateFactorIncreasing(rms1: real, rms2: real, lowAmp: real)
    requires lowAmp > 0.0 && rms1 < rms2
    ensures GateFactor(rms1, lowAmp) < GateFactor(rms2, lowAmp)
  {
    var d := 1.01 * lowAmp;
    assert GateFactor(rms2, lowAmp) - GateFactor(rms1, lowAmp) == (rms2 - rms1) / d;
  }

  /**
   * The factor reaches 1 exactly at the threshold; on every quiet frame
   * (0 <= rms < lowAmp) it lies in [1/101, 1). Nothing clamps it: above the
   * threshold the same expression exceeds 1.
   */
  lemma GateFactorRange(rms: real, lowAmp: real)
    requires lowAmp > 0.0
    ensures GateFactor(lowAmp, lowAmp) == 1.0
    ensures 0.0 <= rms < lowAmp ==> 1.0 / 101.0 <= GateFactor(rms, lowAmp) < 1.0
    ensures rms > lowAmp ==> GateFactor(rms, lowAmp) > 1.0
  {
    GateFactorAtSilence(lowAmp);
    assert lowAmp + 0.01 * lowAmp == 1.01 * lowAmp;
    DivideBySelf(1.01 * lowAmp);
    if rms > 0.0 { GateFactorIncreasing(0.0, rms, lowAmp); }
    if rms < lowAmp { GateFactorIncreasing(rms, lowAmp, lowAmp); }
    if rms > lowAmp { GateFactorIncreasing(lowAmp, rms, lowAmp); }
  }

  /** One candidate probability after the gate. */
  function Gate(p: real, rms: real, lowAmp: real): real
    requires rms >= 0.0
  {
    if rms < lowAmp then p * GateFactor(rms, lowAmp) else p
  }

  /**
   * A loud frame passes unchanged; a quiet one is attenuated, never
   * amplified: a probability in [0, 1] stays in [p/101, p].
   */
  lemma GateAttenuates(p: real, rms: real, lowAmp: real)
    requires rms >= 0.0 && 0.0 <= p <= 1.0
    ensures rms >= lowAmp ==> Gate(p, rms, lowAmp) == p
    ensures rms < lowAmp ==> p / 101.0 <= Gate(p, rms, lowAmp) <= p
    ensures rms < lowAmp && p > 0.0 ==> Gate(p, rms, lowAmp) < p
  {
    if rms < lowAmp {
      GateFactorRange(rms, lowAmp);
      var f := GateFactor(rms, lowAmp);
      assert p * f <= p * 1.0;
      assert p * (1.0 / 101.0) <= p * f;
    }
  }

  /**
   * The gating loop: each candidate's frequency becomes a log-pitch and its
   * probability goes through the gate; count and order are kept.
   */
  method GateCandidates(
    freqProb: seq<(real, real)>, rms: real, lowAmp: real, logPitch: real -> real)
    returns (pitchProb: seq<(real, real)>)
    requires rms >= 0.0
    ensures |pitchProb| == |freqProb|
    ensures forall k :: 0 <= k < |freqProb| ==>
      pitchProb[k] == (logPitch(freqProb[k].0), Gate(freqProb[k].1, rms, lowAmp))
  {
    var isLowAmplitude := rms < lowAmp;
    pitchProb := [];
    var iCandidate := 0;
    while iCandidate < |freqProb|
      invariant 0 <= iCandidate <= |freqProb|
      invariant |pitchProb| == iCandidate
      invariant forall k :: 0 <= k < iCandidate ==>
        pitchProb[k] == (logPitch(freqProb[k].0), Gate(freqProb[k].1, rms, lowAmp))
    {
      var tempPitch := logPitch(freqProb[iCandidate].0);
      if !isLowAmplitude {
        pitchProb := pitchProb + [(tempPitch, freqProb[iCandidate].1)];
        assert pitchProb[iCandidate].1 == Gate(freqProb[iCandidate].1, rms, lowAmp);
      } else {
        var factor := GateFactor(rms, lowAmp);
        pitchProb := pitchProb + [(tempPitch, freqProb[iCandidate].1 * factor)];
        assert pitchProb[iCandidate].1 == Gate(freqProb[iCandidate].1, rms, lowAmp);
      }
      assert pitchProb[iCandidate].0 == logPitch(freqProb[iCandidate].0);
      iCandidate := iCandidate + 1;
    }
  }

  // ---------------------------------------------------------------------
  // The frame RMS that drives the gate.

  /** C++ conversion of a real to an integer: truncation toward zero. */
  function TruncateToInt(x: real): (r: int)
    ensures x >= 0.0 ==> r as real <= x < r as real + 1.0
    ensures x < 0.0 ==> x <= r as real && r as real < x + 1.0
  {
    if x >= 0.0 then x.Floor else -((-x).Floor)
  }

  /**
   * The sum of squares as the source accumulates it: `std::accumulate`
   * seeded with the int 0 keeps an int accumulator, so each partial sum
   * is truncated toward zero.
   */
  function SumOfSquaresAsWritten(block: seq<real>): int
  {
    if block == [] then 0
    else
      var v := block[|block| - 1];
      TruncateToInt(SumOfSquaresAsWritten(block[..|block| - 1]) as real + v * v)
  }

  /** The sum of squares the RMS is meant to use. */
  function SumOfSquares(block: seq<real>): real
  {
    if block == [] then 0.0
    else
      var v := block[|block| - 1];
      SumOfSquares(block[..|block| - 1]) + v * v
  }

  lemma SquareBelowOne(v: real)
    requires -1.0 < v < 1.0
    ensures 0.0 <= v * v < 1.0
  {
    if v >= 0.0 {
      assert v * v <= v * 1.0;
    } else {
      assert v * v == (-v) * (-v);
      assert (-v) * (-v) <= (-v) * 1.0;
    }
  }

  /**
   * As written, every block whose samples lie strictly inside (-1, 1) sums
   * to zero, so the gate sees an RMS of 0 whatever the signal level.
   */
  lemma {:induction false} QuietBlockSumsToZeroAsWritten(block: seq<real>)
    requires forall i :: 0 <= i < |block| ==> -1.0 < block[i] < 1.0
    ensures SumOfSquaresAsWritten(block) == 0
  {
    if block != [] {
      var v := block[|block| - 1];
      QuietBlockSumsToZeroAsWritten(block[..|block| - 1]);
      SquareBelowOne(v);
    }
  }

  /** A concrete block that shows the discrepancy: as written 0, intended 0.5. */
  lemma AccumulatorTruncationExample()
    ensures SumOfSquaresAsWritten([0.5, 0.5]) == 0
    ensures SumOfSquares([0.5, 0.5]) == 0.5
  {
    assert [0.5, 0.5][..1] == [0.5];
    assert [0.5][..0] == [];
  }

  /**
   * Consequence as written: on such a block the gate is always active for a
   * positive threshold and scales every probability by 1/101.
   */
  lemma QuietBlockAlwaysGatedAsWritten(block: seq<real>, lowAmp: real, p: real)
    requires forall i :: 0 <= i < |block| ==> -1.0 < block[i] < 1.0
    requires lowAmp > 0.0
    ensures SumOfSquaresAsWritten(block) == 0
    ensures Gate(p, 0.0, lowAmp) == p / 101.0
  {
    QuietBlockSumsToZeroAsWritten(block);
    GateFactorAtSilence(lowAmp);
  }

  /**
   * The intended sum is never negative, is zero on a silent block, and is
   * never below the truncated sum: truncation only loses energy.
   */
  lemma {:induction false} SumOfSquaresBounds(block: seq<real>)
    ensures SumOfSquares(block) >= 0.0
    ensures 0 <= SumOfSquaresAsWritten(block)
    ensures SumOfSquaresAsWritten(block) as real <= SumOfSquares(block)
    ensures (forall i :: 0 <= i < |block| ==> block[i] == 0.0) ==> SumOfSquares(block) == 0.0
  {
    if block != [] {
      var n := |block| - 1;
      var v := block[n];
      SumOfSquaresBounds(block[..n]);
      assert v * v >= 0.0;
      if forall i :: 0 <= i < |block| ==> block[i] == 0.0 {
        assert forall i :: 0 <= i < n ==> block[..n][i] == 0.0;
        assert v == 0.0;
      }
    }
  }

  /** The mean square of a block: the square of the RMS the gate compares. */
  function MeanSquare(block: seq<real>): (m: real)
    requires |block| > 0
    ensures m >= 0.0
    ensures (forall i :: 0 <= i < |block| ==> block[i] == 0.0) ==> m == 0.0
  {
    SumOfSquaresBounds(block);
    SumOfSquares(block) / (|block| as real)
  }

  /**
   * The mean square as the source computes it: the int-accumulated sum of
   * squares divided by the block size. It never exceeds the intended mean
   * square, and it is zero on every block inside (-1, 1).
   */
  function MeanSquareAsWritten(block: seq<real>): (m: real)
    requires |block| > 0
    ensures 0.0 <= m <= MeanSquare(block)
    ensures (forall i :: 0 <= i < |block| ==> -1.0 < block[i] < 1.0) ==> m == 0.0
  {
    SumOfSquaresBounds(block);
    DivideMonotone(SumOfSquaresAsWritten(block) as real, SumOfSquares(block), |block| as real);
    if forall i :: 0 <= i < |block| ==> -1.0 < block[i] < 1.0 then
      QuietBlockSumsToZeroAsWritten(block);
      (SumOfSquaresAsWritten(block) as real) / (|block| as real)
    else
      (SumOfSquaresAsWritten(block) as real) / (|block| as real)
  }

  lemma DivideMonotone(a: real, b: real, d: real)
    requires 0.0 <= a <= b && d > 0.0
    ensures 0.0 <= a / d <= b / d
  {
  }

  /**
   * What the session's gate sees as written: on a block inside (-1, 1) the
   * RMS is 0, so for a positive threshold every candidate probability is
   * scaled by 1/101.
   */
  lemma QuietBlockRmsAsWritten(block: seq<real>, rms: real, lowAmp: real, p: real)
    requires |block| > 0 && forall i :: 0 <= i < |block| ==> -1.0 < block[i] < 1.0
    requires rms >= 0.0 && rms * rms == MeanSquareAsWritten(block)
    requires lowAmp > 0.0
    ensures rms == 0.0
    ensures Gate(p, rms, lowAmp) == p / 101.0
  {
    assert MeanSquareAsWritten(block) == 0.0;
    SquareRootOfZero(rms, MeanSquareAsWritten(block));
    GateFactorAtSilence(lowAmp);
  }

  /** A non-negative number whose square is zero is zero. */
  lemma SquareRootOfZero(x: real, square: real)
    requires x >= 0.0 && x * x == square && square == 0.0
    ensures x == 0.0
  {
    if x > 0.0 {
      calc {
        square;
        x * x;
      > { assert x * x > 0.0 * x; }
        0.0;
      }
    }
  }
}
