/**
 * The three output modes for the smoothed pitch track (PYinVamp::process
 * and PYinVamp::getRemainingFeatures). A negative frequency means the
 * tracker decoded the frame as unvoiced; mode 0 drops such frames, mode 1
 * reports their magnitude, any other mode reports the signed value.
 */
module OutputPolicy {
  import opened Common

  /** The value reported for one decoded frequency, or None when the frame is dropped. */
  function ReportedValue(freq: real, outputUnvoiced: real): (r: Option<real>)
    ensures r.None? <==> (freq < 0.0 && outputUnvoiced == 0.0)
    ensures r.Some? ==> RealAbs(r.value) == RealAbs(freq)
    ensures freq >= 0.0 ==> r == Some(freq)
    ensures outputUnvoiced == 1.0 ==> r.Some? && r.value >= 0.0
    ensures outputUnvoiced != 0.0 && outputUnvoiced != 1.0 ==> r == Some(freq)
  {
    if freq < 0.0 && outputUnvoiced == 0.0 then None
    else if outputUnvoiced == 1.0 then Some(RealAbs(freq))
    else Some(freq)
  }
}
