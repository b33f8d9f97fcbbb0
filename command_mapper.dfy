/**
  How a fingertip speed becomes the volume and speed bytes of a glove frame.
  The speed in m/s is clamped to the mapping thresholds, normalised with
  InverseLerp, stretched over 10..40 with Lerp and rounded; the frame then
  applies the speed multiplier once more to the rate speedByte / 10, clamps
  that to 1.0..4.0 and rounds it back to tenths. The volume depends on the raw,
  unfiltered speed only.
*/
module CommandMapper {
  import opened EngineMath

  const MinSpeedByte: int := 10
  const MaxSpeedByte: int := 40
  const MinMultiplier: real := 0.1
  const MinPlaybackRate: real := 1.0
  const MaxPlaybackRate: real := 4.0

  /** The volume byte: muted below the threshold, the normal volume from it on. */
  function VolumeFor(rawMagnitude: real, threshold: real, normalVolume: Byte): (v: Byte)
    ensures rawMagnitude < threshold ==> v == 0
    ensures threshold <= rawMagnitude ==> v == normalVolume
    ensures normalVolume > 0 ==> (v == 0 <==> rawMagnitude < threshold)
  {
    if rawMagnitude < threshold then 0 else normalVolume
  }

  /** The multiplier is raised to at least 0.1 before it scales the speed. */
  function EffectiveMultiplier(multiplier: real): (m: real)
    ensures m >= MinMultiplier
    ensures multiplier >= MinMultiplier ==> m == multiplier
  {
    Max(MinMultiplier, multiplier)
  }

  /** The speed the mapping works on: the filtered magnitude scaled by the multiplier. */
  function ScaledSpeed(filtered: real, multiplier: real): (s: real)
    ensures filtered >= 0.0 && multiplier >= 0.0 ==> s >= 0.0
    ensures multiplier == 1.0 ==> s == filtered
    ensures multiplier >= 1.0 && filtered >= 0.0 ==> s >= filtered
  {
    filtered * multiplier
  }

  /** The normalised position of a speed between the thresholds, in [0, 1]. */
  function Normalized(velocityMagnitude: real, minV: real, maxV: real): (t: real)
    ensures 0.0 <= t <= 1.0
  {
    InverseLerp(minV, maxV, Clamp(velocityMagnitude, minV, maxV))
  }

  /** The mapped speed value: the normalised speed stretched over 10..40 and rounded. */
  function SpeedValue(velocityMagnitude: real, minV: real, maxV: real): (n: int)
    ensures MinSpeedByte <= n <= MaxSpeedByte
  {
    var t := Normalized(velocityMagnitude, minV, maxV);
    var x := Lerp(MinSpeedByte as real, MaxSpeedByte as real, t);
    RoundToIntBetween(x, MinSpeedByte, MaxSpeedByte);
    RoundToInt(x)
  }

  /** The mapped speed byte: the speed value survives the byte cast unchanged. */
  function SpeedByteFor(velocityMagnitude: real, minV: real, maxV: real): (b: Byte)
    ensures MinSpeedByte <= b <= MaxSpeedByte
    ensures b == SpeedValue(velocityMagnitude, minV, maxV)
  {
    ByteOf(SpeedValue(velocityMagnitude, minV, maxV))
  }

  /** At or below the lower threshold the speed byte is 10 (1.0x). */
  lemma SpeedAtLowEnd(v: real, minV: real, maxV: real)
    requires v <= minV <= maxV
    ensures SpeedValue(v, minV, maxV) == MinSpeedByte
  {
    assert Clamp(v, minV, maxV) == minV;
    assert Normalized(v, minV, maxV) == 0.0;
    assert Lerp(MinSpeedByte as real, MaxSpeedByte as real, 0.0) == 10.0;
    RoundToIntOfInt(10);
  }

  /** At or above the upper threshold the speed byte is 40 (4.0x), when the thresholds differ. */
  lemma SpeedAtHighEnd(v: real, minV: real, maxV: real)
    requires minV < maxV <= v
    ensures SpeedValue(v, minV, maxV) == MaxSpeedByte
  {
    assert Clamp(v, minV, maxV) == maxV;
    assert (maxV - minV) / (maxV - minV) == 1.0;
    assert Normalized(v, minV, maxV) == 1.0;
    assert Lerp(MinSpeedByte as real, MaxSpeedByte as real, 1.0) == 40.0;
    RoundToIntOfInt(40);
  }

  /** Equal thresholds make InverseLerp return 0, so every speed maps to 10. */
  lemma SpeedWithEqualThresholds(v: real, threshold: real)
    ensures SpeedValue(v, threshold, threshold) == MinSpeedByte
  {
    assert Normalized(v, threshold, threshold) == 0.0;
    assert Lerp(MinSpeedByte as real, MaxSpeedByte as real, 0.0) == 10.0;
    RoundToIntOfInt(10);
  }

  /** Lerp over an increasing range does not decrease in its parameter. */
  lemma LerpMonotone(a: real, b: real, s: real, t: real)
    requires a <= b && 0.0 <= s <= t <= 1.0
    ensures Lerp(a, b, s) <= Lerp(a, b, t)
  {
    assert Clamp01(s) == s && Clamp01(t) == t;
    assert (b - a) * t - (b - a) * s == (b - a) * (t - s);
    ProductNonNegative(b - a, t - s);
  }

  /** A faster finger never gets a smaller speed byte, whatever the thresholds. */
  lemma {:induction false} SpeedMonotone(v: real, w: real, minV: real, maxV: real)
    requires v <= w
    ensures SpeedValue(v, minV, maxV) <= SpeedValue(w, minV, maxV)
  {
    var lo, hi := MinSpeedByte as real, MaxSpeedByte as real;
    if minV < maxV {
      ClampMonotone(v, w, minV, maxV);
      InverseLerpMonotone(minV, maxV, Clamp(v, minV, maxV), Clamp(w, minV, maxV));
      LerpMonotone(lo, hi, Normalized(v, minV, maxV), Normalized(w, minV, maxV));
      RoundToIntMonotone(Lerp(lo, hi, Normalized(v, minV, maxV)), Lerp(lo, hi, Normalized(w, minV, maxV)));
    } else if minV == maxV {
      SpeedWithEqualThresholds(v, minV);
      SpeedWithEqualThresholds(w, minV);
    } else {
      // Inverted thresholds: Clamp yields minV below minV and maxV from minV on,
      // so the byte is 10 below minV and 40 from minV on.
      if v < minV {
        assert Clamp(v, minV, maxV) == minV;
        assert Normalized(v, minV, maxV) == 0.0;
        assert Lerp(lo, hi, 0.0) == lo;
        RoundToIntOfInt(10);
      } else {
        assert Clamp(v, minV, maxV) == maxV && Clamp(w, minV, maxV) == maxV;
      }
    }
  }

  /** With the multiplier already raised to 0.1 or more, the byte does not decrease in the filtered speed. */
  lemma SpeedMonotoneInFiltered(f: real, g: real, multiplier: real, minV: real, maxV: real)
    requires f <= g
    requires multiplier >= MinMultiplier
    ensures SpeedValue(ScaledSpeed(f, multiplier), minV, maxV) <= SpeedValue(ScaledSpeed(g, multiplier), minV, maxV)
  {
    assert g * multiplier - f * multiplier == (g - f) * multiplier;
    assert (g - f) * multiplier >= 0.0;
    SpeedMonotone(f * multiplier, g * multiplier, minV, maxV);
  }

  /** The playback rate the frame carries: speedByte / 10 scaled by the multiplier, kept in 1.0..4.0. */
  function PlaybackRate(speedByte: Byte, multiplier: real): (rate: real)
    ensures MinPlaybackRate <= rate <= MaxPlaybackRate
  {
    Clamp(speedByte as real / 10.0 * multiplier, MinPlaybackRate, MaxPlaybackRate)
  }

  /** The speed byte written into the frame: the playback rate in tenths, rounded to the nearest integer. */
  function FinalSpeedByte(speedByte: Byte, multiplier: real): (b: Byte)
    ensures MinSpeedByte <= b <= MaxSpeedByte
    ensures -0.5 <= PlaybackRate(speedByte, multiplier) * 10.0 - b as real <= 0.5
  {
    var tenths := PlaybackRate(speedByte, multiplier) * 10.0;
    RoundToIntBetween(tenths, MinSpeedByte, MaxSpeedByte);
    ByteOf(RoundToInt(tenths))
  }

  /** With multiplier 1 the frame carries the mapped speed byte unchanged. */
  lemma FinalSpeedWithUnitMultiplier(speedByte: Byte)
    requires MinSpeedByte <= speedByte <= MaxSpeedByte
    ensures FinalSpeedByte(speedByte, 1.0) == speedByte
  {
    var r := speedByte as real / 10.0;
    assert PlaybackRate(speedByte, 1.0) == r;
    assert r * 10.0 == speedByte as real;
    RoundToIntOfInt(speedByte);
  }

  /** The rate speedByte / 10 of a byte in 10..40 is already a playback rate and converts back exactly. */
  lemma RateOfSpeedByte(speedByte: Byte)
    requires MinSpeedByte <= speedByte <= MaxSpeedByte
    ensures MinPlaybackRate <= speedByte as real / 10.0 <= MaxPlaybackRate
    ensures Clamp(speedByte as real / 10.0, MinPlaybackRate, MaxPlaybackRate) * 10.0 == speedByte as real
    ensures RoundToInt(speedByte as real) == speedByte
  {
    RoundToIntOfInt(speedByte);
  }

  /** A multiplier of 1 or more never lowers the carried speed. */
  lemma FinalSpeedAtLeast(speedByte: Byte, multiplier: real)
    requires MinSpeedByte <= speedByte <= MaxSpeedByte
    requires multiplier >= 1.0
    ensures FinalSpeedByte(speedByte, multiplier) >= speedByte
  {
    var r := speedByte as real / 10.0;
    RateOfSpeedByte(speedByte);
    assert r * multiplier - r == r * (multiplier - 1.0);
    ProductNonNegative(r, multiplier - 1.0);
    ClampMonotone(r, r * multiplier, MinPlaybackRate, MaxPlaybackRate);
    RoundToIntMonotone(speedByte as real, PlaybackRate(speedByte, multiplier) * 10.0);
  }

  /** A multiplier of 1 or less never raises the carried speed. */
  lemma FinalSpeedAtMost(speedByte: Byte, multiplier: real)
    requires MinSpeedByte <= speedByte <= MaxSpeedByte
    requires multiplier <= 1.0
    ensures FinalSpeedByte(speedByte, multiplier) <= speedByte
  {
    var r := speedByte as real / 10.0;
    RateOfSpeedByte(speedByte);
    assert r - r * multiplier == r * (1.0 - multiplier);
    ProductNonNegative(r, 1.0 - multiplier);
    ClampMonotone(r * multiplier, r, MinPlaybackRate, MaxPlaybackRate);
    RoundToIntMonotone(PlaybackRate(speedByte, multiplier) * 10.0, speedByte as real);
  }

  /**
    The multiplier acts twice: at 0.075 m/s with multiplier 2 the mapping gives
    25 (2.5x), and the frame doubles that again to the 4.0x ceiling.
  */
  lemma MultiplierAppliedTwice()
    ensures SpeedValue(0.075 * 2.0, 0.0, 0.3) == 25
    ensures FinalSpeedByte(25, 2.0) == 40
  {
    assert Normalized(0.15, 0.0, 0.3) == 0.5;
    assert Lerp(10.0, 40.0, 0.5) == 25.0;
    RoundToIntOfInt(25);
    assert PlaybackRate(25, 2.0) == 4.0;
    RoundToIntOfInt(40);
  }
}
