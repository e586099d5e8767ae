/**
 * The automatic gain policy: with raw code r at a resolution of `bits` and a
 * margin m (a fraction of full scale), let T = 2^(bits-1) - m * 2^bits.
 * Close to the edge (r > T or r < -T) the gain goes down a notch if it can;
 * with headroom (-T/2 < r < T/2) it goes up a notch if it can; otherwise it holds.
 */
module AutoGain {
  import opened Register

  /** The margins the scripts use: 1% in the Python script, 5% in the sysfs script. */
  const PythonMargin: real := 0.01
  const SysfsMargin: real := 0.05

  datatype Decision = Down | Up | Hold

  function Upper(bits: int, margin: real): real
    requires bits >= 1
  {
    Pow2(bits - 1) as real - Pow2(bits) as real * margin
  }

  predicate NearEdge(raw: int, bits: int, margin: real)
    requires bits >= 1
  {
    raw as real > Upper(bits, margin) || raw as real < -Upper(bits, margin)
  }

  predicate Headroom(raw: int, bits: int, margin: real)
    requires bits >= 1
  {
    raw as real < Upper(bits, margin) / 2.0 && raw as real > -Upper(bits, margin) / 2.0
  }

  /** Which branch of the policy a port takes. */
  function Decide(gain: int, raw: int, bits: int, margin: real): (d: Decision)
    requires bits >= 1
    ensures d == Down <==> gain > 1 && NearEdge(raw, bits, margin)
    ensures d == Up <==> gain < 8 && Headroom(raw, bits, margin)
  {
    if gain > 1 && NearEdge(raw, bits, margin) then Down
    else if gain < 8 && Headroom(raw, bits, margin) then Up
    else Hold
  }

  /** The downward chain 8 -> 4 -> 2 -> 1; any gain other than 8 and 4 falls to 1. */
  function NotchDown(gain: int): int {
    if gain == 8 then 4 else if gain == 4 then 2 else 1
  }

  /** The upward chain 1 -> 2 -> 4 -> 8; any gain other than 1 and 2 rises to 8. */
  function NotchUp(gain: int): int {
    if gain == 1 then 2 else if gain == 2 then 4 else 8
  }

  /** The gain after one autotune step. */
  function Step(gain: int, raw: int, bits: int, margin: real): (g: int)
    requires bits >= 1
    ensures g < gain <==> gain > 1 && NearEdge(raw, bits, margin)
    ensures g > gain <==> gain < 8 && Headroom(raw, bits, margin)
    ensures g == gain <==> Decide(gain, raw, bits, margin) == Hold
  {
    match Decide(gain, raw, bits, margin)
    case Down => NotchDown(gain)
    case Up => NotchUp(gain)
    case Hold => gain
  }

  /** Headroom and the edge never overlap, so the two branches exclude each other. */
  lemma HeadroomExcludesEdge(raw: int, bits: int, margin: real)
    requires bits >= 1
    ensures !(Headroom(raw, bits, margin) && NearEdge(raw, bits, margin))
  {
  }

  /** The legal gains in notch order. */
  const Gains: seq<int> := [1, 2, 4, 8]

  /**
   * A legal gain stays legal and moves at most one notch: halved when it goes
   * down, doubled when it goes up.
   */
  lemma StepOneNotch(gain: int, raw: int, bits: int, margin: real)
    requires bits >= 1 && LegalGain(gain)
    ensures LegalGain(Step(gain, raw, bits, margin))
    ensures Step(gain, raw, bits, margin) in {gain / 2, gain, 2 * gain}
    ensures exists i, j :: 0 <= i < 4 && 0 <= j < 4 && Gains[i] == gain
                           && Gains[j] == Step(gain, raw, bits, margin) && -1 <= i - j <= 1
  {
    var g := Step(gain, raw, bits, margin);
    var i := if gain == 1 then 0 else if gain == 2 then 1 else if gain == 4 then 2 else 3;
    var j := if g == 1 then 0 else if g == 2 then 1 else if g == 4 then 2 else 3;
    assert Gains[i] == gain && Gains[j] == g;
  }

  /** A corollary of `StepOneNotch`: at gain 1 the policy never lowers; at gain 8 it never raises. */
  lemma StepBounds(gain: int, raw: int, bits: int, margin: real)
    requires bits >= 1
    ensures gain == 1 ==> Step(gain, raw, bits, margin) >= 1
    ensures gain == 8 ==> Step(gain, raw, bits, margin) <= 8
  {
  }

  /**
   * A code that moves from the hold band to beyond the upper threshold over
   * two cycles lowers a gain above 1 by exactly one notch in the second cycle.
   */
  lemma EdgeLowersOneNotchPerCycle(gain: int, raw1: int, raw2: int, bits: int, margin: real)
    requires bits >= 1 && LegalGain(gain)
    requires Decide(gain, raw1, bits, margin) == Hold
    requires gain > 1 && raw2 as real > Upper(bits, margin)
    ensures Step(Step(gain, raw1, bits, margin), raw2, bits, margin) == gain / 2
  {
  }

  /** A code the converter can deliver at `bits`: a `bits`-bit two's-complement value. */
  predicate InRange(raw: int, bits: int)
    requires bits >= 1
  {
    -(Pow2(bits - 1) as int) <= raw < Pow2(bits - 1)
  }

  /**
   * For both margins and every legal resolution and gain, each branch the
   * gain allows is taken by some code the converter can deliver: the largest
   * code lowers a gain above 1, code 0 raises a gain below 8, and half of the
   * positive full scale holds any gain. The thresholds therefore leave a
   * non-empty edge band, headroom band and hold band.
   */
  lemma ThresholdsReachable(gain: int, bits: int, margin: real)
    requires LegalGain(gain) && LegalBits(bits)
    requires margin == PythonMargin || margin == SysfsMargin
    ensures gain > 1 ==> exists raw :: InRange(raw, bits) && Decide(gain, raw, bits, margin) == Down
    ensures gain < 8 ==> exists raw :: InRange(raw, bits) && Decide(gain, raw, bits, margin) == Up
    ensures exists raw :: InRange(raw, bits) && Decide(gain, raw, bits, margin) == Hold
  {
    Pow2Values();
    var top := Pow2(bits - 1) as int - 1;
    var half := Pow2(bits - 1) as int / 2;
    assert NearEdge(top, bits, margin);
    assert Headroom(0, bits, margin);
    assert !NearEdge(half, bits, margin) && !Headroom(half, bits, margin);
    assert InRange(top, bits) && InRange(0, bits) && InRange(half, bits);
    if gain > 1 {
      assert Decide(gain, top, bits, margin) == Down;
    }
    if gain < 8 {
      assert Decide(gain, 0, bits, margin) == Up;
    }
    assert Decide(gain, half, bits, margin) == Hold;
  }

  /** The thresholds at 18 bits for the two margins. */
  lemma Thresholds18()
    ensures Upper(18, PythonMargin) == 128450.56
    ensures Upper(18, SysfsMargin) == 117964.8
  {
    Pow2Values();
  }
}
