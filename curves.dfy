/**
 * The slider curves: a 0-100 slider position mapped to a playback speed or an
 * audio gain, and back. The middle pieces are linear and exact over `real`;
 * the outer pieces go through the host's `Math.pow` and `Math.log`, which the
 * model takes as given functions.
 */
module Curves {

  /** The host's `Math.pow(base, exponent)` and `Math.log(x)`. */
  datatype HostMath = HostMath(pow: (real, real) -> real, log: real -> real)

  /**
   * The curves divide by `Math.log` of their three bases; the logarithm of a
   * base other than 1 is not zero.
   */
  predicate LogsDefined(m: HostMath) {
    m.log(2.5) != 0.0 && m.log(10.0 / 1.75) != 0.0 && m.log(20.0) != 0.0
  }

  /** The two identities every power function has at `base`: `base^0 == 1` and `base^1 == base`. */
  predicate PowIdentities(m: HostMath, base: real) {
    m.pow(base, 0.0) == 1.0 && m.pow(base, 1.0) == base
  }

  // ---- Speed ----

  /** Below position 25: `0.1 * Math.pow(2.5, x / 25)`. */
  function SpeedLow(m: HostMath, x: real): real { 0.1 * m.pow(2.5, x / 25.0) }

  /** Positions 25 to 75: `0.03 * x - 0.5`. */
  function SpeedMiddle(x: real): real { 0.03 * x - 0.5 }

  /** Above position 75: `1.75 * Math.pow(10 / 1.75, (x - 75) / 25)`. */
  function SpeedHigh(m: HostMath, x: real): real { 1.75 * m.pow(10.0 / 1.75, (x - 75.0) / 25.0) }

  /** `calculateSpeed`: position to speed; positions 25 to 75 give speeds 0.25 to 1.75. */
  function CalculateSpeed(m: HostMath, x: real): (speed: real)
    ensures 25.0 <= x <= 75.0 ==> 0.25 <= speed <= 1.75
  {
    if x < 25.0 then SpeedLow(m, x)
    else if x <= 75.0 then SpeedMiddle(x)
    else SpeedHigh(m, x)
  }

  /** `calculateSpeedSlider`: speed to position; speeds just above 0.25 up to 1.75 go back to positions just above 25 up to 75. */
  function CalculateSpeedSlider(m: HostMath, speed: real): (x: real)
    requires LogsDefined(m)
    ensures 0.25 < speed <= 1.75 ==> 25.0 < x <= 75.0
  {
    if speed <= 0.25 then 25.0 * (m.log(speed / 0.1) / m.log(2.5))
    else if speed <= 1.75 then (speed + 0.5) / 0.03
    else 75.0 + 25.0 * (m.log(speed / 1.75) / m.log(10.0 / 1.75))
  }

  /** The breakpoints map to the inverse's thresholds, and the middle position is the neutral speed. */
  lemma SpeedAnchors(m: HostMath)
    ensures CalculateSpeed(m, 25.0) == 0.25
    ensures CalculateSpeed(m, 50.0) == 1.0
    ensures CalculateSpeed(m, 75.0) == 1.75
  {
  }

  /**
   * Every position of the linear piece, both breakpoints included, comes back
   * from `calculateSpeedSlider`: position 25 gives speed 0.25, which the
   * inverse sends through its logarithmic branch, and the two logarithms cancel.
   */
  lemma SpeedRoundTrip(m: HostMath, x: real)
    requires LogsDefined(m)
    requires 25.0 <= x <= 75.0
    ensures CalculateSpeedSlider(m, CalculateSpeed(m, x)) == x
  {
  }

  /** The other direction: every speed from 0.25 to 1.75 is reached from the position the inverse gives it. */
  lemma SpeedSliderRoundTrip(m: HostMath, speed: real)
    requires LogsDefined(m)
    requires 0.25 <= speed <= 1.75
    ensures 25.0 <= CalculateSpeedSlider(m, speed) <= 75.0
    ensures CalculateSpeed(m, CalculateSpeedSlider(m, speed)) == speed
  {
  }

  /** The linear piece is strictly increasing. */
  lemma SpeedMiddleIncreasing(m: HostMath, x: real, y: real)
    requires 25.0 <= x < y <= 75.0
    ensures CalculateSpeed(m, x) < CalculateSpeed(m, y)
  {
  }

  /**
   * The pieces join without a jump, and the ends reach 0.1 and 10, whenever the
   * host's `pow` is a power function at the two bases.
   */
  lemma SpeedPiecesJoin(m: HostMath)
    requires PowIdentities(m, 2.5) && PowIdentities(m, 10.0 / 1.75)
    ensures SpeedLow(m, 25.0) == SpeedMiddle(25.0) == CalculateSpeed(m, 25.0)
    ensures SpeedHigh(m, 75.0) == SpeedMiddle(75.0) == CalculateSpeed(m, 75.0)
    ensures CalculateSpeed(m, 0.0) == 0.1
    ensures CalculateSpeed(m, 100.0) == 10.0
  {
  }

  // ---- Boost ----

  /** Above position 75: `5 * Math.pow(20, (x - 75) / 25)`. */
  function BoostHigh(m: HostMath, x: real): real { 5.0 * m.pow(20.0, (x - 75.0) / 25.0) }

  /** `calculateBoost`: position to gain, `x / 15` up to position 75, so never above the threshold 5 there. */
  function CalculateBoost(m: HostMath, x: real): (gain: real)
    ensures x <= 75.0 ==> gain <= 5.0
    ensures 0.0 <= x <= 75.0 ==> 0.0 <= gain
  {
    if x <= 75.0 then x / 15.0 else BoostHigh(m, x)
  }

  /** `calculateBoostSlider`: gain to position; gains up to 5 go back into the linear piece. */
  function CalculateBoostSlider(m: HostMath, gain: real): (x: real)
    requires LogsDefined(m)
    ensures gain <= 5.0 ==> x <= 75.0
    ensures 0.0 <= gain <= 5.0 ==> 0.0 <= x
  {
    if gain <= 5.0 then gain * 15.0 else 75.0 + 25.0 * (m.log(gain / 5.0) / m.log(20.0))
  }

  /** Position 0 is silence, 15 is unity gain (the `disableBooster` reset position), 75 is the threshold 5. */
  lemma BoostAnchors(m: HostMath)
    ensures CalculateBoost(m, 0.0) == 0.0
    ensures CalculateBoost(m, 15.0) == 1.0
    ensures CalculateBoost(m, 75.0) == 5.0
  {
  }

  /** Every position up to 75 (the source does not clamp, so negative ones too) comes back from `calculateBoostSlider`. */
  lemma BoostRoundTrip(m: HostMath, x: real)
    requires LogsDefined(m)
    requires x <= 75.0
    ensures CalculateBoostSlider(m, CalculateBoost(m, x)) == x
  {
  }

  /** The other direction: every gain up to 5 is reached from the position the inverse gives it. */
  lemma BoostSliderRoundTrip(m: HostMath, gain: real)
    requires LogsDefined(m)
    requires gain <= 5.0
    ensures CalculateBoostSlider(m, gain) <= 75.0
    ensures CalculateBoost(m, CalculateBoostSlider(m, gain)) == gain
  {
  }

  /** The linear piece is strictly increasing. */
  lemma BoostLinearIncreasing(m: HostMath, x: real, y: real)
    requires x < y <= 75.0
    ensures CalculateBoost(m, x) < CalculateBoost(m, y)
  {
  }

  /** The two pieces join at 75 and the top reaches 100, whenever the host's `pow` is a power function at base 20. */
  lemma BoostPiecesJoin(m: HostMath)
    requires PowIdentities(m, 20.0)
    ensures BoostHigh(m, 75.0) == CalculateBoost(m, 75.0)
    ensures CalculateBoost(m, 100.0) == 100.0
  {
  }
}
