/** Conversion of a raw soil-probe sample into a moisture percentage
    (main.py, lines 20-21 and 29). Python's true division on the integer
    expression is modelled by exact `real` division. */
module Conversion {

  /** Calibration constants hard-coded in the sensor loop: the raw reading of
      a completely dry probe and of a completely wet one. */
  const MaxVal: int := 65535
  const MinVal: int := 0

  /** The range of `ADC.read_u16`. */
  type U16 = x: int | 0 <= x <= 0xFFFF

  /** Inverted linear map: the dry reading gives 0%, the wet reading 100%.
      The formula does not clamp; the result stays in [0, 100] exactly for
      readings between the two calibration points. */
  function Percent(currVal: int): (p: real)
    ensures currVal == MaxVal ==> p == 0.0
    ensures currVal == MinVal ==> p == 100.0
    ensures MinVal <= currVal <= MaxVal <==> 0.0 <= p <= 100.0
  {
    ((MaxVal - currVal) * 100) as real / (MaxVal - MinVal) as real
  }

  /** The raw reading a percentage stands for: the inverse of `Percent`. */
  function RawOf(p: real): real
  {
    MaxVal as real - p * (MaxVal - MinVal) as real / 100.0
  }

  lemma RawOfPercent(currVal: int)
    ensures RawOf(Percent(currVal)) == currVal as real
  {
  }

  lemma PercentInjective(a: int, b: int)
    ensures Percent(a) == Percent(b) ==> a == b
  {
    RawOfPercent(a);
    RawOfPercent(b);
  }

  /** A larger raw sample never gives a larger percentage, and a strictly
      larger one gives a strictly smaller percentage. */
  lemma PercentAntitone(a: int, b: int)
    requires a <= b
    ensures Percent(b) <= Percent(a)
    ensures a < b ==> Percent(b) < Percent(a)
  {
  }

  /** Equal steps of the raw sample give equal steps of the percentage. */
  lemma PercentLinear(a: int, b: int)
    ensures Percent(a) - Percent(b) == (b - a) as real * 100.0 / (MaxVal - MinVal) as real
  {
  }

  /** Every sample `read_u16` can deliver converts into [0, 100]: a
      corollary of `Percent`'s range clause, kept for callers that hold a
      `U16`. */
  lemma PercentOfU16InRange(currVal: U16)
    ensures 0.0 <= Percent(currVal) <= 100.0
  {
  }

  /** The percentages of a sequence of samples, in order. */
  function Percents(xs: seq<U16>): (ps: seq<real>)
    ensures |ps| == |xs|
    ensures forall i :: 0 <= i < |xs| ==> ps[i] == Percent(xs[i])
  {
    if |xs| == 0 then [] else [Percent(xs[0])] + Percents(xs[1..])
  }
}
