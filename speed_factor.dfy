/** The slider of the main window maps a discrete position to the speed factor
    that the window hands to the process monitor (MainWindow::on_sliderCtrl_valueChanged).
    Factors are exact reals here; the source computes them in `double`. */
module SpeedFactorMap {

  /** The six branches of the if/else chain, in source order. */
  datatype Band = Fine | Half | Steep | Fast | Slow | Neutral

  /** The branch the chain takes for slider position `v`. Each guard of the
      chain is stated without the negations of the guards before it: the bands
      partition the integers, and only position 0 falls through to `Neutral`. */
  function BandOf(v: int): (b: Band)
    ensures b == Fine <==> 1 <= v < 5
    ensures b == Half <==> 5 <= v < 7
    ensures b == Steep <==> 7 <= v < 9
    ensures b == Fast <==> 9 <= v
    ensures b == Slow <==> v < 0
    ensures b == Neutral <==> v == 0
  {
    if 1 <= v < 5 then Fine
    else if 5 <= v < 7 then Half
    else if 7 <= v < 9 then Steep
    else if v >= 9 then Fast
    else if v < 0 then Slow
    else Neutral
  }

  /** The formula a branch of the chain assigns to the speed factor. */
  function BandFormula(b: Band, v: int): real
  {
    match b
    case Fine => v as real * 0.25 + 1.0
    case Half => v as real * 0.5
    case Steep => (3 * (v - 7) + 4) as real
    case Fast => (5 * (v - 9) + 10) as real
    case Slow => (30 + v) as real / 30.0
    case Neutral => 1.0
  }

  /** The factor pushed to the speed engine for slider position `v`: the
      formula of the branch the chain takes. */
  function SpeedFactor(v: int): (f: real)
    ensures f == 1.0 <==> v == 0
    ensures f > 1.0 <==> v >= 1
    ensures f < 1.0 <==> v < 0
    ensures f > 0.0 <==> v > -30
  {
    BandFormula(BandOf(v), v)
  }

  /** How fast a band's factor grows per notch. */
  function Slope(b: Band): real
  {
    match b
    case Fine => 0.25
    case Half => 0.5
    case Steep => 3.0
    case Fast => 5.0
    case Slow => 1.0 / 30.0
    case Neutral => 0.0
  }

  /** Inside one band the factor is linear in the position. */
  lemma LinearWithinBand(a: int, b: int)
    requires BandOf(a) == BandOf(b)
    ensures SpeedFactor(b) - SpeedFactor(a) == Slope(BandOf(a)) * (b - a) as real
  {
  }

  /** Every position of a band lands in the band's range of factors. */
  lemma BandRanges(v: int)
    ensures 1 <= v < 5 ==> SpeedFactor(v) in {1.25, 1.5, 1.75, 2.0}
    ensures 5 <= v < 7 ==> SpeedFactor(v) in {2.5, 3.0}
    ensures 7 <= v < 9 ==> SpeedFactor(v) in {4.0, 7.0}
    ensures v >= 9 ==> SpeedFactor(v) >= 10.0 && SpeedFactor(v + 1) == SpeedFactor(v) + 5.0
    ensures v < 0 ==> SpeedFactor(v) < 1.0 && SpeedFactor(v - 1) == SpeedFactor(v) - 1.0 / 30.0
  {
  }

  /** The factors around every band boundary. */
  lemma BoundaryValues()
    ensures SpeedFactor(-30) == 0.0 && SpeedFactor(-1) == 29.0 / 30.0
    ensures SpeedFactor(0) == 1.0 && SpeedFactor(1) == 1.25
    ensures SpeedFactor(4) == 2.0 && SpeedFactor(5) == 2.5 && SpeedFactor(6) == 3.0
    ensures SpeedFactor(7) == 4.0 && SpeedFactor(8) == 7.0 && SpeedFactor(9) == 10.0
  {
  }

  /** How much the factor grows when the slider moves from position `v - 1`
      to position `v`. */
  function StepUp(v: int): (d: real)
    ensures 1.0 / 30.0 <= d <= 5.0
  {
    if v <= 0 then 1.0 / 30.0
    else if v <= 4 then 0.25
    else if v <= 6 then 0.5
    else if v == 7 then 1.0
    else if v <= 9 then 3.0
    else 5.0
  }

  /** The steps never shrink as the slider moves right. */
  lemma StepsNeverShrink(a: int, b: int)
    requires a <= b
    ensures StepUp(a) <= StepUp(b)
  {
  }

  /** Reference definition of the mapping: factor 1 at position 0, and each
      notch to the right adds StepUp of the new position. */
  function Accumulated(v: int): real
    decreases if v < 0 then -v else v
  {
    if v == 0 then 1.0
    else if v > 0 then Accumulated(v - 1) + StepUp(v)
    else Accumulated(v + 1) - StepUp(v + 1)
  }

  /** One notch to the right raises the factor by exactly StepUp. */
  lemma OneNotch(v: int)
    ensures SpeedFactor(v + 1) == SpeedFactor(v) + StepUp(v + 1)
  {
  }

  /** The branch formulas agree with the step-by-step reference everywhere. */
  lemma {:induction false} SpeedFactorIsAccumulated(v: int)
    ensures SpeedFactor(v) == Accumulated(v)
    decreases if v < 0 then -v else v
  {
    if v > 0 {
      SpeedFactorIsAccumulated(v - 1);
      OneNotch(v - 1);
    } else if v < 0 {
      SpeedFactorIsAccumulated(v + 1);
      OneNotch(v);
    }
  }

  /** The mapping is strictly increasing across all band boundaries. */
  lemma StrictlyIncreasing(a: int, b: int)
    requires a < b
    ensures SpeedFactor(a) < SpeedFactor(b)
  {
  }

  /** Distinct slider positions push distinct factors. */
  lemma Injective(a: int, b: int)
    ensures SpeedFactor(a) == SpeedFactor(b) <==> a == b
  {
    if a < b { StrictlyIncreasing(a, b); }
    else if b < a { StrictlyIncreasing(b, a); }
  }

  /** Larger positions escalate in steeper steps: the increase from `v` to
      `v + 1` is never larger than the one from `v + 1` to `v + 2`. */
  lemma Escalates(v: int)
    ensures SpeedFactor(v + 1) - SpeedFactor(v) <= SpeedFactor(v + 2) - SpeedFactor(v + 1)
  {
    OneNotch(v);
    OneNotch(v + 1);
    StepsNeverShrink(v + 1, v + 2);
  }
}
