/**
 * The module-level constants of settings.py, gathered into one immutable
 * configuration value. Colours and rendering resolution are not part of it.
 */
module Settings {

  /** A closed interval [low, high] of reals, as passed to random.uniform. */
  datatype Range = Range(low: real, high: real) {
    predicate NonEmpty() { low <= high }
    predicate Contains(x: real) { low <= x <= high }
  }

  /** A closed interval of integers, as passed to random.randint (both ends included). */
  datatype IntRange = IntRange(low: int, high: int) {
    predicate NonEmpty() { low <= high }
    predicate Contains(n: int) { low <= n <= high }
  }

  datatype Config = Config(
    rectoHeight: real,
    rectoWidthMultiplierRange: Range,
    rectoCurvature: real,
    rectoCurvatureRange: Range,
    sheenFactorRange: Range,
    rectoNumberRange: IntRange,
    rectoSpan: real,
    rectoChainNumber: int,
    rectoChainSpan: real,
    runTime: real,
    interpolationReference: real,
    minShiftSetting: real,  // MIN_SHIFT_DISTANCE as first written, before the clamp
    baseVelocity: real,
    velocityFactor: real)
  {
    /** The frame is exactly as tall as the stacked chains and the spans between them. */
    function FrameHeight(): real
    {
      rectoChainSpan * (rectoChainNumber - 1) as real + rectoHeight * rectoChainNumber as real
    }

    /** The frame is square. */
    function FrameWidth(): real { FrameHeight() }

    function FrameXRadius(): real { FrameWidth() / 2.0 }

    function FrameYRadius(): real { FrameHeight() / 2.0 }

    /**
     * MIN_SHIFT_DISTANCE after its rebinding: never more than half the
     * interpolation reference, and left alone when it already is.
     */
    function MinShiftDistance(): (m: real)
      ensures m <= interpolationReference / 2.0 && m <= minShiftSetting
      ensures m == minShiftSetting || m == interpolationReference / 2.0
      ensures minShiftSetting <= interpolationReference / 2.0 ==> m == minShiftSetting
    {
      if minShiftSetting > interpolationReference / 2.0 then interpolationReference / 2.0 else minShiftSetting
    }

    /** Lower end of the range every intermediate leg velocity is drawn from. */
    function MinVelocity(): real
      requires velocityFactor != 0.0
    {
      baseVelocity / velocityFactor
    }

    /** Upper end of the range every intermediate leg velocity is drawn from. */
    function MaxVelocity(): real { baseVelocity * velocityFactor }

    /** The assumptions the rest of the program makes of its settings. */
    predicate WellFormed()
    {
      && rectoHeight > 0.0
      && rectoWidthMultiplierRange.NonEmpty()
      && rectoCurvatureRange.NonEmpty()
      && sheenFactorRange.NonEmpty()
      && rectoNumberRange.NonEmpty() && rectoNumberRange.low >= 1
      && rectoChainNumber >= 1
      && interpolationReference > 0.0
      && MinShiftDistance() > 0.0
      && baseVelocity > 0.0
      && velocityFactor >= 1.0
    }
  }

  /** The values settings.py assigns. */
  const DEFAULT: Config := Config(
    rectoHeight := 1.0,
    rectoWidthMultiplierRange := Range(4.0, 32.0),
    rectoCurvature := 1.0,
    rectoCurvatureRange := Range(0.0, 1.0),
    sheenFactorRange := Range(0.1, 0.14),
    rectoNumberRange := IntRange(10, 64),
    rectoSpan := 4.0,
    rectoChainNumber := 16,
    rectoChainSpan := 6.0,
    runTime := 30.0,
    interpolationReference := 128.0,
    minShiftSetting := 64.0,
    baseVelocity := 1.0,
    velocityFactor := 4.0)

  /** Height of k chains of height h stacked with a gap of span between neighbours. */
  function StackHeight(h: real, span: real, k: nat): real
  {
    if k == 0 then 0.0
    else if k == 1 then h
    else StackHeight(h, span, k - 1) + span + h
  }

  lemma {:induction false} StackHeightClosedForm(h: real, span: real, k: nat)
    requires k >= 1
    ensures StackHeight(h, span, k) == span * (k - 1) as real + h * k as real
  {
    if k > 1 {
      StackHeightClosedForm(h, span, k - 1);
    }
  }

  /** FRAME_HEIGHT is the height of RECTOCHAIN_NUMBER stacked chains. */
  lemma FrameHeightIsStack(c: Config)
    requires c.rectoChainNumber >= 1
    ensures c.FrameHeight() == StackHeight(c.rectoHeight, c.rectoChainSpan, c.rectoChainNumber)
    ensures c.FrameWidth() == c.FrameHeight()
    ensures c.FrameXRadius() * 2.0 == c.FrameWidth() && c.FrameYRadius() * 2.0 == c.FrameHeight()
  {
    StackHeightClosedForm(c.rectoHeight, c.rectoChainSpan, c.rectoChainNumber);
  }

  /** The shipped settings are well formed; the clamp leaves 64 unchanged; the frame is 106 units square. */
  lemma DefaultWellFormed()
    ensures DEFAULT.WellFormed()
    ensures DEFAULT.rectoCurvatureRange.Contains(DEFAULT.rectoCurvature)
    ensures DEFAULT.MinShiftDistance() == 64.0
    ensures DEFAULT.FrameHeight() == 106.0 && DEFAULT.FrameWidth() == 106.0
    ensures DEFAULT.FrameXRadius() == 53.0 && DEFAULT.FrameYRadius() == 53.0
  {
  }

  /**
   * With a positive base velocity and a factor of at least one, the sampling
   * range for leg velocities has a positive lower end and contains the base
   * velocity.
   */
  lemma VelocityRange(c: Config)
    requires c.baseVelocity > 0.0 && c.velocityFactor >= 1.0
    ensures 0.0 < c.MinVelocity() <= c.baseVelocity <= c.MaxVelocity()
  {
    var b, f := c.baseVelocity, c.velocityFactor;
    var q := b / f;
    assert q * f == b;
    assert q * f >= q * 1.0;
    assert b * f >= b * 1.0;
  }
}
