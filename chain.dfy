/**
 * RectoChain: a row of rounded rectangles ("rectos") that travels as one
 * unit. Its construction adds up the widths and refuses a chain narrower
 * than the frame; afterwards only its position changes.
 */
module Chain {
  import opened Results
  import opened Settings
  import opened RealSeqs

  /** The exception RectoChain.__init__ raises, with the two widths it reports. */
  datatype ChainError = NarrowerThanFrame(effectiveWidth: real, frameWidth: real)

  /** effective_width: the widths of the rectos plus one RECTO_SPAN per recto. */
  function EffectiveWidthOf(c: Config, widths: seq<real>): real
  {
    Sum(widths) + c.rectoSpan * |widths| as real
  }

  /** A recto width as Recto draws it: RECTO_HEIGHT times a multiplier from its range. */
  predicate DrawnWidth(c: Config, w: real)
  {
    c.rectoHeight * c.rectoWidthMultiplierRange.low <= w <= c.rectoHeight * c.rectoWidthMultiplierRange.high
  }

  class RectoChain {
    const config: Config
    /** The widths of the recto_number rectos, in order. */
    const widths: seq<real>
    /** The recto_span argument: only the spacing of arrange, never the width check. */
    const arrangeSpan: real
    const effectiveWidth: real
    /** x coordinate of the chain's centre; the only thing that moves. */
    var centerX: real

    ghost predicate Valid()
    {
      effectiveWidth == EffectiveWidthOf(config, widths) && effectiveWidth >= config.FrameWidth()
    }

    constructor (c: Config, widths: seq<real>, arrangeSpan: real, effectiveWidth: real, centerX: real)
      requires effectiveWidth == EffectiveWidthOf(c, widths) && effectiveWidth >= c.FrameWidth()
      ensures Valid()
      ensures config == c && this.widths == widths && this.arrangeSpan == arrangeSpan
      ensures this.effectiveWidth == effectiveWidth && this.centerX == centerX
    {
      config := c;
      this.widths := widths;
      this.arrangeSpan := arrangeSpan;
      this.effectiveWidth := effectiveWidth;
      this.centerX := centerX;
    }

    /** Mobject.shift along x: moves the chain by dx. */
    method Shift(dx: real)
      modifies this
      ensures centerX == old(centerX) + dx
    {
      centerX := centerX + dx;
    }
  }

  /** The accumulation loop of RectoChain.__init__ followed by the RECTO_SPAN term. */
  method EffectiveWidth(c: Config, widths: seq<real>) returns (total: real)
    ensures total == EffectiveWidthOf(c, widths)
  {
    var totalRectoWidth := 0.0;
    for i := 0 to |widths|
      invariant totalRectoWidth == Sum(widths[..i])
    {
      SumPrefixStep(widths, i);
      totalRectoWidth := totalRectoWidth + widths[i];
    }
    assert widths[..|widths|] == widths;
    total := totalRectoWidth + c.rectoSpan * |widths| as real;
  }

  /**
   * RectoChain.__init__ for the given recto widths: fails when the effective
   * width is below the frame width, otherwise yields a chain at centerX.
   * The width check uses the configured RECTO_SPAN whatever arrangeSpan is.
   */
  method Build(c: Config, widths: seq<real>, arrangeSpan: real, centerX: real) returns (r: Result<RectoChain, ChainError>)
    ensures r.Failure? <==> EffectiveWidthOf(c, widths) < c.FrameWidth()
    ensures r.Failure? ==> r.error == NarrowerThanFrame(EffectiveWidthOf(c, widths), c.FrameWidth())
    ensures r.Success? ==> && fresh(r.value) && r.value.Valid()
                           && r.value.config == c && r.value.widths == widths
                           && r.value.arrangeSpan == arrangeSpan && r.value.centerX == centerX
  {
    var w := EffectiveWidth(c, widths);
    if w < c.FrameWidth() {
      r := Failure(NarrowerThanFrame(w, c.FrameWidth()));
    } else {
      var chain := new RectoChain(c, widths, arrangeSpan, w, centerX);
      r := Success(chain);
    }
  }

  /**
   * With every width drawn from its range, the effective width of n rectos
   * lies between n times (smallest width + span) and n times (largest width + span).
   */
  lemma EffectiveWidthBounds(c: Config, widths: seq<real>)
    requires forall i :: 0 <= i < |widths| ==> DrawnWidth(c, widths[i])
    ensures var n := |widths| as real;
      var lo := c.rectoHeight * c.rectoWidthMultiplierRange.low;
      var hi := c.rectoHeight * c.rectoWidthMultiplierRange.high;
      n * (lo + c.rectoSpan) <= EffectiveWidthOf(c, widths) <= n * (hi + c.rectoSpan)
  {
    var n := |widths| as real;
    var lo := c.rectoHeight * c.rectoWidthMultiplierRange.low;
    var hi := c.rectoHeight * c.rectoWidthMultiplierRange.high;
    SumBounds(widths, lo, hi);
    assert EffectiveWidthOf(c, widths) == Sum(widths) + c.rectoSpan * n;
    assert n * (lo + c.rectoSpan) == n * lo + c.rectoSpan * n;
    assert n * (hi + c.rectoSpan) == n * hi + c.rectoSpan * n;
  }

  /**
   * With the shipped settings the width check can fail: ten rectos of the
   * smallest width give an effective width of 80, below the frame width of 106.
   */
  lemma ShippedSettingsCanFailCheck(widths: seq<real>)
    requires |widths| == 10 && forall i :: 0 <= i < |widths| ==> widths[i] == 4.0
    ensures forall i :: 0 <= i < |widths| ==> DrawnWidth(DEFAULT, widths[i])
    ensures DEFAULT.rectoNumberRange.Contains(|widths|)
    ensures EffectiveWidthOf(DEFAULT, widths) == 80.0 < DEFAULT.FrameWidth()
  {
    SumBounds(widths, 4.0, 4.0);
  }
}
