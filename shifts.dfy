/**
 * SmoothShift: move a chain by a displacement along x over a run time chosen
 * so that its speed blends from a start velocity to an end velocity.
 * The sine function is a parameter; only sin(0) = 0 and sin(PI) = 0 are used.
 */
module Shifts {
  import opened RealSeqs

  /** manim's PI, to double precision. */
  const PI: real := 3.141592653589793

  /**
   * sin is only ever relied on to vanish at 0 and at PI. This idealises
   * math.sin on the double constant PI, which is not exactly zero there.
   */
  predicate SineEndpoints(sin: real -> real)
  {
    sin(0.0) == 0.0 && sin(PI) == 0.0
  }

  /**
   * The fields SmoothShift.__init__ stores: the centre it starts from
   * (mob_coordinates), the displacement (total_vector), its length
   * (shift_distance), both velocities, and the run time it passes on.
   */
  datatype SmoothShift = SmoothShift(
    startX: real,
    vector: real,
    distance: real,
    startVelocity: real,
    endVelocity: real,
    runTime: real)
  {
    /** The relations __init__ establishes between the stored fields. */
    predicate Valid()
    {
      && distance == Abs(vector)
      && startVelocity + endVelocity != 0.0
      && runTime == distance * 2.0 / (startVelocity + endVelocity)
    }
  }

  /** SmoothShift.__init__: store the start, the displacement and its length, the velocities and the run time. */
  function Make(startX: real, vector: real, startVelocity: real, endVelocity: real): (sh: SmoothShift)
    requires startVelocity + endVelocity != 0.0
    ensures sh.Valid()
    ensures sh.startX == startX && sh.vector == vector
    ensures sh.startVelocity == startVelocity && sh.endVelocity == endVelocity
  {
    var distance := Abs(vector);
    SmoothShift(startX, vector, distance, startVelocity, endVelocity, distance * 2.0 / (startVelocity + endVelocity))
  }

  lemma MeanVelocityCoversDistance(distance: real, velocitySum: real)
    requires velocitySum != 0.0
    ensures velocitySum / 2.0 * (distance * 2.0 / velocitySum) == distance
    ensures distance > 0.0 && velocitySum > 0.0 ==> distance * 2.0 / velocitySum > 0.0
  {
    var t := distance * 2.0 / velocitySum;
    assert t * velocitySum == distance * 2.0;
  }

  /**
   * The run time of a SmoothShift makes the mean of its two velocities cover
   * its distance exactly; it is positive for a non-zero displacement and a
   * positive velocity sum.
   */
  lemma RunTimeCoversDistance(sh: SmoothShift)
    requires sh.Valid()
    ensures (sh.startVelocity + sh.endVelocity) / 2.0 * sh.runTime == sh.distance
    ensures sh.vector != 0.0 && sh.startVelocity + sh.endVelocity > 0.0 ==> sh.runTime > 0.0
  {
    MeanVelocityCoversDistance(sh.distance, sh.startVelocity + sh.endVelocity);
  }

  /** s(alpha) of interpolate_mobject: distance travelled at progress alpha. */
  function Progress(sh: SmoothShift, sin: real -> real, alpha: real): real
  {
    (sh.startVelocity - sh.endVelocity) * sh.runTime / (2.0 * PI) * sin(PI * alpha)
      + (sh.startVelocity + sh.endVelocity) / 2.0 * sh.runTime * alpha
  }

  /** The eased shift starts with nothing travelled and ends with the whole distance. */
  lemma ProgressEndpoints(sh: SmoothShift, sin: real -> real)
    requires sh.Valid() && SineEndpoints(sin)
    ensures Progress(sh, sin, 0.0) == 0.0
    ensures Progress(sh, sin, 1.0) == sh.distance
  {
    assert PI * 0.0 == 0.0 && PI * 1.0 == PI;
    MeanVelocityCoversDistance(sh.distance, sh.startVelocity + sh.endVelocity);
  }

  /** With equal velocities the sine term vanishes and the shift is linear in alpha. */
  lemma ProgressLinearWhenVelocitiesEqual(sh: SmoothShift, sin: real -> real, alpha: real)
    requires sh.Valid() && sh.startVelocity == sh.endVelocity
    ensures Progress(sh, sin, alpha) == sh.distance * alpha
  {
    MeanVelocityCoversDistance(sh.distance, sh.startVelocity + sh.endVelocity);
  }

  /** The x coordinate move_to puts the chain's centre at, for progress alpha. */
  function Position(sh: SmoothShift, sin: real -> real, alpha: real): real
    requires sh.distance != 0.0
  {
    sh.startX + sh.vector * (Progress(sh, sin, alpha) / sh.distance)
  }

  /** At progress 0 the chain is where it started, at progress 1 it has moved by the whole vector. */
  lemma PositionEndpoints(sh: SmoothShift, sin: real -> real)
    requires sh.Valid() && sh.distance != 0.0 && SineEndpoints(sin)
    ensures Position(sh, sin, 0.0) == sh.startX
    ensures Position(sh, sin, 1.0) == sh.startX + sh.vector
  {
    ProgressEndpoints(sh, sin);
  }

  /**
   * A shift of 100 units at unit velocities lasts 100 time units and is at
   * its midpoint halfway through.
   */
  lemma UnitVelocityExample(startX: real, sin: real -> real)
    ensures Make(startX, 100.0, 1.0, 1.0).runTime == 100.0
    ensures Position(Make(startX, 100.0, 1.0, 1.0), sin, 0.5) == startX + 50.0
  {
    var sh := Make(startX, 100.0, 1.0, 1.0);
    ProgressLinearWhenVelocitiesEqual(sh, sin, 0.5);
  }
}
