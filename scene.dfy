/**
 * The motion part of GPT4.construct: for every chain, split its effective
 * width into legs, draw one velocity per inner cut, and build one
 * SmoothShift per leg, shifting the chain as each leg is built.
 */
module Scene {
  import opened Results
  import opened Settings
  import opened RealSeqs
  import opened Partition
  import opened Chain
  import opened Shifts

  /** direction_vector as a sign along x: LEFT for even chain indices, RIGHT for odd ones. */
  function Direction(chainIndex: nat): (d: real)
    ensures d == -1.0 || d == 1.0
    ensures (d < 0.0) <==> chainIndex % 2 == 0
  {
    if chainIndex % 2 == 0 then -1.0 else 1.0
  }

  /** Every drawn velocity lies in [BASE_VELOCITY / VELOCITY_FACTOR, BASE_VELOCITY * VELOCITY_FACTOR]. */
  predicate VelocitiesDrawn(c: Config, velocities: seq<real>)
    requires c.velocityFactor != 0.0
  {
    forall i :: 0 <= i < |velocities| ==> c.MinVelocity() <= velocities[i] <= c.MaxVelocity()
  }

  /** A drawn velocity is positive, given a positive base velocity and a factor of at least one. */
  lemma DrawnVelocitiesPositive(c: Config, velocities: seq<real>)
    requires c.baseVelocity > 0.0 && c.velocityFactor >= 1.0
    requires VelocitiesDrawn(c, velocities)
    ensures forall i :: 0 <= i < |velocities| ==> velocities[i] > 0.0
  {
    VelocityRange(c);
  }

  /** What the leg builder is handed: a non-empty leg list and one positive velocity per inner cut. */
  predicate LegInputs(c: Config, segments: seq<real>, velocities: seq<real>)
  {
    && c.baseVelocity > 0.0
    && |segments| >= 1 && |velocities| == |segments| - 1
    && forall i :: 0 <= i < |velocities| ==> velocities[i] > 0.0
  }

  /** start_velocity of leg index. */
  function StartVelocity(c: Config, velocities: seq<real>, index: nat): real
    requires index > 0 ==> index - 1 < |velocities|
  {
    if index == 0 then c.baseVelocity else velocities[index - 1]
  }

  /** end_velocity of leg index out of legCount legs. */
  function EndVelocity(c: Config, velocities: seq<real>, index: nat, legCount: nat): real
    requires index != legCount - 1 ==> index < |velocities|
  {
    if index == legCount - 1 then c.baseVelocity else velocities[index]
  }

  /** Every leg starts and ends with a positive velocity, so its velocity sum is positive. */
  lemma LegVelocitiesPositive(c: Config, segments: seq<real>, velocities: seq<real>, index: nat)
    requires LegInputs(c, segments, velocities) && index < |segments|
    ensures StartVelocity(c, velocities, index) > 0.0
    ensures EndVelocity(c, velocities, index, |segments|) > 0.0
  {
  }

  /**
   * The SmoothShift built for leg i: it starts where the chain has been
   * shifted to by the legs before it and moves by the leg's length.
   */
  function Leg(c: Config, x0: real, dir: real, segments: seq<real>, velocities: seq<real>, i: nat): SmoothShift
    requires LegInputs(c, segments, velocities) && i < |segments|
  {
    LegVelocitiesPositive(c, segments, velocities, i);
    Make(x0 + dir * Sum(segments[..i]), dir * segments[i],
         StartVelocity(c, velocities, i), EndVelocity(c, velocities, i, |segments|))
  }

  /** The whole list of SmoothShifts the generator yields, one Leg per segment. */
  function LegSchedule(c: Config, x0: real, dir: real, segments: seq<real>, velocities: seq<real>): seq<SmoothShift>
    requires LegInputs(c, segments, velocities)
  {
    seq(|segments|, i requires 0 <= i < |segments| => Leg(c, x0, dir, segments, velocities, i))
  }

  /**
   * The generator inside Succession(...): leg 0 uses the chain where it is;
   * each later leg first shifts the chain by the previous leg's length.
   * The chain is left shifted by every leg but the last.
   */
  method BuildLegs(c: Config, rc: RectoChain, dir: real, segments: seq<real>, velocities: seq<real>)
      returns (legs: seq<SmoothShift>)
    requires LegInputs(c, segments, velocities)
    modifies rc
    ensures legs == LegSchedule(c, old(rc.centerX), dir, segments, velocities)
    ensures rc.centerX == old(rc.centerX) + dir * Sum(segments[..|segments| - 1])
  {
    ghost var x0 := rc.centerX;
    legs := [];
    var index := 0;
    while index < |segments|
      invariant 0 <= index <= |segments|
      invariant |legs| == index
      invariant forall i :: 0 <= i < index ==> legs[i] == Leg(c, x0, dir, segments, velocities, i)
      invariant index == 0 ==> rc.centerX == x0
      invariant index > 0 ==> rc.centerX == x0 + dir * Sum(segments[..index - 1])
    {
      AdvanceLeg(c, x0, dir, segments, velocities, index, rc.centerX);
      if index > 0 {
        rc.Shift(dir * segments[index - 1]);
      }
      var startVelocity := StartVelocity(c, velocities, index);
      var endVelocity := EndVelocity(c, velocities, index, |segments|);
      var leg := Make(rc.centerX, dir * segments[index], startVelocity, endVelocity);
      assert leg == Leg(c, x0, dir, segments, velocities, index);
      legs := legs + [leg];
      index := index + 1;
    }
    assert legs == LegSchedule(c, x0, dir, segments, velocities);
  }

  /**
   * One step of the generator: after the shift by the previous leg (none for
   * leg 0) the chain stands where leg i starts, and the SmoothShift built
   * there is leg i.
   */
  lemma AdvanceLeg(c: Config, x0: real, dir: real, segments: seq<real>, velocities: seq<real>, i: nat, centerX: real)
    requires LegInputs(c, segments, velocities) && i < |segments|
    requires i == 0 ==> centerX == x0
    requires i > 0 ==> centerX == x0 + dir * Sum(segments[..i - 1])
    ensures var startX := if i > 0 then centerX + dir * segments[i - 1] else centerX;
      && startX == x0 + dir * Sum(segments[..i])
      && StartVelocity(c, velocities, i) + EndVelocity(c, velocities, i, |segments|) != 0.0
      && Leg(c, x0, dir, segments, velocities, i)
         == Make(startX, dir * segments[i], StartVelocity(c, velocities, i), EndVelocity(c, velocities, i, |segments|))
  {
    if i > 0 {
      ShiftedStep(x0, dir, segments, i - 1);
    } else {
      assert segments[..0] == [];
    }
    LegVelocitiesPositive(c, segments, velocities, i);
  }

  /** Shifting by one more leg adds that leg to the distance already shifted. */
  lemma ShiftedStep(x0: real, dir: real, segments: seq<real>, i: nat)
    requires i < |segments|
    ensures x0 + dir * Sum(segments[..i]) + dir * segments[i] == x0 + dir * Sum(segments[..i + 1])
  {
    SumPrefixStep(segments, i);
    var a, b := Sum(segments[..i]), segments[i];
    assert dir * (a + b) == dir * a + dir * b;
  }

  /** Leg i starts after the first i leg lengths and moves by leg i's length. */
  lemma LegStart(c: Config, x0: real, dir: real, segments: seq<real>, velocities: seq<real>, i: nat)
    requires LegInputs(c, segments, velocities) && i < |segments|
    ensures Leg(c, x0, dir, segments, velocities, i).startX == x0 + dir * Sum(segments[..i])
    ensures Leg(c, x0, dir, segments, velocities, i).vector == dir * segments[i]
  {
  }

  /** Leg i ends after the first i + 1 leg lengths. */
  lemma LegEnd(c: Config, x0: real, dir: real, segments: seq<real>, velocities: seq<real>, i: nat)
    requires LegInputs(c, segments, velocities) && i < |segments|
    ensures Leg(c, x0, dir, segments, velocities, i).startX + Leg(c, x0, dir, segments, velocities, i).vector
        == x0 + dir * Sum(segments[..i + 1])
  {
    LegStart(c, x0, dir, segments, velocities, i);
    ShiftedStep(x0, dir, segments, i);
  }

  /** Leg i + 1 starts where leg i ends. */
  lemma LegsMeet(c: Config, x0: real, dir: real, segments: seq<real>, velocities: seq<real>, i: nat)
    requires LegInputs(c, segments, velocities) && i + 1 < |segments|
    ensures Leg(c, x0, dir, segments, velocities, i).startX + Leg(c, x0, dir, segments, velocities, i).vector
        == Leg(c, x0, dir, segments, velocities, i + 1).startX
  {
    LegEnd(c, x0, dir, segments, velocities, i);
    LegStart(c, x0, dir, segments, velocities, i + 1);
  }

  /** The last leg ends after the whole travel. */
  lemma LastLegEnd(c: Config, x0: real, dir: real, segments: seq<real>, velocities: seq<real>)
    requires LegInputs(c, segments, velocities)
    ensures var last := Leg(c, x0, dir, segments, velocities, |segments| - 1);
      last.startX + last.vector == x0 + dir * Sum(segments)
  {
    var n := |segments|;
    assert segments[..n] == segments;
    assert Sum(segments[..n]) == Sum(segments);
    LegEnd(c, x0, dir, segments, velocities, n - 1);
  }

  /** Each leg ends exactly where the next one starts, and the last ends after the whole travel. */
  lemma LegsContinuous(c: Config, x0: real, dir: real, segments: seq<real>, velocities: seq<real>)
    requires LegInputs(c, segments, velocities)
    ensures Leg(c, x0, dir, segments, velocities, 0).startX == x0
    ensures forall i, j :: 0 <= i < |segments| && j == i + 1 < |segments| ==>
      Leg(c, x0, dir, segments, velocities, i).startX + Leg(c, x0, dir, segments, velocities, i).vector
        == Leg(c, x0, dir, segments, velocities, j).startX
    ensures var last := Leg(c, x0, dir, segments, velocities, |segments| - 1);
      last.startX + last.vector == x0 + dir * Sum(segments)
  {
    assert Leg(c, x0, dir, segments, velocities, 0).startX == x0 + dir * Sum(segments[..0]);
    forall i, j | 0 <= i < |segments| && j == i + 1 < |segments|
      ensures Leg(c, x0, dir, segments, velocities, i).startX + Leg(c, x0, dir, segments, velocities, i).vector
        == Leg(c, x0, dir, segments, velocities, j).startX
    {
      LegsMeet(c, x0, dir, segments, velocities, i);
    }
    LastLegEnd(c, x0, dir, segments, velocities);
  }

  /**
   * The first leg starts and the last leg ends at BASE_VELOCITY, and every
   * leg ends at the velocity the next one starts with.
   */
  lemma LegVelocityWiring(c: Config, x0: real, dir: real, segments: seq<real>, velocities: seq<real>)
    requires LegInputs(c, segments, velocities)
    ensures Leg(c, x0, dir, segments, velocities, 0).startVelocity == c.baseVelocity
    ensures Leg(c, x0, dir, segments, velocities, |segments| - 1).endVelocity == c.baseVelocity
    ensures forall i, j :: 0 <= i < |segments| && j == i + 1 < |segments| ==>
      Leg(c, x0, dir, segments, velocities, i).endVelocity == Leg(c, x0, dir, segments, velocities, j).startVelocity
  {
  }

  /** A leg of positive length along LEFT or RIGHT covers that length and lasts a positive time. */
  lemma LegDuration(c: Config, x0: real, dir: real, segments: seq<real>, velocities: seq<real>, i: nat)
    requires LegInputs(c, segments, velocities) && i < |segments|
    requires dir == -1.0 || dir == 1.0
    requires segments[i] > 0.0
    ensures Leg(c, x0, dir, segments, velocities, i).Valid()
    ensures Leg(c, x0, dir, segments, velocities, i).distance == segments[i]
    ensures Leg(c, x0, dir, segments, velocities, i).runTime > 0.0
  {
    LegVelocitiesPositive(c, segments, velocities, i);
    RunTimeCoversDistance(Leg(c, x0, dir, segments, velocities, i));
  }

  /** What a successful chain motion promises about its legs. */
  ghost predicate ChainedMotion(c: Config, x0: real, dir: real, width: real, legs: seq<SmoothShift>)
  {
    && |legs| >= 2
    && (forall i :: 0 <= i < |legs| ==> legs[i].Valid())
    && legs[0].startX == x0
    && (forall i :: 0 <= i < |legs| - 1 ==> legs[i].startX + legs[i].vector == legs[i + 1].startX)
    && legs[|legs| - 1].startX + legs[|legs| - 1].vector == x0 + dir * width
    && legs[0].startVelocity == c.baseVelocity
    && legs[|legs| - 1].endVelocity == c.baseVelocity
    && (forall i :: 0 <= i < |legs| - 1 ==> legs[i].endVelocity == legs[i + 1].startVelocity)
    && (forall i :: 0 <= i < |legs| ==> legs[i].distance >= c.MinShiftDistance() && legs[i].runTime > 0.0)
  }

  /**
   * Legs built over segments that are each at least the minimum shift
   * distance form a chained motion over the whole travel.
   */
  lemma LegsChained(c: Config, x0: real, dir: real, segments: seq<real>, velocities: seq<real>, legs: seq<SmoothShift>)
    requires LegInputs(c, segments, velocities) && |segments| >= 2
    requires dir == -1.0 || dir == 1.0
    requires c.MinShiftDistance() > 0.0
    requires forall i :: 0 <= i < |segments| ==> segments[i] >= c.MinShiftDistance()
    requires legs == LegSchedule(c, x0, dir, segments, velocities)
    ensures ChainedMotion(c, x0, dir, Sum(segments), legs)
  {
    LegsContinuous(c, x0, dir, segments, velocities);
    LegVelocityWiring(c, x0, dir, segments, velocities);
    forall i | 0 <= i < |legs| - 1
      ensures legs[i].startX + legs[i].vector == legs[i + 1].startX
      ensures legs[i].endVelocity == legs[i + 1].startVelocity
    {
      LegsMeet(c, x0, dir, segments, velocities, i);
    }
    forall i | 0 <= i < |legs|
      ensures legs[i].Valid() && legs[i].distance >= c.MinShiftDistance() && legs[i].runTime > 0.0
    {
      LegDuration(c, x0, dir, segments, velocities, i);
    }
  }

  /** Where the leg generator leaves a chain: at the start of its last leg. */
  ghost predicate StandsAtLastLeg(centerX: real, legs: seq<SmoothShift>)
  {
    legs != [] && centerX == legs[|legs| - 1].startX
  }

  /** A chain shifted by every leg but the last stands where the last leg starts. */
  lemma LastLegStart(c: Config, x0: real, dir: real, segments: seq<real>, velocities: seq<real>, legs: seq<SmoothShift>, centerX: real)
    requires LegInputs(c, segments, velocities)
    requires legs == LegSchedule(c, x0, dir, segments, velocities)
    requires centerX == x0 + dir * Sum(segments[..|segments| - 1])
    ensures StandsAtLastLeg(centerX, legs)
  {
    LegStart(c, x0, dir, segments, velocities, |segments| - 1);
  }

  /**
   * One iteration of the chain loop of GPT4.construct for chain chainIndex:
   * fails when get_segment_list fails, leaving the chain where it was;
   * otherwise the legs carry the chain by its whole effective width in its
   * direction, with velocities wired from leg to leg.
   */
  method ChainMotion(c: Config, chainIndex: nat, rc: RectoChain, cutDraws: seq<real>, velocityDraws: seq<real>)
      returns (r: Result<seq<SmoothShift>, SegmentError>)
    requires c.WellFormed() && rc.Valid()
    requires |cutDraws| >= DrawsNeeded(Target(c, rc.effectiveWidth))
    requires |velocityDraws| >= Target(c, rc.effectiveWidth)
    requires VelocitiesDrawn(c, velocityDraws)
    modifies rc
    ensures r.Failure? <==> Cuts(c, rc.effectiveWidth, cutDraws) == []
    ensures r.Failure? ==> rc.centerX == old(rc.centerX)
    ensures r.Success? ==>
      ChainMoved(c, chainIndex, old(rc.centerX), rc.centerX, rc.effectiveWidth, cutDraws, velocityDraws, r.value)
  {
    var dir := Direction(chainIndex);
    var width := rc.effectiveWidth;
    var segmentList := GetSegmentList(c, width, cutDraws);
    if segmentList.Failure? {
      return Failure(segmentList.error);
    }
    var segments := segmentList.value;
    var velocities := velocityDraws[..|segments| - 1];
    DrawnVelocitiesPositive(c, velocityDraws);
    ghost var x0 := rc.centerX;
    var legs := BuildLegs(c, rc, dir, segments, velocities);
    LegsChained(c, x0, dir, segments, velocities, legs);
    LastLegStart(c, x0, dir, segments, velocities, legs, rc.centerX);
    r := Success(legs);
  }

  /**
   * What one pass of the chain loop leaves behind for chain j: its partition
   * found a cut, its legs move it from x0 over its whole width, and the
   * chain now stands at x, the start of its last leg.
   */
  ghost predicate ChainMoved(c: Config, j: nat, x0: real, x: real, width: real, cutDraws: seq<real>, velocityDraws: seq<real>, legs: seq<SmoothShift>)
  {
    && c.interpolationReference > 0.0
    && |cutDraws| >= DrawsNeeded(Target(c, width))
    && Cuts(c, width, cutDraws) != []
    && IsSchedule(c, j, x0, width, cutDraws, velocityDraws, legs)
    && ChainedMotion(c, x0, Direction(j), width, legs)
    && StandsAtLastLeg(x, legs)
  }

  /**
   * legs is the schedule chain j builds from its own draws: the legs of its
   * partition of width, with the first velocities drawn for it, starting at x0.
   */
  ghost predicate IsSchedule(c: Config, j: nat, x0: real, width: real, cutDraws: seq<real>, velocityDraws: seq<real>, legs: seq<SmoothShift>)
  {
    && c.interpolationReference > 0.0
    && |cutDraws| >= DrawsNeeded(Target(c, width))
    && Segments(Sort(Cuts(c, width, cutDraws)), width).Success?
    && var segments := Segments(Sort(Cuts(c, width, cutDraws)), width).value;
      && |segments| - 1 <= |velocityDraws|
      && LegInputs(c, segments, velocityDraws[..|segments| - 1])
      && legs == LegSchedule(c, x0, Direction(j), segments, velocityDraws[..|segments| - 1])
  }

  /**
   * The chain loop of GPT4.construct: one motion per chain, in order; the
   * first chain whose partition fails aborts the whole construction.
   */
  method Construct(c: Config, chains: seq<RectoChain>, cutDraws: seq<seq<real>>, velocityDraws: seq<seq<real>>)
      returns (r: Result<seq<seq<SmoothShift>>, SegmentError>)
    requires c.WellFormed()
    requires |chains| == c.rectoChainNumber == |cutDraws| == |velocityDraws|
    requires forall i, j :: 0 <= i < j < |chains| ==> chains[i] != chains[j]
    requires forall i :: 0 <= i < |chains| ==> chains[i].Valid()
    requires forall i :: 0 <= i < |chains| ==>
      && |cutDraws[i]| >= DrawsNeeded(Target(c, chains[i].effectiveWidth))
      && |velocityDraws[i]| >= Target(c, chains[i].effectiveWidth)
      && VelocitiesDrawn(c, velocityDraws[i])
    modifies set i | 0 <= i < |chains| :: chains[i]
    ensures r.Failure? <==> exists i :: 0 <= i < |chains| && Cuts(c, chains[i].effectiveWidth, cutDraws[i]) == []
    ensures r.Success? ==> |r.value| == |chains| && forall i :: 0 <= i < |chains| ==>
      ChainedMotion(c, old(chains[i].centerX), Direction(i), chains[i].effectiveWidth, r.value[i])
    ensures r.Success? ==> forall i :: 0 <= i < |chains| ==> StandsAtLastLeg(chains[i].centerX, r.value[i])
    ensures r.Success? ==> forall i :: 0 <= i < |chains| ==>
      IsSchedule(c, i, old(chains[i].centerX), chains[i].effectiveWidth, cutDraws[i], velocityDraws[i], r.value[i])
  {
    var animations: seq<seq<SmoothShift>> := [];
    for i := 0 to |chains|
      invariant |animations| == i
      invariant forall j :: 0 <= j < i ==>
        ChainMoved(c, j, old(chains[j].centerX), chains[j].centerX, chains[j].effectiveWidth, cutDraws[j], velocityDraws[j], animations[j])
      invariant forall j :: i <= j < |chains| ==> chains[j].centerX == old(chains[j].centerX)
    {
      label before:
      var motion := ChainMotion(c, i, chains[i], cutDraws[i], velocityDraws[i]);
      if motion.Failure? {
        assert Cuts(c, chains[i].effectiveWidth, cutDraws[i]) == [];
        return Failure(motion.error);
      }
      ghost var done := animations;
      animations := animations + [motion.value];
      forall j | 0 <= j <= i
        ensures ChainMoved(c, j, old(chains[j].centerX), chains[j].centerX, chains[j].effectiveWidth, cutDraws[j], velocityDraws[j], animations[j])
      {
        if j < i {
          assert animations[j] == done[j];
          assert chains[j] != chains[i];
          assert chains[j].centerX == old@before(chains[j].centerX);
        }
      }
    }
    r := Success(animations);
  }

  /**
   * A chain that passes the width check can still make get_segment_list
   * fail: eleven rectos of width 6 have an effective width of 110, above the
   * frame width of 106 but below the interpolation reference of 128, so the
   * target is zero and the cut list read at its last element is empty.
   */
  lemma WideEnoughChainCanFailPartition(widths: seq<real>, draws: seq<real>)
    requires |widths| == 11 && forall i :: 0 <= i < |widths| ==> widths[i] == 6.0
    ensures DEFAULT.rectoNumberRange.Contains(|widths|)
    ensures forall i :: 0 <= i < |widths| ==> DrawnWidth(DEFAULT, widths[i])
    ensures EffectiveWidthOf(DEFAULT, widths) == 110.0 >= DEFAULT.FrameWidth()
    ensures Target(DEFAULT, 110.0) == 0 && |draws| >= DrawsNeeded(Target(DEFAULT, 110.0))
    ensures Segments(Sort(Cuts(DEFAULT, 110.0, draws)), 110.0) == Failure(EmptyCutList)
  {
    SumBounds(widths, 6.0, 6.0);
    ShortTravelHasNoCuts(DEFAULT, 110.0, draws);
  }
}
