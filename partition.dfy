/**
 * GPT4.get_segment_list: split a chain's travel distance into legs by
 * drawing random cut points, keeping only those far enough from the ends and
 * from every cut kept so far, then sorting the cuts and taking the gaps.
 * The random draws are supplied by the caller, in the order they are drawn.
 */
module Partition {
  import opened Results
  import opened Settings
  import opened RealSeqs

  /** Reading interpolation_list[-1] on an empty cut list raises IndexError. */
  datatype SegmentError = EmptyCutList

  /** The loop's variables: the cuts accepted so far and generation_times. */
  datatype LoopState = LoopState(cuts: seq<real>, tries: nat)

  /** interpolation_number: how many cuts the loop aims for. */
  function Target(c: Config, width: real): int
    requires c.interpolationReference > 0.0
  {
    (width / c.interpolationReference).Floor
  }

  /** The largest value generation_times can have at the head of the loop. */
  function AttemptLimit(target: int): nat
  {
    if target > 0 then 10 * target else 0
  }

  /** Draws the loop may consume: one more than the limit, the draw that trips the break. */
  function DrawsNeeded(target: int): nat
  {
    if target > 0 then 10 * target + 1 else 0
  }

  /** The any(...) test: x lies closer than m to some accepted cut. */
  predicate TooClose(x: real, cuts: seq<real>, m: real)
  {
    exists k :: 0 <= k < |cuts| && Abs(x - cuts[k]) < m
  }

  /** x lies closer than m to one end of the travel [0, width]. */
  predicate NearEnd(x: real, width: real, m: real)
  {
    x - 0.0 < m || width - x < m
  }

  /** Every cut is at least m from both ends and from every other cut. */
  predicate CutsValid(cuts: seq<real>, width: real, m: real)
  {
    && (forall k :: 0 <= k < |cuts| ==> cuts[k] >= m && width - cuts[k] >= m)
    && Spaced(cuts, m)
  }

  /** The while loop of get_segment_list, continued from the given state. */
  function Run(c: Config, width: real, draws: seq<real>, cuts: seq<real>, tries: nat): LoopState
    requires c.interpolationReference > 0.0
    requires |draws| >= DrawsNeeded(Target(c, width))
    requires tries <= AttemptLimit(Target(c, width))
    decreases AttemptLimit(Target(c, width)) - tries
  {
    var target := Target(c, width);
    var m := c.MinShiftDistance();
    if |cuts| >= target then LoopState(cuts, tries)
    else if tries + 1 > target * 10 then LoopState(cuts, tries + 1)
    else
      var x := draws[tries];
      var accepted := !TooClose(x, cuts, m) && !NearEnd(x, width, m);
      Run(c, width, draws, if accepted then cuts + [x] else cuts, tries + 1)
  }

  /** One turn of the loop, as the method takes it: draw, count, break test, acceptance. */
  lemma RunUnfold(c: Config, width: real, draws: seq<real>, cuts: seq<real>, tries: nat)
    requires c.interpolationReference > 0.0
    requires |draws| >= DrawsNeeded(Target(c, width))
    requires tries <= AttemptLimit(Target(c, width))
    requires |cuts| < Target(c, width)
    ensures tries < |draws|
    ensures tries + 1 > Target(c, width) * 10 ==> Run(c, width, draws, cuts, tries) == LoopState(cuts, tries + 1)
    ensures tries + 1 <= Target(c, width) * 10 ==>
      var x := draws[tries];
      var m := c.MinShiftDistance();
      && tries + 1 <= AttemptLimit(Target(c, width))
      && Run(c, width, draws, cuts, tries)
         == Run(c, width, draws, if !TooClose(x, cuts, m) && !NearEnd(x, width, m) then cuts + [x] else cuts, tries + 1)
  {
  }

  /** Once the target is reached the loop stops where it is. */
  lemma RunDone(c: Config, width: real, draws: seq<real>, cuts: seq<real>, tries: nat)
    requires c.interpolationReference > 0.0
    requires |draws| >= DrawsNeeded(Target(c, width))
    requires tries <= AttemptLimit(Target(c, width))
    ensures |cuts| >= Target(c, width) ==> Run(c, width, draws, cuts, tries).cuts == cuts
  {
  }

  /** The loop keeps every accepted cut admissible. */
  lemma {:induction false} RunKeepsCutsValid(c: Config, width: real, draws: seq<real>, cuts: seq<real>, tries: nat)
    requires c.interpolationReference > 0.0
    requires |draws| >= DrawsNeeded(Target(c, width))
    requires tries <= AttemptLimit(Target(c, width))
    requires CutsValid(cuts, width, c.MinShiftDistance())
    ensures CutsValid(Run(c, width, draws, cuts, tries).cuts, width, c.MinShiftDistance())
    decreases AttemptLimit(Target(c, width)) - tries
  {
    var target := Target(c, width);
    var m := c.MinShiftDistance();
    if |cuts| < target && tries + 1 <= target * 10 {
      var x := draws[tries];
      if !TooClose(x, cuts, m) && !NearEnd(x, width, m) {
        var next := cuts + [x];
        assert FarFrom(x, cuts, m);
        SpacedSnoc(cuts, x, m);
        RunKeepsCutsValid(c, width, draws, next, tries + 1);
      } else {
        RunKeepsCutsValid(c, width, draws, cuts, tries + 1);
      }
    }
  }

  lemma SpacedSnoc(s: seq<real>, x: real, m: real)
    requires Spaced(s, m) && FarFrom(x, s, m)
    ensures Spaced(s + [x], m)
  {
    var r := s + [x];
    forall i, j | 0 <= i < |r| && 0 <= j < |r| && i != j
      ensures Abs(r[i] - r[j]) >= m
    {
      if i == |s| {
        assert r[j] == s[j];
      } else if j == |s| {
        assert r[i] == s[i];
        AbsSymmetric(x, s[i]);
      } else {
        assert r[i] == s[i] && r[j] == s[j];
      }
    }
  }

  /**
   * The loop only appends; it stops either with the target reached or with
   * generation_times one past ten times the target; every accepted cut cost
   * one draw, rejected draws count as attempts too.
   */
  lemma {:induction false} RunBounds(c: Config, width: real, draws: seq<real>, cuts: seq<real>, tries: nat)
    requires c.interpolationReference > 0.0
    requires |draws| >= DrawsNeeded(Target(c, width))
    requires tries <= AttemptLimit(Target(c, width))
    ensures var st := Run(c, width, draws, cuts, tries);
      && cuts <= st.cuts
      && tries <= st.tries <= DrawsNeeded(Target(c, width))
      && |st.cuts| - |cuts| <= st.tries - tries
      && (|st.cuts| >= Target(c, width) || st.tries == DrawsNeeded(Target(c, width)))
      && (|cuts| < Target(c, width) ==> |st.cuts| <= Target(c, width))
      && (|cuts| >= Target(c, width) ==> st.cuts == cuts)
    decreases AttemptLimit(Target(c, width)) - tries
  {
    var target := Target(c, width);
    var m := c.MinShiftDistance();
    if |cuts| < target && tries + 1 <= target * 10 {
      var x := draws[tries];
      if !TooClose(x, cuts, m) && !NearEnd(x, width, m) {
        RunBounds(c, width, draws, cuts + [x], tries + 1);
      } else {
        RunBounds(c, width, draws, cuts, tries + 1);
      }
    }
  }

  /** The cuts the loop accepts, in the order they were drawn. */
  function Cuts(c: Config, width: real, draws: seq<real>): (cuts: seq<real>)
    requires c.interpolationReference > 0.0
    requires |draws| >= DrawsNeeded(Target(c, width))
    ensures CutsValid(cuts, width, c.MinShiftDistance())
    ensures |cuts| <= if Target(c, width) > 0 then Target(c, width) else 0
  {
    RunKeepsCutsValid(c, width, draws, [], 0);
    RunBounds(c, width, draws, [], 0);
    Run(c, width, draws, [], 0).cuts
  }

  /** The loop examines at most DrawsNeeded draws and ends for one of its two reasons only. */
  lemma LoopExit(c: Config, width: real, draws: seq<real>)
    requires c.interpolationReference > 0.0
    requires |draws| >= DrawsNeeded(Target(c, width))
    ensures var st := Run(c, width, draws, [], 0);
      && st.cuts == Cuts(c, width, draws)
      && |st.cuts| <= st.tries <= DrawsNeeded(Target(c, width))
      && (|st.cuts| >= Target(c, width) || st.tries == 10 * Target(c, width) + 1)
  {
    RunBounds(c, width, draws, [], 0);
  }

  /** A travel shorter than the interpolation reference sets the target to zero: no cut is ever accepted. */
  lemma ShortTravelHasNoCuts(c: Config, width: real, draws: seq<real>)
    requires c.interpolationReference > 0.0
    requires width < c.interpolationReference
    ensures Target(c, width) <= 0 && DrawsNeeded(Target(c, width)) == 0
    ensures |draws| >= DrawsNeeded(Target(c, width)) && Cuts(c, width, draws) == []
  {
    var q := width / c.interpolationReference;
    assert q * c.interpolationReference == width;
    assert q < 1.0;
  }

  /** The list comprehension of get_segment_list: the first cut, then the gaps between neighbours. */
  function Gaps(cuts: seq<real>): (g: seq<real>)
    ensures |g| == |cuts|
  {
    seq(|cuts|, i requires 0 <= i < |cuts| => if i == 0 then cuts[0] else cuts[i] - cuts[i - 1])
  }

  /** The gaps telescope: they add up to the last cut. */
  lemma {:induction false} GapsSum(cuts: seq<real>)
    requires cuts != []
    ensures Sum(Gaps(cuts)) == cuts[|cuts| - 1]
  {
    var n := |cuts|;
    if n > 1 {
      var front := cuts[..n - 1];
      GapsSum(front);
      assert Gaps(cuts) == Gaps(front) + [cuts[n - 1] - cuts[n - 2]];
      SumSnoc(Gaps(front), cuts[n - 1] - cuts[n - 2]);
    } else {
      assert Gaps(cuts) == [] + [cuts[0]];
      SumSnoc([], cuts[0]);
    }
  }

  /**
   * The tail of get_segment_list after the sort: the gaps, then the rest of
   * the travel after the last cut; an empty cut list fails on reading its
   * last element.
   */
  function Segments(sorted: seq<real>, width: real): (r: Result<seq<real>, SegmentError>)
    ensures r.Failure? <==> sorted == []
    ensures r.Success? ==> |r.value| == |sorted| + 1 && Sum(r.value) == width
  {
    if sorted == [] then Failure(EmptyCutList)
    else
      var segments := Gaps(sorted) + [width - sorted[|sorted| - 1]];
      GapsSum(sorted);
      SumSnoc(Gaps(sorted), width - sorted[|sorted| - 1]);
      Success(segments)
  }

  /**
   * The leg list with the empty case repaired. The loop treats a shortfall
   * of cuts as normal (it breaks out instead of raising), so ending with no
   * cut at all evidently should give the whole travel as one leg. With at
   * least one cut it agrees with Segments.
   */
  function SegmentsOrWhole(sorted: seq<real>, width: real): (segments: seq<real>)
    ensures |segments| == |sorted| + 1 && Sum(segments) == width
    ensures sorted != [] ==> Segments(sorted, width) == Success(segments)
  {
    if sorted == [] then
      SumSnoc([], width);
      [width]
    else Segments(sorted, width).value
  }

  /** Sorted admissible cuts give legs that are each at least the minimum shift distance. */
  lemma SegmentsAtLeastMinShift(sorted: seq<real>, width: real, m: real)
    requires sorted != [] && Sorted(sorted) && CutsValid(sorted, width, m)
    ensures forall i :: 0 <= i < |Segments(sorted, width).value| ==> Segments(sorted, width).value[i] >= m
  {
    var segments := Segments(sorted, width).value;
    forall i | 0 <= i < |segments| ensures segments[i] >= m {
      if 0 < i < |sorted| {
        assert segments[i] == sorted[i] - sorted[i - 1];
        assert sorted[i - 1] <= sorted[i];
        assert Abs(sorted[i] - sorted[i - 1]) >= m;
      }
    }
  }

  /** Sorting admissible cuts leaves them admissible. */
  lemma SortKeepsCutsValid(cuts: seq<real>, width: real, m: real)
    requires CutsValid(cuts, width, m)
    ensures CutsValid(Sort(cuts), width, m)
  {
    SortKeepsSpaced(cuts, m);
    forall k | 0 <= k < |cuts| ensures Sort(cuts)[k] >= m && width - Sort(cuts)[k] >= m {
      SortKeepsElements(cuts, k);
    }
  }

  /**
   * What get_segment_list returns: an error exactly when no cut was
   * accepted (always so for a travel shorter than the interpolation
   * reference); otherwise at least two and at most target + 1 legs, each at
   * least the minimum shift distance, adding up to the whole travel.
   */
  lemma SegmentListProperties(c: Config, width: real, draws: seq<real>)
    requires c.interpolationReference > 0.0
    requires |draws| >= DrawsNeeded(Target(c, width))
    ensures var r := Segments(Sort(Cuts(c, width, draws)), width);
      && (r.Failure? <==> Cuts(c, width, draws) == [])
      && (width < c.interpolationReference ==> r.Failure?)
      && (r.Success? ==> 2 <= |r.value| <= Target(c, width) + 1 && Sum(r.value) == width)
      && (r.Success? ==> forall i :: 0 <= i < |r.value| ==> r.value[i] >= c.MinShiftDistance())
  {
    var cuts := Cuts(c, width, draws);
    var m := c.MinShiftDistance();
    SortKeepsCutsValid(cuts, width, m);
    if cuts != [] {
      SegmentsAtLeastMinShift(Sort(cuts), width, m);
    }
    if width < c.interpolationReference {
      ShortTravelHasNoCuts(c, width, draws);
    }
  }

  /**
   * The first half of GPT4.get_segment_list: the while loop that draws
   * candidate cuts, with random.uniform(0, width) replaced by the successive
   * elements of draws.
   */
  method AcceptCuts(c: Config, width: real, draws: seq<real>) returns (cuts: seq<real>)
    requires c.interpolationReference > 0.0
    requires |draws| >= DrawsNeeded(Target(c, width))
    ensures cuts == Cuts(c, width, draws)
  {
    var target := Target(c, width);
    var m := c.MinShiftDistance();
    cuts := [];
    var tries: nat := 0;
    ghost var final := Run(c, width, draws, [], 0);
    while |cuts| < target
      invariant tries <= AttemptLimit(target)
      invariant Run(c, width, draws, cuts, tries) == final
      decreases AttemptLimit(target) - tries
    {
      RunUnfold(c, width, draws, cuts, tries);
      var x := draws[tries];
      tries := tries + 1;
      if tries > target * 10 {
        assert final.cuts == cuts;
        break;
      }
      if !TooClose(x, cuts, m) {
        if NearEnd(x, width, m) {
          continue;
        }
        cuts := cuts + [x];
      }
    }
    if |cuts| >= target {
      RunDone(c, width, draws, cuts, tries);
    }
  }

  /**
   * GPT4.get_segment_list: accept cuts, sort them in place, and turn them
   * into leg lengths; reading the last cut of an empty list fails.
   */
  method GetSegmentList(c: Config, width: real, draws: seq<real>) returns (r: Result<seq<real>, SegmentError>)
    requires c.interpolationReference > 0.0
    requires |draws| >= DrawsNeeded(Target(c, width))
    ensures r == Segments(Sort(Cuts(c, width, draws)), width)
    ensures r.Failure? <==> Cuts(c, width, draws) == []
    ensures width < c.interpolationReference ==> r.Failure?
    ensures r.Success? ==> 2 <= |r.value| <= Target(c, width) + 1 && Sum(r.value) == width
    ensures r.Success? ==> forall i :: 0 <= i < |r.value| ==> r.value[i] >= c.MinShiftDistance()
  {
    var cuts := AcceptCuts(c, width, draws);
    cuts := Sort(cuts);
    if cuts == [] {
      r := Failure(EmptyCutList);
    } else {
      r := Success(Gaps(cuts) + [width - cuts[|cuts| - 1]]);
      assert r == Segments(cuts, width);
    }
    SegmentListProperties(c, width, draws);
  }
}
