# Bilitubbies animation — a verified model of its motion planning

The animation fills a square frame with sixteen horizontal "recto chains":
rows of rounded rectangles ("rectos") that slide left or right, alternating
from row to row. This project models the part of the program that decides
how they move. It does not model how they are drawn.

- **Settings** (`settings.dfy`) — the constants of `settings.py` as one
  immutable `Config` value. It includes the derived frame size and radii and
  the rebinding that clamps `MIN_SHIFT_DISTANCE` to half of
  `INTERPOLATION_REFERENCE`.
- **Chain** (`chain.dfy`) — `RectoChain.__init__`: the loop that adds up the
  recto widths, the `RECTO_SPAN` term, and the check that raises when the
  chain is narrower than the frame. A chain is a class whose only mutable
  field is the x coordinate of its centre. `Shift` moves it.
- **Partition** (`partition.dfy`) — `GPT4.get_segment_list`. A `while` loop
  draws candidate cuts of the travel width `W`. It rejects a candidate that
  is too close to an accepted cut or to either end, and it counts every
  attempt. The accepted cuts are then sorted and turned into leg lengths.
  The loop is a method proved against a recursive function `Run` over the
  loop state (accepted cuts, attempts).
- **RealSeqs** (`realseqs.dfy`) — sums, sortedness and spacing of real
  sequences. `Sort` is an insertion sort that stands for Python's
  `list.sort`, specified as sorted and a permutation.
- **Shifts** (`shifts.dfy`) — the `SmoothShift` animation. It stores its
  start centre and displacement, and its run time is `2d / (vs + ve)`. Its
  eased progress is `s(α) = (vs − ve)·T/(2π)·sin(πα) + (vs + ve)/2·T·α`.
- **Scene** (`scene.dfy`) — the chain loop of `GPT4.construct`. For each
  chain it gets the legs, draws one velocity per inner cut and builds one
  `SmoothShift` per leg. As in the source, it shifts the chain before
  building every leg but the first. So leg `i` starts at the original centre
  plus the direction times the sum of the earlier legs.

Randomness is supplied by the caller as sequences of draws (`random.uniform`
inside the partition loop and for the velocities; the recto widths arrive as
a sequence). `math.sin` is a function parameter. The only facts used about
it are `sin(0) = 0` and `sin(PI) = 0`. The direction vectors `LEFT` and
`RIGHT` are the signs −1 and +1 along x, so the norm of a displacement is its
absolute value. Python floats are modelled as exact reals.

`get_segment_list` treats a shortfall of cuts as normal: it breaks out of
the loop at `gpt4.py:167-168` instead of raising. Ending with no cut at all
evidently should give the whole travel as one leg. Instead, line 188 reads
the last element of an empty list and raises. The model follows the code:
`Segments` and `GetSegmentList` return `Failure(EmptyCutList)`, and the
repaired behaviour is given separately (see Findings).

## Model

| member | source | states |
|---|---|---|
| Settings.DEFAULT | settings.py:9-45 | the configuration value holding every constant `settings.py` assigns that the motion uses; its consequences are stated by `Settings.DefaultWellFormed` |
| Settings.Config.FrameHeight | settings.py:28-30 | `RECTOCHAIN_SPAN·(RECTOCHAIN_NUMBER − 1) + RECTO_HEIGHT·RECTOCHAIN_NUMBER`; `Settings.FrameHeightIsStack` proves it is the height of the stacked chains |
| Settings.Config.FrameWidth | settings.py:31 | the frame width is the frame height (square frame, `Settings.FrameHeightIsStack`) |
| Settings.Config.FrameXRadius | settings.py:32 | half the frame width (`Settings.FrameHeightIsStack`) |
| Settings.Config.FrameYRadius | settings.py:33 | half the frame height (`Settings.FrameHeightIsStack`) |
| Settings.Config.MinVelocity | gpt4.py:103 | the lower end of the velocity sampling range, `BASE_VELOCITY / VELOCITY_FACTOR`; `Settings.VelocityRange` proves it positive and at most `BASE_VELOCITY` |
| Settings.Config.MaxVelocity | gpt4.py:103 | the upper end of the velocity sampling range, `BASE_VELOCITY · VELOCITY_FACTOR`; `Settings.VelocityRange` proves it at least `BASE_VELOCITY` |
| Settings.Config.MinShiftDistance | settings.py:37-43 | after the clamp the minimum shift distance is at most half the interpolation reference and at most the configured value; it is one of the two; it is unchanged when the configured value already satisfies the bound |
| Settings.FrameHeightIsStack | settings.py:28-33 | the frame height equals the height of `RECTOCHAIN_NUMBER` stacked chains with `RECTOCHAIN_SPAN` gaps (proved by induction against a recursive stacking definition); the frame is square; each radius is half its side |
| Settings.DefaultWellFormed | settings.py:9-45 | the shipped values are well formed (every range has low ≤ high, positive height, reference and velocities, factor ≥ 1); the curvature lies in its range; the clamp leaves 64 unchanged; the frame is 106 units square with radii 53 |
| Settings.VelocityRange | settings.py:44-45 | with a positive base velocity and a factor ≥ 1, the velocity sampling range `[BASE/FACTOR, BASE·FACTOR]` has a positive lower end and contains `BASE_VELOCITY` |
| RealSeqs.Sort | gpt4.py:181 | the in-place ascending sort yields a sorted permutation of the accepted cuts |
| RealSeqs.SortKeepsSpaced | gpt4.py:170-181 | sorting keeps the property that any two cuts are at least the minimum shift distance apart |
| Partition.Target | gpt4.py:159-161 | `interpolation_number = floor(W / INTERPOLATION_REFERENCE)`; `Partition.ShortTravelHasNoCuts` proves it is at most 0 below the reference |
| Partition.TooClose | gpt4.py:170-173 | the `any(...)` test: some accepted cut lies strictly less than the minimum shift distance from the candidate |
| Partition.NearEnd | gpt4.py:174-177 | the end test: the candidate lies strictly less than the minimum shift distance from 0 or from `W` |
| Partition.Run | gpt4.py:164-179 | the loop as a recursion over (accepted cuts, attempts): stop at the target, otherwise count the draw, stop once the count exceeds ten times the target, skip a draw near a cut or an end, else append it; `Partition.RunBounds` and `Partition.RunKeepsCutsValid` state what it guarantees |
| Partition.RunKeepsCutsValid | gpt4.py:164-179 | from any valid loop state, every cut the loop accepts is at least the minimum shift distance from both ends and from every other accepted cut |
| Partition.RunBounds | gpt4.py:159-168 | the loop only appends; at most one cut per attempt; at most `10·target + 1` attempts; it stops with the target reached or with the attempt counter one past ten times the target; it never accepts more than the target |
| Partition.Cuts | gpt4.py:158-179 | the cuts the loop accepts are valid (inside `[m, W − m]`, pairwise at least `m` apart) and there are at most `max(target, 0)` of them |
| Partition.LoopExit | gpt4.py:162-168 | from the initial state, the accepted cuts number at most the attempts, which number at most `10·target + 1`; the loop ends only with the target reached or the attempt budget exceeded |
| Partition.ShortTravelHasNoCuts | gpt4.py:159-161 | a travel shorter than `INTERPOLATION_REFERENCE` has target `floor(W/ref) ≤ 0`, so no draw is taken and no cut is accepted |
| Partition.Gaps | gpt4.py:182-187 | the comprehension: the first cut, then each cut minus the one before; one gap per cut, and `Partition.GapsSum` proves they telescope |
| Partition.GapsSum | gpt4.py:182-187 | the differences between consecutive sorted cuts (the first taken from 0) telescope to the last cut |
| Partition.Segments | gpt4.py:182-188 | an empty cut list fails; otherwise there is one leg more than cuts and the legs add up to exactly the travel width |
| Partition.SegmentsAtLeastMinShift | gpt4.py:170-188 | for sorted valid cuts every leg, including the first (`cut[0]`) and the last (`W − cut[last]`), is at least the minimum shift distance |
| Partition.SortKeepsCutsValid | gpt4.py:181 | sorting valid cuts yields sorted valid cuts |
| Partition.SegmentListProperties | gpt4.py:156-189 | the leg list fails exactly when no cut was accepted, always when `W < ref`; on success it has between 2 and `target + 1` legs, they add up to `W`, and each is at least the minimum shift distance |
| Partition.AcceptCuts | gpt4.py:158-179 | the `while` loop with its attempt counter produces exactly the cuts of the recursive loop specification `Cuts` |
| Partition.GetSegmentList | gpt4.py:156-189 | the method returns the legs of the sorted accepted cuts; it fails exactly when no cut was accepted and always when `W < ref`; on success there are 2 to `target + 1` legs, summing to `W`, each at least the minimum shift distance |
| Partition.SegmentsOrWhole | gpt4.py:188 | the evidently intended leg list: always one leg more than cuts, summing to `W` (the whole travel when there is no cut), and equal to the source's result whenever that succeeds |
| Chain.DrawnWidth | gpt4.py:21 | a recto width as drawn: `RECTO_HEIGHT` times a multiplier within `RECTO_WIDTH_MULTIPLIER_RANGE`; used by `Chain.EffectiveWidthBounds` |
| Chain.EffectiveWidthOf | gpt4.py:53 | `effective_width`: the sum of the recto widths plus `RECTO_SPAN` once per recto; `Chain.EffectiveWidth` proves the accumulation loop computes it |
| Chain.EffectiveWidth | gpt4.py:50-53 | the accumulation loop plus the `RECTO_SPAN · count` term computes the sum of the recto widths plus one span per recto |
| Chain.Build | gpt4.py:47-61 | construction fails, reporting both widths, exactly when the effective width is below the frame width; a built chain is fresh and valid and keeps the widths, the arrange span and the centre; the width check uses `RECTO_SPAN`, not the `recto_span` argument |
| Chain.RectoChain.Shift | gpt4.py:113 | shifting moves the chain's centre by the displacement |
| Chain.EffectiveWidthBounds | gpt4.py:48-53 | with every width drawn from its range, the effective width of `n` rectos lies between `n·(min width + span)` and `n·(max width + span)` |
| Chain.ShippedSettingsCanFailCheck | gpt4.py:48-57 | with the shipped settings, ten rectos of the smallest width give effective width 80 < 106, so the width check can raise |
| Shifts.Make | gpt4.py:202-212 | the stored start, displacement and velocities are the arguments; the distance is the norm of the displacement and the run time is `2d/(vs+ve)` |
| Shifts.RunTimeCoversDistance | gpt4.py:209 | `(vs+ve)/2 · run_time = d`; the run time is positive for a non-zero displacement and a positive velocity sum |
| Shifts.Progress | gpt4.py:215-219 | the eased distance `s(α)`; `Shifts.ProgressEndpoints` and `Shifts.ProgressLinearWhenVelocitiesEqual` state its behaviour |
| Shifts.Position | gpt4.py:221-223 | the centre `move_to` sets: the start plus the vector scaled by `s(α)/d`; `Shifts.PositionEndpoints` states where it begins and ends |
| Shifts.ProgressEndpoints | gpt4.py:214-219 | the eased progress is 0 at α = 0 and the whole distance at α = 1 |
| Shifts.ProgressLinearWhenVelocitiesEqual | gpt4.py:215-219 | with equal velocities the sine term vanishes and `s(α) = d·α` |
| Shifts.PositionEndpoints | gpt4.py:214-223 | the centre is at the start at α = 0 and has moved by the whole displacement at α = 1 |
| Shifts.UnitVelocityExample | gpt4.py:202-223 | a 100-unit shift at unit velocities lasts 100 and is at its midpoint at α = 0.5 |
| Scene.Direction | gpt4.py:99 | the direction is −1 or +1; it is LEFT (negative) exactly for even chain indices |
| Scene.DrawnVelocitiesPositive | gpt4.py:101-106 | every velocity drawn from `[BASE/FACTOR, BASE·FACTOR]` is positive |
| Scene.LegVelocitiesPositive | gpt4.py:115-120 | every leg's start and end velocities are positive, so its velocity sum is non-zero |
| Scene.VelocitiesDrawn | gpt4.py:101-106 | every entry of `velocity_list` lies in `[BASE/FACTOR, BASE·FACTOR]`, the range `random.uniform` draws from; `Scene.DrawnVelocitiesPositive` proves them positive |
| Scene.StartVelocity | gpt4.py:115-117 | the start velocity of leg `index`: `BASE_VELOCITY` for leg 0, otherwise the velocity drawn for the cut before it; wiring proved in `Scene.LegVelocityWiring` |
| Scene.EndVelocity | gpt4.py:118-120 | the end velocity of leg `index`: `BASE_VELOCITY` for the last leg, otherwise the velocity drawn for the cut after it; wiring proved in `Scene.LegVelocityWiring` |
| Scene.Leg | gpt4.py:110-121 | the `SmoothShift` for leg `i`: from the centre shifted by the earlier legs, by direction times the leg length, with the wired velocities; `Scene.LegsContinuous` and `Scene.LegDuration` state its properties |
| Scene.LegSchedule | gpt4.py:109-123 | the whole list the generator yields, one `Scene.Leg` per segment in order |
| Scene.BuildLegs | gpt4.py:107-123 | the generator yields exactly `Scene.LegSchedule` from the original centre: leg `i` starts at the original centre plus direction times the sum of the first `i` legs and moves by direction times leg `i`; the chain ends up shifted by every leg but the last |
| Scene.AdvanceLeg | gpt4.py:110-121 | after shifting by the previous leg, the chain stands where leg `i` starts, and the shift built there is leg `i` |
| Scene.LegsContinuous | gpt4.py:110-122 | the first leg starts at the original centre, each leg ends where the next starts, and the last ends after the whole travel |
| Scene.LegVelocityWiring | gpt4.py:115-120 | the first leg starts and the last leg ends at `BASE_VELOCITY`; each leg ends at the velocity the next one starts with |
| Scene.LegDuration | gpt4.py:204-209 | a leg of positive length along LEFT or RIGHT is well formed, covers exactly that length and lasts a positive time |
| Scene.LastLegStart | gpt4.py:110-113 | a chain shifted by every leg but the last stands exactly where the last leg starts |
| Scene.LegsChained | gpt4.py:107-123 | legs built over segments of at least the minimum shift distance form a continuous motion over the whole travel with velocities wired from leg to leg |
| Scene.ChainMotion | gpt4.py:97-126 | for a chain that passed the width check: the motion fails exactly when its partition accepts no cut, leaving the chain in place; otherwise (`Scene.ChainMoved`) its legs are the schedule over its own partition's segments and its own velocity draws, they carry the chain by its whole effective width in its direction with velocities wired from leg to leg, and the chain is left standing where its last leg starts |
| Scene.Construct | gpt4.py:96-128 | for chains that passed the width check: the scene fails exactly when some chain's partition accepts no cut; otherwise chain `i`'s legs are exactly the schedule built from its own partition of its effective width and its own velocity draws, starting at its original centre, in its own direction (`Scene.IsSchedule`); they move it continuously over its whole effective width, and the chain is left standing where its last leg starts |
| Scene.WideEnoughChainCanFailPartition | gpt4.py:188 | eleven rectos of width 6 pass the width check (110 ≥ 106), but the target is 0, and reading the last cut of the empty list fails |

## Left out

- Rendering and the scene graph are not modelled, being behaviour of the manim library: camera and frame configuration, `to_corner`/`next_to`/`to_edge` placement, `arrange`, `AnimationGroup`, `self.play`, `tempconfig` and `render`. The starting centre of each chain is a parameter.
- `Succession(..., run_time=RUN_TIME)` rescales the legs to fill `RUN_TIME`. That timing is manim's and is not modelled. Each leg keeps its own run time.
- Recto visuals are not modelled because they are cosmetic: the curvature fallback, colour choice, sheen, corner radius and the deep-copied trailing rectos. The copies are not counted in the effective width anyway.
- `color_gradient`, `hex_to_rgb`, the background colour, pixel size and frame rate in `settings.py` are not modelled: they are colour or rendering settings computed by foreign code.
- The `Test` scene and all commented-out code are not modelled.
- Random draws are inputs, not distributions. Draws outside `[0, W]` need no precondition because the end check rejects them.
- Floating-point rounding is not modelled. Every quantity is an exact real.
- `sin` is abstract, and the speed-at-endpoint (derivative) behaviour of the easing is not modelled.
- Vector norms are not modelled, because displacements only ever lie along x.
- Shifts.Make: requires `vs + ve ≠ 0`, where the source would raise `ZeroDivisionError`. Every leg the scene builds has positive velocities (Scene.LegVelocitiesPositive).
- Shifts.Position: requires a non-zero distance, where the source would divide by zero. Every leg the scene builds has a positive length.
- Scene.BuildLegs: requires at least one leg. With an empty cut list the source never reaches the generator, because line 188 has already raised.

## Findings

| source | as written | input that shows it | evidently intended | confidence | as-written member | corrected member |
|---|---|---|---|---|---|---|
| gpt4.py:188 | `interpolation_list[-1]` is read even when no cut was accepted, so the call raises `IndexError` | a chain of 11 rectos of width 6: effective width 110 passes the width check (≥ 106), but `floor(110/128) = 0`, so the loop accepts no cut | the whole travel as a single leg `[W]` | high, not executed | Scene.WideEnoughChainCanFailPartition | Partition.SegmentsOrWhole |
