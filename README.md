# sounds: a verified model of the analysis, spiral and palette core

`sounds` draws a music track as an animated Archimedean spiral. Its core is
three TypeScript files:

- `src/AudioAnalysis.ts` enriches the music-analysis record of a track. Every
  bar, beat, segment and section gains the fraction of the track at which it
  starts. Beats and segments gain their start in milliseconds. Each segment
  gains the index of its strongest pitch class. The track gains a list of
  beat timings.
- `src/Record.ts` is the spiral `r = a + b·θ`. It holds the stroke loop
  `draw`, which takes an adaptive angular step, and `findTheta`, a bisection
  that inverts the spiral's arc length.
- `src/ColorPalette.ts` derives three key colours from a track's audio
  features. Its `sampleColor` mixes them with random barycentric weights drawn
  from a stream seeded by the track's URI.

The Dafny model has one module per source file:

- `AudioAnalysis` in `audio_analysis.dfy`: pure functions over sequences.
- `Spiral` in `spiral_record.dfy`: the class `Record`, with `Draw` and
  `FindTheta` as methods with loops.
- `Palette` in `color_palette.dfy`: pure colour arithmetic and the class
  `ColorPalette`, whose `SampleColor` advances a cursor into the stream.

Two support modules sit beside them. `Numeric` (`numeric.dfy`) holds
JavaScript's division with its infinities and NaN, `Math.min`, `Math.abs`,
repeated halving, and facts about square roots. `Wrappers`
(`wrappers.dfy`) holds `Option`.

Numbers are exact reals. A division by a zero track duration returns a
non-finite `Num` instead of being excluded by a precondition. The
transcendental and foreign functions are parameters, and the lemmas that
need them state what they rely on:

- `Math.sqrt`, through `IsSqrt`;
- `Math.asinh`, through `IsIncreasing`;
- the `alea` generator, through `UnitStream`, which puts every draw
  in [0, 1);
- `remap` and the `color` package's HSL→RGB conversion, about which nothing
  is required.

## Model

| member | source | states |
|---|---|---|
| Numeric.Div | src/AudioAnalysis.ts:105 | `x / d` is finite exactly when `d ≠ 0`, and then `value · d == x`. For `d == 0` it is +∞, −∞ or NaN by the sign of `x`. |
| Numeric.Min | src/Record.ts:52 | `Math.min`: NaN if either operand is NaN. On finite operands it is the smaller one. Against +∞ it is the finite operand. |
| Numeric.Abs | src/Record.ts:91 | `Math.abs` of a finite number is non-negative and is either the number or its negation. |
| AudioAnalysis.EnrichBeat | src/AudioAnalysis.ts:103-107 | An enriched beat keeps every raw field of the beat. |
| AudioAnalysis.EnrichBar | src/AudioAnalysis.ts:111-114 | An enriched bar keeps every raw field of the bar. |
| AudioAnalysis.EnrichSegment | src/AudioAnalysis.ts:120-136 | An enriched segment keeps every raw field of the segment. |
| AudioAnalysis.EnrichSection | src/AudioAnalysis.ts:143-149 | An enriched section keeps every raw field of the section. |
| AudioAnalysis.ProcessBeats | src/AudioAnalysis.ts:102-108 | One enriched beat per raw beat, in the same order, each keeping its raw fields. |
| AudioAnalysis.BeatsEnriched | src/AudioAnalysis.ts:102-108 | A beat's progress is its start over the track duration, finite when the duration is non-zero. Its millisecond start is 1000 times its start. |
| AudioAnalysis.ProcessBars | src/AudioAnalysis.ts:110-115 | One enriched bar per raw bar, in order, each keeping its raw fields. |
| AudioAnalysis.BarsEnriched | src/AudioAnalysis.ts:110-115 | A bar gains exactly its progress fraction, start over track duration. |
| AudioAnalysis.ProcessSegments | src/AudioAnalysis.ts:117-138 | One enriched segment per raw segment, in order, each keeping its raw fields. |
| AudioAnalysis.SegmentsEnriched | src/AudioAnalysis.ts:117-138 | A segment gains exactly the arg-max of its pitches, its progress fraction and its millisecond start. |
| AudioAnalysis.PeakStep | src/AudioAnalysis.ts:122-127 | The reduce callback: the accumulator is replaced only by a strictly greater pitch, with its index. It has no contract of its own. `ReducePitches` and `ReducePitchesIsPeak` state what folding it computes. |
| AudioAnalysis.ReducePitches | src/AudioAnalysis.ts:121-129 | The fold's confidence is never negative. At confidence 0 the index is 0. At a positive confidence the index is in range and holds that pitch. |
| AudioAnalysis.ReducePitchesIsPeak | src/AudioAnalysis.ts:121-129 | The fold's confidence bounds every pitch. Every pitch before its index is strictly smaller. |
| AudioAnalysis.AvgPitch | src/AudioAnalysis.ts:133 | `avgPitch: pitch.i`, the index the fold ends with. It has no contract of its own. `AvgPitchIsFirstMaximum` and `FirstMaximumUnique` pin it down as the first index of the largest pitch, or 0. |
| AudioAnalysis.AvgPitchIsFirstMaximum | src/AudioAnalysis.ts:121-133 | `avgPitch` is the first index of the largest pitch when some pitch is positive. It is 0 when none is, including an empty vector. |
| AudioAnalysis.FirstMaximumUnique | src/AudioAnalysis.ts:123-126 | Only one index can be the first maximum, so the previous row determines `avgPitch`. |
| AudioAnalysis.AvgPitchTieBreak | src/AudioAnalysis.ts:123 | The strict `>` keeps the first of equal maxima: `[0.5, 0.9, 0.9, 0.1]` gives 1. |
| AudioAnalysis.ProcessSections | src/AudioAnalysis.ts:140-151 | One enriched section per raw section, in order, each keeping its raw fields. |
| AudioAnalysis.SectionsEnriched | src/AudioAnalysis.ts:140-151 | A section's start fraction is its start over the track duration. With a non-zero duration both fractions are finite and differ by the section's duration over the track's. |
| AudioAnalysis.ProcessTrack | src/AudioAnalysis.ts:153-158 | The track keeps its raw fields and gains one beat timing per beat. |
| AudioAnalysis.BeatTimingsMatchBeats | src/AudioAnalysis.ts:156 | The i-th beat timing of the track is the i-th enriched beat's millisecond start. |
| AudioAnalysis.ProcessRawAnalysis | src/AudioAnalysis.ts:160-171 | Meta, tatums and the raw track pass through unchanged. |
| AudioAnalysis.EnrichmentRoundTrip | src/AudioAnalysis.ts:160-171 | Enrichment only adds fields. Stripping them gives back the raw analysis, every list in its original order. |
| AudioAnalysis.QuotientsAscending | src/AudioAnalysis.ts:105 | Ascending starts divided by one positive duration give finite, ascending fractions. The four rows below apply it to each list. |
| AudioAnalysis.BeatProgressAscending | src/AudioAnalysis.ts:105 | With a positive duration, ascending beat starts give finite, ascending beat progress. |
| AudioAnalysis.BarProgressAscending | src/AudioAnalysis.ts:113 | The same for bars. |
| AudioAnalysis.SegmentProgressAscending | src/AudioAnalysis.ts:134 | The same for segments. |
| AudioAnalysis.SectionProgressAscending | src/AudioAnalysis.ts:146 | The same for the start fractions of sections. |
| AudioAnalysis.ProgressWithinTrack | src/AudioAnalysis.ts:105 | An event starting within a track of positive duration has a finite progress fraction in [0, 1]. |
| Spiral.Record.constructor | src/Record.ts:30-40 | Each option given overrides its default: `a = 1`, `b = π`, `thetaStart = 8π`, `rotations = 20`. |
| Spiral.Record.GetDistance | src/Record.ts:74-76 | The radius `a + b·t`. It has no contract of its own. `DistanceIncreasing` and `TurnSpacing` state what it guarantees. |
| Spiral.Record.DistanceIncreasing | src/Record.ts:74-76 | With `b > 0` the radius grows strictly with the angle. |
| Spiral.Record.TurnSpacing | src/Record.ts:74-76 | Successive turns of the spiral lie `2π·b` apart. |
| Spiral.Record.ThetaDelta | src/Record.ts:66-69 | `PRECISION / (2π·t)` is positive for `t > 0`, +∞ at `t = 0` and negative for `t < 0`. |
| Spiral.Record.DrawStep | src/Record.ts:52 | From angle 0 on, the step is finite, positive and at most two degrees. Below 0 it is negative. |
| Spiral.Record.DrawStepAntitone | src/Record.ts:52 | Further out, the step is no larger. |
| Spiral.Record.DrawStepNegative | src/Record.ts:48-52 | Below angle 0 the step moves the angle down, away from the end angle. |
| Spiral.Record.StepsFrom | src/Record.ts:48-52 | The angle after `n` loop bodies of `draw` from a given angle. It has no contract of its own. `DrawNeverEndsFromNegative` is stated over it. |
| Spiral.Record.DrawNeverEndsFromNegative | src/Record.ts:48-52 | From a negative start, every iterate stays at or below the start. So with `rotations ≥ 0` the guard `theta < rotations·2π` always holds and the source's loop never ends. |
| Spiral.Record.StrokesExtend | src/Record.ts:48-58 | One more stroke from an angle in [0, end) keeps the strokes chained, each a step of `draw`, in increasing order. |
| Spiral.Record.Draw | src/Record.ts:42-59 | No strokes iff `thetaStart ≥ rotations·2π`. Otherwise the first stroke starts at `thetaStart` and the last ends at or beyond `rotations·2π`. Every stroke is one adaptive step with the radius `a + b·θ` at both ends. Strokes chain end to start and their start angles strictly increase. The loop terminates. |
| Spiral.Record.ArcLength | src/Record.ts:61-64 | The closed form `½·a·(√(t²+1)·t + asinh t)`. It has no contract of its own. `ArcLengthIncreasing` and `ArcLengthFnIncreasing` state its monotonicity. |
| Spiral.Record.ArcLengthIncreasing | src/Record.ts:61-64 | With `a > 0`, a true square root and an increasing `asinh`, the closed-form arc length strictly increases from angle 0 on. |
| Spiral.Record.ArcLengthFnIncreasing | src/Record.ts:61-64 | The closed form is strictly increasing on every [0, hi], so it meets the precondition of the round-trip lemma. |
| Spiral.Record.FindTheta | src/Record.ts:82-107 | The loop returns exactly the value of `Bisection` over [0, 2π·rotations] with 10,000 iterations. For `rotations ≥ 0` that value lies in [0, 2π·rotations]. Its loop invariant keeps `high − low` equal to 2π·rotations halved once per iteration so far. |
| Spiral.Record.SearchNarrows | src/Record.ts:93-104 | An iteration that does not break keeps the half that the comparison selects and halves `high − low`. For `rotations ≥ 0` the interval stays inside [0, 2π·rotations]. Bisecting the kept half for one iteration fewer gives the same result. |
| Spiral.Bisection | src/Record.ts:89-106 | The meaning of the `findTheta` loop, one recursive call per iteration. It has no contract of its own. The lemmas in the next rows state its behaviour. |
| Spiral.BisectionStops | src/Record.ts:91 | A midpoint within tolerance is returned at once. |
| Spiral.BisectionLower | src/Record.ts:94-98 | A midpoint whose arc length overshoots the target continues on the lower half. |
| Spiral.BisectionUpper | src/Record.ts:99-104 | A midpoint whose arc length falls short of the target continues on the upper half. |
| Spiral.BisectionWithin | src/Record.ts:83-106 | The bisection never leaves the interval it starts from. |
| Spiral.BisectionBrackets | src/Record.ts:93-104 | When the arc lengths at the ends enclose the target, the result is within tolerance. Otherwise it is the midpoint of an enclosing sub-interval of the start interval, whose width is the start width halved once per iteration. |
| Spiral.BracketWithinHalf | src/Record.ts:93-104 | An enclosing sub-interval of either half of [low, high], with one iteration fewer, is an enclosing sub-interval of [low, high]. |
| Spiral.BisectionConverges | src/Record.ts:89-106 | For a strictly increasing arc length whose value at some root is the target, the result is within tolerance or within half of the last interval of that root. |
| Spiral.Record.FindThetaBrackets | src/Record.ts:82-107 | The bracketing result for `findTheta`'s own range and iteration cap. The final interval lies inside [0, 2π·rotations] and is 2π·rotations/2^10000 wide. |
| Spiral.Record.FindThetaRoundTrip | src/Record.ts:78-107 | Inverting an arc length: the arc length must be strictly increasing on [0, 2π·rotations]. The closed form is one when `a > 0`. For an angle in that range, `findTheta` of its arc length is within tolerance in arc length, or within 2π·rotations/2^10001 of the angle. |
| Palette.Add | src/ColorPalette.ts:6-11 | `add` adds the two channel arrays element by element. |
| Palette.Mult | src/ColorPalette.ts:13-17 | `mult` scales every channel by `t`. |
| Palette.Hue | src/ColorPalette.ts:26-27 | A feature in [0, 1] gives a hue in [0, 360]. |
| Palette.Saturation | src/ColorPalette.ts:30 | A valence in [0, 1] gives a saturation in [25, 100]. |
| Palette.Lightness | src/ColorPalette.ts:31 | An acousticness in [0, 1] gives a lightness in [50, 75]. |
| Palette.KeyColorsOf | src/ColorPalette.ts:26-37 | Hues `danceability·360`, `energy·360` and `remap(key, 0, 11, 0, 360)`. All three colours share one saturation and one lightness. |
| Palette.KeyColorsTone | src/ColorPalette.ts:26-37 | For features in [0, 1], all three key colours have saturation in [25, 100] and lightness in [50, 75]. The first two hues lie in [0, 360]. |
| Palette.WeightsOf | src/ColorPalette.ts:44-46 | The weights `1 − √r1`, `√r1·(1 − r2)` and `r2·√r1` sum to 1 for any draws. |
| Palette.WeightsNonNegative | src/ColorPalette.ts:44-46 | For draws in [0, 1), `f1 > 0`, `f2 ≥ 0` and `f3 ≥ 0`. |
| Palette.Blend | src/ColorPalette.ts:48-52 | Each channel of `add(add(mult(k1, f1), mult(k2, f2)), mult(k3, f3))` is the weighted sum `f1·k1 + f2·k2 + f3·k3` of that channel. |
| Palette.ConvexWithin | src/ColorPalette.ts:48-52 | A convex weighted sum of three numbers lies between their minimum and maximum. |
| Palette.BlendWithin | src/ColorPalette.ts:48-52 | With convex weights, every channel of the blend lies within that channel's range over the three colours. |
| Palette.Sample | src/ColorPalette.ts:41-52 | The colour `sampleColor` returns when the stream stands at draw `k`. It has no contract of its own. `SampleWithinKeyColors` bounds it, and `SampleColor` and `SameFeaturesSameColors` equate their results with it. |
| Palette.SampleWithinKeyColors | src/ColorPalette.ts:40-53 | With draws in [0, 1) and a true square root, every sample lies in the triangle of the key colours, channel by channel. |
| Palette.ColorPalette.constructor | src/ColorPalette.ts:23-38 | The stream is `alea(uri)`, the key colours are those of `KeyColorsOf`, and nothing has been drawn yet. |
| Palette.ColorPalette.SampleColor | src/ColorPalette.ts:40-53 | It consumes exactly two draws, `r1` then `r2`, and advances the cursor by 2. The key colours stay the same. It returns the blend of the key colours with the weights of those two draws. |
| Palette.SameFeaturesSameColors | src/ColorPalette.ts:23-53 | Two palettes built from the same features return the same colours call for call. The i-th colour is the sample at draw 2·i of the stream seeded by the URI. |

## Left out

- IEEE double arithmetic is not modelled: numbers are exact reals. Rounding, overflow, signed zero and `NaN` arising from anything but a zero division are out of scope.
- `Math.cos`, `Math.sin` and the p5 calls in `draw` (`stroke`, `strokeWeight`, `createVector`, `line`) are not modelled. `Draw` returns each stroke as its angle pair and the radius at both ends.
- `Math.sqrt`, `Math.asinh`, `alea`, `remap` and the `color` package are not part of this model. They are parameters, and the code behind them is not modelled.
- Spiral.Record.constructor: does not model an option that is present and explicitly `undefined`. Under object spread that option would override its default. The model treats it as absent. The `analysis` argument is accepted and, as in the source, not used.
- Spiral.Record.Draw: requires `thetaStart ≥ 0` or `thetaStart ≥ rotations·2π`. Below angle 0 the source's step is negative (`DrawStepNegative`). `DrawNeverEndsFromNegative` shows that for any other start with `rotations ≥ 0`, the source's loop never ends.
- Spiral.Record.FindTheta: takes the arc length as a function parameter, not the closed form of `arcLength`. `ArcLengthFn` is the closed form as such a parameter, and `ArcLengthFnIncreasing` shows it meets the precondition of `FindThetaRoundTrip` when `a > 0`.
- Spiral.Record.FindThetaRoundTrip: says nothing when `a ≤ 0`, since `a` is a user option. With `a = 0` every arc length is 0, and the bisection returns `π·rotations` for any target within tolerance of 0.
- Palette.Add: does not model any normalisation of channel values by `Color.rgb`. Channels are unclamped reals.
- Palette.Mult: likewise unclamped.
- Palette.SampleWithinKeyColors: holds only under the stated assumptions about the stream and the square root. The model does not derive them from `alea` and `Math.sqrt`.
- The callers `src/index.ts` and `src/Scene.ts` are not part of this model, nor `src/api.ts`, `src/auth.ts` or `webpack.config.ts`. They cover HTTP polling, OAuth, DOM and canvas set-up, and playback timing.
- `drawPct`, the beat pulse, `findBounds`, `relativeLoudness`, colour assignment to segments and sections, and the layered render cache are not in the three core files, so they are not modelled.
