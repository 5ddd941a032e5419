# CelestialSandbox: apsides, eccentricity, unit constants and star classification

This project is a Dafny model of the exact, non-trigonometric part of the
CelestialSandbox orbital-mechanics library. It covers four pieces:

- **Apsides and the semi-major axis** (`SemiMajorAxis`). The periapsis is
  `a(1-e)`, the apoapsis `a(1+e)`, and their inverses are `p/(1-e)` and
  `ap/(1+e)`. Each of these four functions first passes the eccentricity
  through the eccentricity gate. The major axis is `2a`. Two "mean" helpers
  truncate their result with Python's `int()`.
- **The eccentricity gate and the apsides ratio** (`Eccentricity`).
  `validate_eccentricity` accepts exactly the reals in `[0, 1)`, and
  `eccentricity_from_periapsis_apoapsis` is `(ap - p)/(ap + p)`.
- **Constants** (`Constants`). These are the day and Julian-year second counts,
  the parsec in kilometres, and the two parsec/kilometre conversions.
- **The star-type decision procedure** (`StarClassification`, over the
  lifecycle stages in `Star`). It is a first-match `if/elif` chain over stage,
  mass, temperature and radius, and it converts the radius from kilometres to
  solar radii first.

Floats are modelled as mathematical `real`. Python's `int()` is `Numeric.Trunc`,
which truncates toward zero. A raised `AttributeError` becomes the error value
`Errors.InvalidEccentricity(e)`. A function that validates first matches on the
gate's outcome and returns its error, the way the Python call propagates the exception.

The classifier is modelled twice. `CalculateStarType` is the chain as written.
`ClassifyByRules` is a table of guarded rules tried in order, where the first
rule whose guard holds wins. A lemma proves the two equal for every input, and
the per-stage properties are proved about the chain.

Two points where the code does less than its documentation suggests; the model
follows the code:

- `eccentricity_from_periapsis_apoapsis` does not check its inputs. The model
  shows which apsides give an eccentricity that the gate then rejects.
- `semi_major_axis_from_apoapsis_and_periapsis` is annotated and documented as
  returning a float, but it truncates the mean of the apsides with `int()`.

## Model

| member | source | states |
|---|---|---|
| `Numeric.Trunc` | celestial_sandbox/orbital_elements/semi_major_axis.py:66 | Python `int()` on a float gives the integer part toward zero: for `x >= 0` the largest integer `<= x`, for `x < 0` the smallest integer `>= x` |
| `Constants.DayIsTwentyFourHours` | celestial_sandbox/constants.py:17-18 | `DAY_TO_SECONDS` is 24 × 60 × 60 |
| `Constants.YearIsJulianYear` | celestial_sandbox/constants.py:20-21 | `YEAR_TO_SECONDS` is 365.25 days of `DAY_TO_SECONDS` (the Julian year), i.e. 365 days plus a quarter day |
| `Constants.ParsecToKm` | celestial_sandbox/constants.py:39-48 | the kilometre value has the sign of the parsec value, is zero exactly when it is, and is at least as large for non-negative distances |
| `Constants.KmToParsec` | celestial_sandbox/constants.py:51-60 | the parsec value has the sign of the kilometre value, is zero exactly when it is, and is no larger for non-negative distances |
| `Constants.OneParsec` | celestial_sandbox/constants.py:24-60 | the conversion factor is `PARSEC_TO_KM` = 3.086e13: one parsec converts to that many kilometres, and that many kilometres convert to one parsec |
| `Constants.ParsecKmRoundTrip` | celestial_sandbox/constants.py:39-60 | the two conversions are mutual inverses: km → parsec → km and parsec → km → parsec are the identity |
| `Constants.ParsecToKmIsLinear` | celestial_sandbox/constants.py:39-48 | parsecs → km distributes over addition and preserves order in both directions |
| `Constants.KmToParsecIsLinear` | celestial_sandbox/constants.py:51-60 | km → parsecs distributes over addition and preserves order in both directions |
| `Eccentricity.ValidateEccentricity` | celestial_sandbox/orbital_elements/eccentricity.py:10-19 | passes exactly for `0 <= e < 1`; otherwise fails with the error carrying `e` |
| `Eccentricity.EccentricityFromPeriapsisApoapsis` | celestial_sandbox/orbital_elements/eccentricity.py:106-117 | defined when `ap + p != 0`; equal apsides give 0 (circular); a zero periapsis gives exactly 1; `0 < p <= ap` gives a value in `[0,1)`; `0 <= ap < p` gives a negative value; non-negative apsides give a value in `[-1, 1]` |
| `Eccentricity.EccentricityAntisymmetric` | celestial_sandbox/orbital_elements/eccentricity.py:117 | swapping periapsis and apoapsis negates the eccentricity |
| `Eccentricity.ApsidesPassGateExactly` | celestial_sandbox/orbital_elements/eccentricity.py:106-117 | for non-negative apsides, the computed eccentricity passes `validate_eccentricity` if and only if `0 < p <= ap` |
| `SemiMajorAxis.ApoapsisFromSemiMajorAxis` | celestial_sandbox/orbital_elements/semi_major_axis.py:117-129 | fails with the gate's error exactly when `e` is outside `[0,1)`; otherwise, for `a >= 0`, the apoapsis lies in `[a, 2a]` |
| `SemiMajorAxis.SemiMajorAxisFromApoapsis` | celestial_sandbox/orbital_elements/semi_major_axis.py:132-144 | fails with the gate's error exactly when `e` is outside `[0,1)`; otherwise the result is the `a` with `a(1+e)` equal to the apoapsis |
| `SemiMajorAxis.PeriapsisFromSemiMajorAxis` | celestial_sandbox/orbital_elements/semi_major_axis.py:150-162 | fails with the gate's error exactly when `e` is outside `[0,1)`; otherwise, for `a >= 0`, the periapsis lies in `[0, a]` and is positive when `a > 0` |
| `SemiMajorAxis.SemiMajorAxisFromPeriapsis` | celestial_sandbox/orbital_elements/semi_major_axis.py:165-178 | fails with the gate's error exactly when `e` is outside `[0,1)`; otherwise the result is the `a` with `a(1-e)` equal to the periapsis |
| `SemiMajorAxis.SemiMajorAxisFromApoapsisAndPeriapsis` | celestial_sandbox/orbital_elements/semi_major_axis.py:55-66 | the result is an integer: the mean of the two apsides truncated toward zero (within 1 below a non-negative mean, within 1 above a negative one), although the docstring says float |
| `SemiMajorAxis.SemiMajorAxisFromMajorAndMinor` | celestial_sandbox/orbital_elements/semi_major_axis.py:102-111 | the result is the mean of the two axes truncated toward zero |
| `SemiMajorAxis.MajorAxisFromSemiMajorAxis` | celestial_sandbox/orbital_elements/semi_major_axis.py:201-211 | half the major axis is the semi-major axis; that the apsides add up to this major axis is proved in `ApsidesSumToMajorAxis` |
| `SemiMajorAxis.SemiMajorAxisFromMajorAxis` | celestial_sandbox/orbital_elements/semi_major_axis.py:102-111 | corrected semi-major axis from the axes: its major axis is the given major axis (see Findings) |
| `SemiMajorAxis.InvalidEccentricityRejected` | celestial_sandbox/orbital_elements/semi_major_axis.py:127-176 | all four apsis and inverse functions reject an eccentricity outside `[0,1)` with the gate's error, whatever the distance |
| `SemiMajorAxis.ApsidesBracketSemiMajorAxis` | celestial_sandbox/orbital_elements/semi_major_axis.py:117-162 | for `a >= 0` and valid `e`: periapsis `<= a <=` apoapsis |
| `SemiMajorAxis.ApsidesSumToMajorAxis` | celestial_sandbox/orbital_elements/semi_major_axis.py:117-211 | for valid `e`, periapsis + apoapsis equals the major axis `2a`, the module's definition of the semi-major axis as half the sum of the apsides |
| `SemiMajorAxis.PeriapsisRoundTrip` | celestial_sandbox/orbital_elements/semi_major_axis.py:150-178 | for valid `e`, the semi-major axis computed from the periapsis of `(a, e)` is `a` |
| `SemiMajorAxis.SemiMajorAxisFromPeriapsisRoundTrip` | celestial_sandbox/orbital_elements/semi_major_axis.py:150-178 | for valid `e`, the periapsis of the semi-major axis computed from `p` is `p` |
| `SemiMajorAxis.ApoapsisRoundTrip` | celestial_sandbox/orbital_elements/semi_major_axis.py:117-144 | for valid `e`, the semi-major axis computed from the apoapsis of `(a, e)` is `a` |
| `SemiMajorAxis.SemiMajorAxisFromApoapsisRoundTrip` | celestial_sandbox/orbital_elements/semi_major_axis.py:117-144 | for valid `e`, the apoapsis of the semi-major axis computed from `ap` is `ap` |
| `SemiMajorAxis.ApsidesMeanIsTruncatedSemiMajorAxis` | celestial_sandbox/orbital_elements/semi_major_axis.py:55-66 | feeding the two apsides of `(a, e)` to the mean-of-apsides function gives `int(a)`, not `a` |
| `SemiMajorAxis.MajorAndMinorSymmetric` | celestial_sandbox/orbital_elements/semi_major_axis.py:102-111 | the mean of the axes does not depend on the order of its arguments |
| `SemiMajorAxis.MajorAndMinorMeanMissesSemiMajorAxis` | celestial_sandbox/orbital_elements/semi_major_axis.py:102-111 | for major axis 4 and minor axis 2 the source gives 3. The semi-major axis is 2, and 3 would have major axis 6 |
| `SemiMajorAxis.MajorAxisRoundTrip` | celestial_sandbox/orbital_elements/semi_major_axis.py:201-211 | halving the major axis of `a` gives `a` back |
| `SemiMajorAxis.EccentricityFromApsidesRoundTrip` | celestial_sandbox/orbital_elements/eccentricity.py:106-117 | for `a > 0` and valid `e`, the eccentricity of the apsides `a(1-e)`, `a(1+e)` is `e` (their sum is non-zero) |
| `Star.LifecycleStage.Value` | celestial_sandbox/types/celestial_body/star/__init__.py:89-101 | each stage's enumeration value lies in -1..10, and -1 belongs to the failed star alone |
| `Star.ValuesAreDistinct` | celestial_sandbox/types/celestial_body/star/__init__.py:89-101 | no two stages share an enumeration value |
| `StarClassification.CalculateStarType` | test.py:7-49 | a failed star is a brown dwarf; the final stage always gives a white dwarf, neutron star or stellar black hole; the unbranched stages give Unknown; any other result satisfies the test of its branch, with the radius in solar radii (`km / 696340`) |
| `StarClassification.Name` | test.py:13-49 | the label `calculate_star_type` returns for each star type, `'Unknown Star Type'` exactly for the fall-through; `NamesAreDistinct` and `NamesAreLabels` prove the labels distinct and the named ones exactly the sixteen of the chain |
| `StarClassification.FirstMatch` | test.py:11-49 | the position returned is that of a rule whose test holds, and no rule before it holds (or it is past the end when none does) |
| `StarClassification.ClassifyByRules` | test.py:11-49 | the selected star type's test holds for the inputs |
| `StarClassification.CalculateStarTypeIsFirstMatch` | test.py:7-49 | for every input the `if/elif` chain returns exactly the first rule, in source order, whose test holds, with the final `'Unknown Star Type'` as the catch-all |
| `StarClassification.OnlyDwarfTestsOverlap` | test.py:11-45 | two different named tests hold together only for Subdwarf and Red_Dwarf, so the order of the tests matters only between those two |
| `StarClassification.NamesAreDistinct` | test.py:13-49 | the returned labels are pairwise distinct, so a star type and its label determine each other |
| `StarClassification.NamesAreLabels` | test.py:13-49 | the result's label is always one of the sixteen named labels or `'Unknown Star Type'` (the function is total), and it is a named label exactly when a test matched |
| `StarClassification.SixteenLabels` | test.py:13-47 | there are sixteen named labels |
| `StarClassification.FailedStarIsBrownDwarf` | test.py:46-47 | a failed star is `'Brown_Dwarf'` whatever its mass, temperature and radius |
| `StarClassification.FinalStageByMass` | test.py:39-45 | the final stage never gives Unknown: White_Dwarf exactly for mass `<= 1.4`, Neutron_Star exactly for mass in `(1.4, 3]`, Stellar_Black_Hole exactly for mass `> 3` |
| `StarClassification.UnbranchedStageIsUnknown` | test.py:11-49 | molecular cloud, protostar, subgiant, red giant branch, horizontal branch and asymptotic giant branch always give `'Unknown Star Type'` |
| `StarClassification.SubdwarfShadowsRedDwarf` | test.py:16-20 | on the main sequence, mass `<= 0.08` and temperature `<= 3000` give Subdwarf although the Red_Dwarf test also holds |
| `StarClassification.PostMainSequenceByRadius` | test.py:9-33 | after the main sequence only the radius decides, and the star is classified exactly when its radius exceeds 1.5 solar radii (1,044,510 km) |
| `StarClassification.DemonstrationCalls` | test.py:53-96 | the fifteen example calls give the types their comments name, except the mass-1.4 final-stage call (commented as a neutron star), which gives White_Dwarf because of the `<= 1.4` boundary |

## Left out

- Newton's-method solver for Kepler's equation, the fixed-point anomaly loop and `Orbit.eccentric_anomaly`: they depend on floating-point convergence of `sin`/`cos` iterations.
- Anomaly conversions, `distance_to_center`, minor-axis formulas, period and speed formulas: they use `atan2`, `tan`, `sin`, `cos`, square and cube roots, which have no exact real model here.
- Rotation matrices, frame transforms and the `atan2`-based element extraction: trigonometry and numpy calls.
- The `Orbit` class, the `CelestialBody`/`Star`/`Planet` attribute containers and the star type-mapping tables: they hold data and no branching logic this model needs.
- The physical constants the core does not use (gravitational constant, astronomical unit, speed of light, Boltzmann, Planck and Stefan–Boltzmann constants).
- The module-level `print` calls of the classifier script: they are output only. `DemonstrationCalls` states what each call returns.
- NaN and infinity: floats are modelled as reals, which have neither. In Python, `validate_eccentricity(nan)` raises nothing, because both comparisons are false. The four apsis functions then return NaN instead of an error. `calculate_star_type` with a NaN mass at the final stage falls through the three mass tests to `'Unknown Star Type'`. `int()` in the two truncated means raises on NaN and on infinity. `ValidateEccentricity`, `FinalStageByMass` and `Trunc` state their results for reals only.
- IEEE-754 rounding: all arithmetic is exact over `real`, so the round trips hold exactly here, while in floats they hold only approximately.
- The text of the `AttributeError` message: the error value carries the rejected eccentricity, not the formatted string.
- Eccentricity.EccentricityFromPeriapsisApoapsis: the `ZeroDivisionError` Python raises when `apoapsis + periapsis == 0` is a precondition, not an error value.
- StarClassification.CalculateStarType: a `stage` that is not a member of the stage enumeration (the Python function accepts any value and then returns Unknown) cannot be passed, because the stage is typed.

## Findings

| source | as written | input that shows it | evidently intended | confidence | as-written member | corrected member |
|---|---|---|---|---|---|---|
| celestial_sandbox/orbital_elements/semi_major_axis.py:102-111 | `get_semi_major_axis_from_major_and_minor` returns `int((major_axis + minor_axis) / 2.0)`, the truncated mean of the two axes | `minor_axis = 2`, `major_axis = 4`: an ellipse whose semi-major axis is 2, where the function returns 3 | the semi-major axis is half the major axis, `major_axis / 2`, a float as the annotation says, and the inverse of `major_axis_from_semi_major_axis` | medium; not executed | `SemiMajorAxis.SemiMajorAxisFromMajorAndMinor`, shown by `SemiMajorAxis.MajorAndMinorMeanMissesSemiMajorAxis` | `SemiMajorAxis.SemiMajorAxisFromMajorAxis`, with `SemiMajorAxis.MajorAxisRoundTrip` |
