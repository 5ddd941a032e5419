/** The apsides, the semi-major axis and the major axis of an elliptical orbit.

    The semi-major axis is half the sum of the periapsis (closest) and apoapsis
    (farthest) distances. Every function here that takes an eccentricity passes
    it through the eccentricity gate first and fails with the gate's error. */
module SemiMajorAxis {
  import opened Errors
  import opened Numeric
  import opened Eccentricity

  /** The apoapsis of the orbit with semi-major axis `semiMajorAxis` and the given eccentricity. */
  function ApoapsisFromSemiMajorAxis(semiMajorAxis: real, eccentricity: real): (r: Result<real>)
    ensures r.Err? <==> !IsElliptical(eccentricity)
    ensures r.Err? ==> r.error == InvalidEccentricity(eccentricity)
    ensures r.Ok? && 0.0 <= semiMajorAxis ==> semiMajorAxis <= r.value <= 2.0 * semiMajorAxis
  {
    match ValidateEccentricity(eccentricity)
    case Fail(error) => Err(error)
    case Pass =>
      ScaleBounds(semiMajorAxis, 1.0 + eccentricity);
      Ok(semiMajorAxis * (1.0 + eccentricity))
  }

  /** The semi-major axis of the orbit with the given eccentricity and apoapsis. */
  function SemiMajorAxisFromApoapsis(eccentricity: real, apoapsis: real): (r: Result<real>)
    ensures r.Err? <==> !IsElliptical(eccentricity)
    ensures r.Err? ==> r.error == InvalidEccentricity(eccentricity)
    ensures r.Ok? ==> r.value * (1.0 + eccentricity) == apoapsis
  {
    match ValidateEccentricity(eccentricity)
    case Fail(error) => Err(error)
    case Pass => Ok(apoapsis / (1.0 + eccentricity))
  }

  /** The periapsis of the orbit with semi-major axis `semiMajorAxis` and the given eccentricity. */
  function PeriapsisFromSemiMajorAxis(semiMajorAxis: real, eccentricity: real): (r: Result<real>)
    ensures r.Err? <==> !IsElliptical(eccentricity)
    ensures r.Err? ==> r.error == InvalidEccentricity(eccentricity)
    ensures r.Ok? && 0.0 <= semiMajorAxis ==> 0.0 <= r.value <= semiMajorAxis
    ensures r.Ok? && 0.0 < semiMajorAxis ==> 0.0 < r.value
  {
    match ValidateEccentricity(eccentricity)
    case Fail(error) => Err(error)
    case Pass =>
      ScaleBounds(semiMajorAxis, 1.0 - eccentricity);
      Ok(semiMajorAxis * (1.0 - eccentricity))
  }

  /** The semi-major axis of the orbit with the given eccentricity and periapsis. */
  function SemiMajorAxisFromPeriapsis(eccentricity: real, periapsis: real): (r: Result<real>)
    ensures r.Err? <==> !IsElliptical(eccentricity)
    ensures r.Err? ==> r.error == InvalidEccentricity(eccentricity)
    ensures r.Ok? ==> r.value * (1.0 - eccentricity) == periapsis
  {
    match ValidateEccentricity(eccentricity)
    case Fail(error) => Err(error)
    case Pass => Ok(periapsis / (1.0 - eccentricity))
  }

  /** The semi-major axis from the two apsides, as
      `semi_major_axis_from_apoapsis_and_periapsis` computes it: the mean of the
      two distances passed through `int()`, so truncated toward zero. */
  function SemiMajorAxisFromApoapsisAndPeriapsis(apoapsis: real, periapsis: real): (r: int)
    ensures 0.0 <= apoapsis + periapsis ==> r as real <= (apoapsis + periapsis) / 2.0 < r as real + 1.0
    ensures apoapsis + periapsis < 0.0 ==> r as real - 1.0 < (apoapsis + periapsis) / 2.0 <= r as real
  {
    Trunc((apoapsis + periapsis) / 2.0)
  }

  /** `get_semi_major_axis_from_major_and_minor`: the mean of the two axes,
      truncated toward zero (see `SemiMajorAxisFromMajorAxis`). */
  function SemiMajorAxisFromMajorAndMinor(minorAxis: real, majorAxis: real): (r: int)
    ensures 0.0 <= majorAxis + minorAxis ==> r as real <= (majorAxis + minorAxis) / 2.0 < r as real + 1.0
    ensures majorAxis + minorAxis < 0.0 ==> r as real - 1.0 < (majorAxis + minorAxis) / 2.0 <= r as real
  {
    Trunc((majorAxis + minorAxis) / 2.0)
  }

  /** The major axis, the widest diameter of the ellipse. */
  function MajorAxisFromSemiMajorAxis(semiMajorAxis: real): (r: real)
    ensures r / 2.0 == semiMajorAxis
  {
    2.0 * semiMajorAxis
  }

  /** The semi-major axis as half the major axis, which is what the mean of the
      major and minor axes was evidently meant to be. */
  function SemiMajorAxisFromMajorAxis(majorAxis: real): (r: real)
    ensures MajorAxisFromSemiMajorAxis(r) == majorAxis
  {
    majorAxis / 2.0
  }

  /** Every function that takes an eccentricity rejects one outside [0, 1)
      with the gate's error, whatever the distance. */
  lemma InvalidEccentricityRejected(distance: real, eccentricity: real)
    requires !IsElliptical(eccentricity)
    ensures ApoapsisFromSemiMajorAxis(distance, eccentricity) == Err(InvalidEccentricity(eccentricity))
    ensures SemiMajorAxisFromApoapsis(eccentricity, distance) == Err(InvalidEccentricity(eccentricity))
    ensures PeriapsisFromSemiMajorAxis(distance, eccentricity) == Err(InvalidEccentricity(eccentricity))
    ensures SemiMajorAxisFromPeriapsis(eccentricity, distance) == Err(InvalidEccentricity(eccentricity))
  {
  }

  /** The semi-major axis lies between the two apsides. */
  lemma ApsidesBracketSemiMajorAxis(semiMajorAxis: real, eccentricity: real)
    requires 0.0 <= semiMajorAxis && IsElliptical(eccentricity)
    ensures PeriapsisFromSemiMajorAxis(semiMajorAxis, eccentricity).Ok?
    ensures ApoapsisFromSemiMajorAxis(semiMajorAxis, eccentricity).Ok?
    ensures PeriapsisFromSemiMajorAxis(semiMajorAxis, eccentricity).value
         <= semiMajorAxis
         <= ApoapsisFromSemiMajorAxis(semiMajorAxis, eccentricity).value
  {
  }

  /** The two apsides add up to the major axis: the semi-major axis is half their sum. */
  lemma ApsidesSumToMajorAxis(semiMajorAxis: real, eccentricity: real)
    requires IsElliptical(eccentricity)
    ensures PeriapsisFromSemiMajorAxis(semiMajorAxis, eccentricity).Ok?
    ensures ApoapsisFromSemiMajorAxis(semiMajorAxis, eccentricity).Ok?
    ensures PeriapsisFromSemiMajorAxis(semiMajorAxis, eccentricity).value
          + ApoapsisFromSemiMajorAxis(semiMajorAxis, eccentricity).value
         == MajorAxisFromSemiMajorAxis(semiMajorAxis)
  {
  }

  /** The semi-major axis is recovered from the periapsis it determines. */
  lemma PeriapsisRoundTrip(semiMajorAxis: real, eccentricity: real)
    requires IsElliptical(eccentricity)
    ensures var periapsis := PeriapsisFromSemiMajorAxis(semiMajorAxis, eccentricity);
            periapsis.Ok?
            && SemiMajorAxisFromPeriapsis(eccentricity, periapsis.value).Ok?
            && SemiMajorAxisFromPeriapsis(eccentricity, periapsis.value).value == semiMajorAxis
  {
    ScaleThenDivide(semiMajorAxis, 1.0 - eccentricity);
  }

  /** The periapsis is recovered from the semi-major axis it determines. */
  lemma SemiMajorAxisFromPeriapsisRoundTrip(periapsis: real, eccentricity: real)
    requires IsElliptical(eccentricity)
    ensures var semiMajorAxis := SemiMajorAxisFromPeriapsis(eccentricity, periapsis);
            semiMajorAxis.Ok?
            && PeriapsisFromSemiMajorAxis(semiMajorAxis.value, eccentricity).Ok?
            && PeriapsisFromSemiMajorAxis(semiMajorAxis.value, eccentricity).value == periapsis
  {
    DivideThenScale(periapsis, 1.0 - eccentricity);
  }

  /** The semi-major axis is recovered from the apoapsis it determines. */
  lemma ApoapsisRoundTrip(semiMajorAxis: real, eccentricity: real)
    requires IsElliptical(eccentricity)
    ensures var apoapsis := ApoapsisFromSemiMajorAxis(semiMajorAxis, eccentricity);
            apoapsis.Ok?
            && SemiMajorAxisFromApoapsis(eccentricity, apoapsis.value).Ok?
            && SemiMajorAxisFromApoapsis(eccentricity, apoapsis.value).value == semiMajorAxis
  {
    ScaleThenDivide(semiMajorAxis, 1.0 + eccentricity);
  }

  /** The apoapsis is recovered from the semi-major axis it determines. */
  lemma SemiMajorAxisFromApoapsisRoundTrip(apoapsis: real, eccentricity: real)
    requires IsElliptical(eccentricity)
    ensures var semiMajorAxis := SemiMajorAxisFromApoapsis(eccentricity, apoapsis);
            semiMajorAxis.Ok?
            && ApoapsisFromSemiMajorAxis(semiMajorAxis.value, eccentricity).Ok?
            && ApoapsisFromSemiMajorAxis(semiMajorAxis.value, eccentricity).value == apoapsis
  {
    DivideThenScale(apoapsis, 1.0 + eccentricity);
  }

  /** Where a non-negative distance lands when scaled by a non-negative factor. */
  lemma ScaleBounds(x: real, f: real)
    requires 0.0 <= f
    ensures 0.0 <= x && f <= 1.0 ==> 0.0 <= x * f <= x
    ensures 0.0 <= x && 1.0 <= f <= 2.0 ==> x <= x * f <= 2.0 * x
    ensures 0.0 < x && 0.0 < f ==> 0.0 < x * f
  {
  }

  /** Dividing by a non-zero factor undoes scaling by it. */
  lemma ScaleThenDivide(x: real, d: real)
    requires d != 0.0
    ensures (x * d) / d == x
  {
  }

  /** Scaling by a non-zero factor undoes dividing by it. */
  lemma DivideThenScale(x: real, d: real)
    requires d != 0.0
    ensures (x / d) * d == x
  {
  }

  /** Feeding the two apsides of an orbit back into the mean-of-apsides function
      gives its semi-major axis truncated toward zero. */
  lemma ApsidesMeanIsTruncatedSemiMajorAxis(semiMajorAxis: real, eccentricity: real)
    requires IsElliptical(eccentricity)
    ensures SemiMajorAxisFromApoapsisAndPeriapsis(
              ApoapsisFromSemiMajorAxis(semiMajorAxis, eccentricity).value,
              PeriapsisFromSemiMajorAxis(semiMajorAxis, eccentricity).value) == Trunc(semiMajorAxis)
  {
  }

  /** The mean of the major and minor axes does not depend on their order. */
  lemma MajorAndMinorSymmetric(x: real, y: real)
    ensures SemiMajorAxisFromMajorAndMinor(x, y) == SemiMajorAxisFromMajorAndMinor(y, x)
  {
  }

  /** The mean of the two axes in `get_semi_major_axis_from_major_and_minor` is
      not the semi-major axis: an ellipse with major axis 4 and minor axis 2 has
      semi-major axis 2, and that function gives 3, whose major axis would be 6. */
  lemma MajorAndMinorMeanMissesSemiMajorAxis()
    ensures SemiMajorAxisFromMajorAndMinor(2.0, 4.0) == 3
    ensures MajorAxisFromSemiMajorAxis(SemiMajorAxisFromMajorAndMinor(2.0, 4.0) as real) != 4.0
    ensures SemiMajorAxisFromMajorAxis(4.0) == 2.0
  {
  }

  /** Halving the major axis undoes doubling the semi-major axis. */
  lemma MajorAxisRoundTrip(semiMajorAxis: real)
    ensures SemiMajorAxisFromMajorAxis(MajorAxisFromSemiMajorAxis(semiMajorAxis)) == semiMajorAxis
  {
  }

  /** The apsides of an orbit with a non-zero semi-major axis give its eccentricity back. */
  lemma EccentricityFromApsidesRoundTrip(semiMajorAxis: real, eccentricity: real)
    requires semiMajorAxis != 0.0 && IsElliptical(eccentricity)
    ensures var p := PeriapsisFromSemiMajorAxis(semiMajorAxis, eccentricity).value;
            var ap := ApoapsisFromSemiMajorAxis(semiMajorAxis, eccentricity).value;
            ap + p != 0.0 && EccentricityFromPeriapsisApoapsis(p, ap) == eccentricity
  {
  }
}
