/** The eccentricity gate and the eccentricity of an orbit given its apsides. */
module Eccentricity {
  import opened Errors

  /** The eccentricities of closed (elliptical or circular) orbits: [0, 1). */
  predicate IsElliptical(e: real) {
    0.0 <= e < 1.0
  }

  /** Rejects an eccentricity outside [0, 1); otherwise returns with no effect. */
  function ValidateEccentricity(eccentricity: real): (r: Outcome)
    ensures r == Pass <==> IsElliptical(eccentricity)
    ensures r != Pass ==> r == Fail(InvalidEccentricity(eccentricity))
  {
    if eccentricity >= 1.0 || eccentricity < 0.0 then
      Fail(InvalidEccentricity(eccentricity))
    else
      Pass
  }

  /** The eccentricity of an orbit with the given periapsis and apoapsis distances.
      `eccentricity_from_periapsis_apoapsis` divides without a check, so a zero sum of the two distances
      (a division by zero there) is excluded by the precondition. */
  function EccentricityFromPeriapsisApoapsis(periapsis: real, apoapsis: real): (e: real)
    requires apoapsis + periapsis != 0.0
    ensures periapsis == apoapsis ==> e == 0.0
    ensures periapsis == 0.0 ==> e == 1.0
    ensures 0.0 < periapsis <= apoapsis ==> IsElliptical(e)
    ensures 0.0 <= apoapsis < periapsis ==> e < 0.0
    ensures 0.0 <= periapsis && 0.0 <= apoapsis ==> -1.0 <= e <= 1.0
  {
    var e := (apoapsis - periapsis) / (apoapsis + periapsis);
    if 0.0 < apoapsis + periapsis then
      QuotientBounds(apoapsis - periapsis, apoapsis + periapsis);
      e
    else
      e
  }

  /** Where the quotient of `n` by a positive `d` lies, given where `n` lies. */
  lemma QuotientBounds(n: real, d: real)
    requires 0.0 < d
    ensures 0.0 <= n ==> 0.0 <= n / d
    ensures n < 0.0 ==> n / d < 0.0
    ensures n < d ==> n / d < 1.0
    ensures n <= d ==> n / d <= 1.0
    ensures -d <= n ==> -1.0 <= n / d
  {
    var q := n / d;
    assert q * d == n;
    if 0.0 <= n { assert 0.0 <= q; }
    if n < 0.0 { assert q < 0.0; }
    if n < d { assert q < 1.0; }
    if n <= d { assert q <= 1.0; }
    if -d <= n { assert -1.0 <= q; }
  }

  /** Swapping the two distances negates the eccentricity. */
  lemma EccentricityAntisymmetric(periapsis: real, apoapsis: real)
    requires apoapsis + periapsis != 0.0
    ensures EccentricityFromPeriapsisApoapsis(apoapsis, periapsis)
         == -EccentricityFromPeriapsisApoapsis(periapsis, apoapsis)
  {
  }

  /** For non-negative distances, the computed eccentricity passes the gate
      exactly when the periapsis is positive and not beyond the apoapsis: a zero
      periapsis gives 1.0 and a periapsis beyond the apoapsis a negative value,
      and the gate rejects both. */
  lemma ApsidesPassGateExactly(periapsis: real, apoapsis: real)
    requires 0.0 <= periapsis && 0.0 <= apoapsis && apoapsis + periapsis != 0.0
    ensures ValidateEccentricity(EccentricityFromPeriapsisApoapsis(periapsis, apoapsis)) == Pass
        <==> 0.0 < periapsis <= apoapsis
  {
  }
}
