/** The time and distance constants of the library and its parsec conversions. */
module Constants {

  /** Seconds in a 24-hour day. */
  const DAY_TO_SECONDS: int := 86400

  /** Seconds in one Julian year. */
  const YEAR_TO_SECONDS: int := 31557600

  /** Kilometres in one parsec (3.086e+13, an integral and exactly representable float). */
  const PARSEC_TO_KM: real := 30860000000000.0

  /** The day constant is 24 hours of 60 minutes of 60 seconds. */
  lemma DayIsTwentyFourHours()
    ensures DAY_TO_SECONDS == 24 * 60 * 60
  {
  }

  /** The year constant is the Julian year of 365.25 days. */
  lemma YearIsJulianYear()
    ensures YEAR_TO_SECONDS as real == 365.25 * DAY_TO_SECONDS as real
    ensures YEAR_TO_SECONDS == 365 * DAY_TO_SECONDS + DAY_TO_SECONDS / 4
  {
  }

  /** A distance in parsecs, in kilometres. */
  function ParsecToKm(parsec: real): (km: real)
    ensures 0.0 < parsec <==> 0.0 < km
    ensures parsec == 0.0 <==> km == 0.0
    ensures 0.0 <= parsec ==> parsec <= km
  {
    parsec * PARSEC_TO_KM
  }

  /** A distance in kilometres, in parsecs. */
  function KmToParsec(km: real): (parsec: real)
    ensures 0.0 < km <==> 0.0 < parsec
    ensures km == 0.0 <==> parsec == 0.0
    ensures 0.0 <= km ==> parsec <= km
  {
    km / PARSEC_TO_KM
  }

  /** One parsec is `PARSEC_TO_KM` kilometres, in both directions. */
  lemma OneParsec()
    ensures ParsecToKm(1.0) == PARSEC_TO_KM
    ensures KmToParsec(PARSEC_TO_KM) == 1.0
  {
  }

  /** Converting to kilometres and back gives the distance back, and so does
      converting to parsecs and back: the two functions are mutual inverses. */
  lemma ParsecKmRoundTrip(parsec: real, km: real)
    ensures KmToParsec(ParsecToKm(parsec)) == parsec
    ensures ParsecToKm(KmToParsec(km)) == km
  {
  }

  /** Parsecs to kilometres is linear: it distributes over sums and preserves order. */
  lemma ParsecToKmIsLinear(x: real, y: real)
    ensures ParsecToKm(x + y) == ParsecToKm(x) + ParsecToKm(y)
    ensures x <= y <==> ParsecToKm(x) <= ParsecToKm(y)
  {
  }

  /** Kilometres to parsecs is linear: it distributes over sums and preserves order. */
  lemma KmToParsecIsLinear(x: real, y: real)
    ensures KmToParsec(x + y) == KmToParsec(x) + KmToParsec(y)
    ensures x <= y <==> KmToParsec(x) <= KmToParsec(y)
  {
  }
}
