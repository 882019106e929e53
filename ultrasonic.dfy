/**
 * The ultrasonic obstacle test (ultrasonic/ultrasonic.c): the echo duration
 * in microseconds becomes a distance in centimetres (speed of sound
 * 0.0343 cm/us, halved for the round trip), which is compared with a range.
 * Floating point is modelled with exact reals.
 */
module Ultrasonic {

  /** The speed of sound in cm/us: 343/10000. */
  const SpeedOfSound: real := 0.0343

  /** `calculateDistance`: centimetres for an echo duration in microseconds. */
  function CalculateDistance(duration: int): (cm: real)
    ensures cm >= 0.0 <==> duration >= 0
  {
    (duration as real * SpeedOfSound) / 2.0
  }

  /** The distance is linear in the duration. */
  lemma CalculateDistanceLinear(d1: int, d2: int)
    ensures CalculateDistance(d1 + d2) == CalculateDistance(d1) + CalculateDistance(d2)
    ensures CalculateDistance(2 * d1) == 2.0 * CalculateDistance(d1)
    ensures CalculateDistance(20000) == 343.0
  {
  }

  /** `Ultrasonic_CheckForObstacle`: an obstacle is reported when the distance
      is non-negative and below the range; in whole numbers, when
      0 <= duration and duration * 343 < range * 20000. */
  function CheckForObstacle(duration: int, range: int): (obstacle: bool)
    ensures obstacle <==> 0 <= duration && duration * 343 < range * 20000
  {
    var distance := CalculateDistance(duration);
    distance >= 0.0 && distance < range as real
  }

  /** A negative duration, or a range of zero or less, never reports an
      obstacle; a zero duration reports one exactly when the range is positive. */
  lemma CheckForObstacleEdges(duration: int, range: int)
    ensures duration < 0 ==> !CheckForObstacle(duration, range)
    ensures range <= 0 ==> !CheckForObstacle(duration, range)
    ensures CheckForObstacle(0, range) <==> range > 0
  {
  }

  /** An obstacle reported at some duration is reported at every shorter
      non-negative duration, and at every larger range. */
  lemma CheckForObstacleMonotone(d1: int, d2: int, range1: int, range2: int)
    requires 0 <= d1 <= d2 && range1 <= range2
    ensures CheckForObstacle(d2, range1) ==> CheckForObstacle(d1, range2)
  {
  }
}
