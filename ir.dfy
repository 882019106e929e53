/**
 * The infrared drop test (ir/ir.c): the floor sensor reports a drop when the
 * measured distance is strictly greater than the expected one.
 */
module Ir {

  /** A `char` distance in millimetres: 0..255 (plain char is unsigned on the RP2040). */
  type Millimetres = x: int | 0 <= x < 256

  /** `IR_CheckForDrop`: true when the ground is farther than expected. */
  function CheckForDrop(distance: Millimetres, expectedDistance: Millimetres): (drop: bool)
    ensures drop <==> expectedDistance < distance
  {
    distance > expectedDistance
  }

  /** A farther ground never clears a drop; a higher threshold never raises one. */
  lemma CheckForDropMonotone(d1: Millimetres, d2: Millimetres, e1: Millimetres, e2: Millimetres)
    requires d1 <= d2 && e1 <= e2
    ensures CheckForDrop(d1, e2) ==> CheckForDrop(d2, e1)
    ensures !CheckForDrop(d1, d1)
  {
  }
}
