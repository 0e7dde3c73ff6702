/**
 * Grid arithmetic of the warehouse transition rule: the fixed-width integer
 * types of the state tuple, the two casts the rule performs, and the per-axis
 * boundary clamp `pos_addition`.
 */
module Grid {
  /** Values of Rust's `i8`: agent coordinates and direction offsets. */
  type I8 = x: int | -128 <= x < 128

  /** Values of Rust's `u8`: the carry flag, rack coordinates, action codes. */
  type U8 = x: int | 0 <= x < 256

  /** An `(i8, i8)` pair: an agent position, a direction offset or a rack cell. */
  type Pos = (I8, I8)

  /** The test that an `i8` sum, computed on unbounded integers, does not overflow. */
  predicate InI8(x: int) { -128 <= x < 128 }

  /** `x as u8` on an `i8`: the same bits, read as unsigned. */
  function AsU8(x: I8): (r: U8)
    ensures (r - x) % 256 == 0
    ensures 0 <= x ==> r == x
  {
    if x < 0 then x + 256 else x
  }

  /** `x as i8` on a `u8`: the same bits, read as two's complement. */
  function AsI8(x: U8): (r: I8)
    ensures (r - x) % 256 == 0
    ensures x < 128 ==> r == x
  {
    if x < 128 then x else x - 256
  }

  /**
   * One axis of `pos_addition`: a sum strictly between `min` and `max - 1`
   * is kept, a sum below `min` becomes 0, and every other sum, including
   * one exactly equal to `min`, becomes `max - 1`.
   */
  function ClampAxis(sum: int, min: int, max: int): (r: I8)
    requires 0 <= min <= 127 && 1 <= max <= 127
    ensures 0 <= r < max
    ensures r == sum || r == 0 || r == max - 1
  {
    if min < sum < max - 1 then sum
    else if sum < min then 0
    else max - 1
  }

  /**
   * `pos_addition`: adds a direction to a position and clamps component 0
   * against `[xmin, xmax)` and component 1 against `[ymin, ymax)`.
   * The Rust sums are `i8` additions, so they must not overflow.
   */
  function PosAddition(pos: Pos, dir: Pos, xmin: int, xmax: int, ymin: int, ymax: int): (r: Pos)
    requires 0 <= xmin <= 127 && 1 <= xmax <= 127
    requires 0 <= ymin <= 127 && 1 <= ymax <= 127
    requires InI8(pos.0 + dir.0) && InI8(pos.1 + dir.1)
    ensures 0 <= r.0 < xmax && 0 <= r.1 < ymax
  {
    (ClampAxis(pos.0 + dir.0, xmin, xmax), ClampAxis(pos.1 + dir.1, ymin, ymax))
  }

  /** A sum strictly inside the axis range is kept unchanged. */
  lemma ClampKeepsInterior(sum: int, min: int, max: int)
    requires 0 <= min <= 127 && 1 <= max <= 127
    requires min < sum < max - 1
    ensures ClampAxis(sum, min, max) == sum
  {
  }

  /** A sum below the axis minimum is sent to 0. */
  lemma ClampBelowMinimum(sum: int, min: int, max: int)
    requires 0 <= min <= 127 && 1 <= max <= 127
    requires sum < min
    ensures ClampAxis(sum, min, max) == 0
  {
  }

  /**
   * A sum exactly at the axis minimum falls through to the last branch and
   * is sent to the far edge `max - 1`, not kept: moving from 1 towards 0,
   * or standing still at 0, lands on the last row or column.
   */
  lemma ClampAtMinimumJumps(min: int, max: int)
    requires 0 <= min <= 127 && 1 <= max <= 127
    ensures ClampAxis(min, min, max) == max - 1
  {
  }

  /** A sum above the axis minimum that reaches `max - 1` or beyond is sent to `max - 1`. */
  lemma ClampAboveMaximum(sum: int, min: int, max: int)
    requires 0 <= min <= 127 && 1 <= max <= 127
    requires min < sum && max - 1 <= sum
    ensures ClampAxis(sum, min, max) == max - 1
  {
  }

  /** With minimum 0, as the transition rule calls it, a move whose sums lie in `[1, max - 2]` on both axes lands on the sum. */
  lemma PosAdditionKeepsInterior(pos: Pos, dir: Pos, xmax: int, ymax: int)
    requires 1 <= xmax <= 127 && 1 <= ymax <= 127
    requires InI8(pos.0 + dir.0) && InI8(pos.1 + dir.1)
    requires 0 < pos.0 + dir.0 < xmax - 1 && 0 < pos.1 + dir.1 < ymax - 1
    ensures PosAddition(pos, dir, 0, xmax, 0, ymax) == (pos.0 + dir.0, pos.1 + dir.1)
  {
  }
}
