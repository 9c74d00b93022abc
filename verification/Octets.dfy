/** A byte under assembly: four two-bit lanes of a bit vector, and its numeric value. */
module Octets {
  import opened RasterTypes

  /** The two bits of dot `d` in lane `lane` of a byte; lane 0 is the most significant pair. */
  function Lane(d: Dot, lane: nat): bv8
    requires lane < 4
  {
    var level: bv8 := if d == 0 then 0 else if d == 1 then 1 else if d == 2 then 2 else 3;
    if lane == 0 then level << 6 else if lane == 1 then level << 4 else if lane == 2 then level << 2 else level
  }

  /** The two-bit digit in lane `lane`. */
  function LevelIn(b: bv8, lane: nat): Dot
    requires lane < 4
  {
    var shifted := if lane == 0 then b >> 6 else if lane == 1 then b >> 4 else if lane == 2 then b >> 2 else b;
    var level := shifted & 3;
    if level == 0 then 0 else if level == 1 then 1 else if level == 2 then 2 else 3
  }

  /** The number a bit vector stands for, from its base-four digits. */
  function ByteValue(b: bv8): Byte {
    64 * LevelIn(b, 0) as int + 16 * LevelIn(b, 1) as int + 4 * LevelIn(b, 2) as int + LevelIn(b, 3) as int
  }

  /** The same digit, read from the number. */
  function DigitIn(b: Byte, lane: nat): Dot
    requires lane < 4
  {
    if lane == 0 then b / 64 else if lane == 1 then b / 16 % 4 else if lane == 2 then b / 4 % 4 else b % 4
  }

  lemma LaneRecovered(a: Dot, b: Dot, c: Dot, d: Dot)
    ensures var packed := 0 | Lane(a, 0) | Lane(b, 1) | Lane(c, 2) | Lane(d, 3);
            LevelIn(packed, 0) == a && LevelIn(packed, 1) == b && LevelIn(packed, 2) == c && LevelIn(packed, 3) == d
  {
  }

  lemma DigitsOfSum(a: Dot, b: Dot, c: Dot, d: Dot, n: Byte)
    requires n == 64 * a as int + 16 * b as int + 4 * c as int + d as int
    ensures DigitIn(n, 0) == a && DigitIn(n, 1) == b && DigitIn(n, 2) == c && DigitIn(n, 3) == d
  {
    var high, low := 4 * a as int + b as int, 4 * c as int + d as int;
    assert n == 16 * high + low && 0 <= low < 16;
    assert n / 16 == high && n / 64 == a as int;
    assert n / 4 == 4 * high + c as int;
  }
}
