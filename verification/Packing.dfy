/** Two-bit packing of a row of dots into a 4-byte aligned line, and both packers of it. */
module Packing {
  import opened Octets
  import opened RasterTypes

  function DotAt(dots: seq<Dot>, x: nat): Dot {
    if x < |dots| then dots[x] else 0
  }

  /** The first `count` lanes of packed byte `j`. */
  function Lanes(dots: seq<Dot>, j: nat, count: nat): bv8
    requires count <= 4
  {
    if count == 0 then 0 else Lanes(dots, j, count - 1) | Lane(DotAt(dots, 4 * j + count - 1), count - 1)
  }

  function PackedByte(dots: seq<Dot>, j: nat): Byte {
    ByteValue(Lanes(dots, j, 4))
  }

  /** The line a row of dots packs to; pad lanes and pad bytes are zero. */
  function PackedLine(dots: seq<Dot>): (line: seq<Byte>)
    ensures |line| == LineBytes(|dots|)
  {
    seq(LineBytes(|dots|), j requires 0 <= j => PackedByte(dots, j))
  }

  function Unpack(line: seq<Byte>, width: nat): (dots: seq<Dot>)
    requires LineBytes(width) <= |line|
  {
    seq(width, x requires 0 <= x < width => DigitIn(line[x / 4], x % 4))
  }

  /** Packing loses nothing: unpacking recovers every dot, whatever the width. */
  lemma UnpackPacked(dots: seq<Dot>)
    ensures Unpack(PackedLine(dots), |dots|) == dots
  {
    forall x | 0 <= x < |dots|
      ensures DigitIn(PackedLine(dots)[x / 4], x % 4) == dots[x]
    {
      UnpackAt(dots, x, x / 4, x % 4);
    }
  }

  lemma UnpackAt(dots: seq<Dot>, x: nat, j: nat, lane: nat)
    requires lane < 4 && x == 4 * j + lane < |dots|
    ensures j < LineBytes(|dots|) && DigitIn(PackedLine(dots)[j], lane) == dots[x]
  {
    LevelRecovered(dots, j, lane);
  }

  lemma LevelRecovered(dots: seq<Dot>, j: nat, lane: nat)
    requires lane < 4 && 4 * j + lane < |dots|
    ensures DigitIn(PackedByte(dots, j), lane) == dots[4 * j + lane]
  {
    var a, b, c, d := DotAt(dots, 4 * j), DotAt(dots, 4 * j + 1), DotAt(dots, 4 * j + 2), DotAt(dots, 4 * j + 3);
    LanesAre(dots, j);
    LaneRecovered(a, b, c, d);
    DigitsOfSum(a, b, c, d, PackedByte(dots, j));
  }

  lemma LanesAre(dots: seq<Dot>, j: nat)
    ensures Lanes(dots, j, 4) ==
            0 | Lane(DotAt(dots, 4 * j), 0) | Lane(DotAt(dots, 4 * j + 1), 1)
              | Lane(DotAt(dots, 4 * j + 2), 2) | Lane(DotAt(dots, 4 * j + 3), 3)
  {
    assert Lanes(dots, j, 0) == 0;
    assert Lanes(dots, j, 1) == 0 | Lane(DotAt(dots, 4 * j), 0);
    assert Lanes(dots, j, 2) == 0 | Lane(DotAt(dots, 4 * j), 0) | Lane(DotAt(dots, 4 * j + 1), 1);
    assert Lanes(dots, j, 3) ==
           0 | Lane(DotAt(dots, 4 * j), 0) | Lane(DotAt(dots, 4 * j + 1), 1) | Lane(DotAt(dots, 4 * j + 2), 2);
  }

  /** Lanes past the end of the row are zero bits. */
  lemma LanesPastEnd(dots: seq<Dot>, j: nat, from: nat, to: nat)
    requires from <= to <= 4 && (from == 4 || |dots| <= 4 * j + from)
    ensures Lanes(dots, j, to) == Lanes(dots, j, from)
  {
    if from < to {
      LanesPastEnd(dots, j, from, to - 1);
      assert Lane(0, to - 1) == 0;
    }
  }

  /** The full-frame packer: accumulates a byte and pushes it when four dots are in, then pads. */
  method PackAccumulating(dots: seq<Dot>) returns (line: seq<Byte>)
    ensures line == PackedLine(dots)
  {
    line := AccumulateBytes(dots);
    while |line| % 4 != 0
      invariant (|dots| + 3) / 4 <= |line| <= LineBytes(|dots|)
      invariant forall j :: 0 <= j < |line| ==> line[j] == PackedByte(dots, j)
      decreases LineBytes(|dots|) - |line|
    {
      LanesPastEnd(dots, |line|, 0, 4);
      line := line + [0];
    }
  }

  method AccumulateBytes(dots: seq<Dot>) returns (line: seq<Byte>)
    ensures |line| == (|dots| + 3) / 4
    ensures forall j :: 0 <= j < |line| ==> line[j] == PackedByte(dots, j)
  {
    line := [];
    var byte: bv8 := 0;
    var idx := 0;
    while idx < |dots|
      invariant 0 <= idx <= |dots| && |line| == idx / 4
      invariant forall j :: 0 <= j < |line| ==> line[j] == PackedByte(dots, j)
      invariant byte == Lanes(dots, idx / 4, idx % 4)
    {
      byte := byte | Lane(dots[idx], idx % 4);
      assert byte == Lanes(dots, idx / 4, idx % 4 + 1);
      idx := idx + 1;
      if idx % 4 == 0 {
        line := line + [ByteValue(byte)];
        byte := 0;
      }
    }
    if idx % 4 != 0 {
      LanesPastEnd(dots, idx / 4, idx % 4, 4);
      line := line + [ByteValue(byte)];
    }
  }

  /** How many lanes of byte `j` the first `x` dots have reached. */
  function LanesDone(x: nat, j: nat): (r: nat)
    ensures r <= 4
  {
    if 4 * j + 4 <= x then 4 else if x <= 4 * j then 0 else x - 4 * j
  }

  /** The bounded packer: ORs every dot into a zero-filled line. */
  method PackZeroed(dots: seq<Dot>) returns (packed: seq<Byte>)
    ensures packed == PackedLine(dots)
  {
    var bytesPerLine := LineBytes(|dots|);
    var line := new bv8[bytesPerLine](_ => 0);
    var x := 0;
    while x < |dots|
      invariant 0 <= x <= |dots|
      invariant forall j :: 0 <= j < bytesPerLine ==> line[j] == Lanes(dots, j, LanesDone(x, j))
    {
      OrLane(line, dots, x / 4, x % 4);
      x := x + 1;
    }
    forall j | 0 <= j < bytesPerLine
      ensures ByteValue(line[j]) == PackedByte(dots, j)
    {
      LanesPastEnd(dots, j, LanesDone(x, j), 4);
    }
    packed := seq(bytesPerLine, j requires 0 <= j < line.Length reads line => ByteValue(line[j]));
  }

  method OrLane(line: array<bv8>, dots: seq<Dot>, j: nat, lane: nat)
    requires lane < 4 && 4 * j + lane < |dots| && j < line.Length
    requires line[j] == Lanes(dots, j, lane)
    modifies line
    ensures line[j] == Lanes(dots, j, lane + 1)
    ensures forall i :: 0 <= i < line.Length && i != j ==> line[i] == old(line[i])
  {
    line[j] := line[j] | Lane(dots[4 * j + lane], lane);
  }
}
