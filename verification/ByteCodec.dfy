/** Big-endian integers and length-prefixed blobs, as the spool header stream stores them. */
module ByteCodec {
  import opened RasterTypes

  type UInt8 = n: int | 0 <= n < 0x100
  type UInt16 = n: int | 0 <= n < 0x1_0000
  type Int32 = i: int | -0x8000_0000 <= i < 0x8000_0000
  type UInt32 = n: int | 0 <= n < 0x1_0000_0000
  type UInt64 = n: int | 0 <= n <= 0xFFFF_FFFF_FFFF_FFFF

  const U64_RANGE: int := 0x1_0000_0000_0000_0000

  /** Unsigned 64-bit arithmetic wraps around. */
  function Wrapped(n: int): UInt64 {
    n % U64_RANGE
  }

  lemma Unwrapped(n: int)
    requires 0 <= n < U64_RANGE
    ensures Wrapped(n) == n
  {
  }

  function Put8(n: UInt8): (s: seq<Byte>)
    ensures |s| == 1
  {
    [n]
  }

  function Put16(n: UInt16): (s: seq<Byte>)
    ensures |s| == 2
  {
    [n / 0x100, n % 0x100]
  }

  function Put32(n: UInt32): (s: seq<Byte>)
    ensures |s| == 4
  {
    Put16(n / 0x1_0000) + Put16(n % 0x1_0000)
  }

  function Put64(n: UInt64): (s: seq<Byte>)
    ensures |s| == 8
  {
    Put32(n / 0x1_0000_0000) + Put32(n % 0x1_0000_0000)
  }

  function Get16(s: seq<Byte>): UInt16
    requires |s| == 2
  {
    s[0] as int * 0x100 + s[1] as int
  }

  function Get32(s: seq<Byte>): UInt32
    requires |s| == 4
  {
    Get16(s[..2]) as int * 0x1_0000 + Get16(s[2..]) as int
  }

  function Get64(s: seq<Byte>): UInt64
    requires |s| == 8
  {
    Get32(s[..4]) as int * 0x1_0000_0000 + Get32(s[4..]) as int
  }

  lemma Get16Put(n: UInt16)
    ensures Get16(Put16(n)) == n
  {
  }

  lemma Get32Put(n: UInt32)
    ensures Get32(Put32(n)) == n
  {
    Get16Put(n / 0x1_0000);
    Get16Put(n % 0x1_0000);
    assert Put32(n)[..2] == Put16(n / 0x1_0000) && Put32(n)[2..] == Put16(n % 0x1_0000);
  }

  lemma Get64Put(n: UInt64)
    ensures Get64(Put64(n)) == n
  {
    Get32Put(n / 0x1_0000_0000);
    Get32Put(n % 0x1_0000_0000);
    assert Put64(n)[..4] == Put32(n / 0x1_0000_0000) && Put64(n)[4..] == Put32(n % 0x1_0000_0000);
  }

  /** The next `size` bytes and what follows them, or nothing when the stream is exhausted. */
  function Take(s: seq<Byte>, size: nat): (r: Option<(seq<Byte>, seq<Byte>)>)
    ensures r.Some? <==> size <= |s|
    ensures r.Some? ==> |r.value.0| == size
  {
    if |s| < size then None else Some((s[..size], s[size..]))
  }

  lemma TakeBack(a: seq<Byte>, rest: seq<Byte>)
    ensures Take(a + rest, |a|) == Some((a, rest))
  {
    assert (a + rest)[..|a|] == a && (a + rest)[|a|..] == rest;
  }

  function Read8(s: seq<Byte>): Option<(UInt8, seq<Byte>)> {
    var (b, rest) :- Take(s, 1);
    Some((b[0], rest))
  }

  function Read16(s: seq<Byte>): Option<(UInt16, seq<Byte>)> {
    var (b, rest) :- Take(s, 2);
    Some((Get16(b), rest))
  }

  function Read32(s: seq<Byte>): Option<(UInt32, seq<Byte>)> {
    var (b, rest) :- Take(s, 4);
    Some((Get32(b), rest))
  }

  function Read64(s: seq<Byte>): Option<(UInt64, seq<Byte>)> {
    var (b, rest) :- Take(s, 8);
    Some((Get64(b), rest))
  }

  lemma Read8Back(n: UInt8, rest: seq<Byte>)
    ensures Read8(Put8(n) + rest) == Some((n, rest))
  {
    TakeBack(Put8(n), rest);
  }

  lemma Read16Back(n: UInt16, rest: seq<Byte>)
    ensures Read16(Put16(n) + rest) == Some((n, rest))
  {
    TakeBack(Put16(n), rest);
    Get16Put(n);
  }

  lemma Read32Back(n: UInt32, rest: seq<Byte>)
    ensures Read32(Put32(n) + rest) == Some((n, rest))
  {
    TakeBack(Put32(n), rest);
    Get32Put(n);
  }

  lemma Read64Back(n: UInt64, rest: seq<Byte>)
    ensures Read64(Put64(n) + rest) == Some((n, rest))
  {
    TakeBack(Put64(n), rest);
    Get64Put(n);
  }

  function Unsigned(i: Int32): UInt32 {
    if i < 0 then i + 0x1_0000_0000 else i
  }

  function Signed(n: UInt32): Int32 {
    if n < 0x8000_0000 then n else n - 0x1_0000_0000
  }

  function PutInt(i: Int32): (s: seq<Byte>)
    ensures |s| == 4
  {
    Put32(Unsigned(i))
  }

  function ReadInt(s: seq<Byte>): Option<(Int32, seq<Byte>)> {
    var (n, rest) :- Read32(s);
    Some((Signed(n), rest))
  }

  lemma ReadIntBack(i: Int32, rest: seq<Byte>)
    ensures ReadInt(PutInt(i) + rest) == Some((i, rest))
  {
    Read32Back(Unsigned(i), rest);
  }

  const NULL_LENGTH: UInt32 := 0xFFFF_FFFF

  /** A blob is its length and its bytes; a null blob is the length 0xFFFFFFFF alone. */
  function PutBlob(b: seq<Byte>): (s: seq<Byte>)
    requires |b| < NULL_LENGTH
    ensures |s| == 4 + |b|
  {
    if b == [] then Put32(NULL_LENGTH) else Put32(|b|) + b
  }

  function ReadBlob(s: seq<Byte>): Option<(seq<Byte>, seq<Byte>)> {
    var (n, rest) :- Read32(s);
    if n == NULL_LENGTH then Some(([], rest)) else Take(rest, n)
  }

  lemma ReadBlobBack(b: seq<Byte>, rest: seq<Byte>)
    requires |b| < NULL_LENGTH
    ensures ReadBlob(PutBlob(b) + rest) == Some((b, rest))
  {
    if b == [] {
      Read32Back(NULL_LENGTH, rest);
    } else {
      Read32Back(|b|, b + rest);
      TakeBack(b, rest);
      assert Put32(|b|) + b + rest == Put32(|b|) + (b + rest);
    }
  }

  function PutWords(ws: seq<UInt32>): (s: seq<Byte>)
    ensures |s| == 4 * |ws|
  {
    if ws == [] then [] else Put32(ws[0]) + PutWords(ws[1..])
  }

  function ReadWords(s: seq<Byte>, count: nat): (r: Option<(seq<UInt32>, seq<Byte>)>)
    ensures r.Some? ==> |r.value.0| == count
  {
    if count == 0 then Some(([], s))
    else
      var (w, s1) :- Read32(s);
      var (ws, rest) :- ReadWords(s1, count - 1);
      Some(([w] + ws, rest))
  }

  lemma {:induction false} ReadWordsBack(ws: seq<UInt32>, count: nat, rest: seq<Byte>)
    requires count == |ws|
    ensures ReadWords(PutWords(ws) + rest, count) == Some((ws, rest))
  {
    if ws == [] {
      assert PutWords(ws) + rest == rest;
    } else {
      Read32Back(ws[0], PutWords(ws[1..]) + rest);
      assert PutWords(ws) + rest == Put32(ws[0]) + (PutWords(ws[1..]) + rest);
      ReadWordsBack(ws[1..], count - 1, rest);
      assert [ws[0]] + ws[1..] == ws;
    }
  }

  function PutInts(xs: seq<Int32>): (s: seq<Byte>)
    ensures |s| == 4 * |xs|
  {
    if xs == [] then [] else PutInt(xs[0]) + PutInts(xs[1..])
  }

  function ReadInts(s: seq<Byte>, count: nat): (r: Option<(seq<Int32>, seq<Byte>)>)
    ensures r.Some? ==> |r.value.0| == count
  {
    if count == 0 then Some(([], s))
    else
      var (x, s1) :- ReadInt(s);
      var (xs, rest) :- ReadInts(s1, count - 1);
      Some(([x] + xs, rest))
  }

  lemma {:induction false} ReadIntsBack(xs: seq<Int32>, count: nat, rest: seq<Byte>)
    requires count == |xs|
    ensures ReadInts(PutInts(xs) + rest, count) == Some((xs, rest))
  {
    if xs == [] {
      assert PutInts(xs) + rest == rest;
    } else {
      ReadIntBack(xs[0], PutInts(xs[1..]) + rest);
      assert PutInts(xs) + rest == PutInt(xs[0]) + (PutInts(xs[1..]) + rest);
      ReadIntsBack(xs[1..], count - 1, rest);
      assert [xs[0]] + xs[1..] == xs;
    }
  }
}
