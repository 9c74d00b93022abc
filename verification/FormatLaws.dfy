/** Where which bytes lie: packed lines, the spool header and body, the raster payload and the frames. */
module FormatLaws {
  import opened Arithmetic
  import opened RasterTypes
  import opened ByteCodec
  import opened Octets
  import opened Packing
  import opened SpoolFormat
  import opened SpoolBody
  import opened SpoolReader
  import opened RasterProtocol
  import FrameCodec

  /** A packed byte holds four dots, the leftmost in its two highest bits; beyond the row it is padded with blanks, and
      the line with bytes, to a multiple of four. */
  lemma PackedBytes(dots: seq<Dot>, j: nat)
    requires j < |PackedLine(dots)|
    ensures |PackedLine(dots)| % 4 == 0 && |dots| <= 4 * |PackedLine(dots)| < |dots| + 16
    ensures PackedLine(dots)[j] as int ==
            64 * Level(dots, 4 * j) + 16 * Level(dots, 4 * j + 1) + 4 * Level(dots, 4 * j + 2) + Level(dots, 4 * j + 3)
  {
    LaneRecovered(DotAt(dots, 4 * j), DotAt(dots, 4 * j + 1), DotAt(dots, 4 * j + 2), DotAt(dots, 4 * j + 3));
    LanesAre(dots, j);
  }

  function Level(dots: seq<Dot>, x: nat): int {
    if x < |dots| then dots[x] else 0
  }

  lemma LanesAre(dots: seq<Dot>, j: nat)
    ensures Lanes(dots, j, 4) ==
            0 | Lane(DotAt(dots, 4 * j), 0) | Lane(DotAt(dots, 4 * j + 1), 1)
            | Lane(DotAt(dots, 4 * j + 2), 2) | Lane(DotAt(dots, 4 * j + 3), 3)
  {
    assert Lanes(dots, j, 1) == 0 | Lane(DotAt(dots, 4 * j), 0);
    assert Lanes(dots, j, 2) == Lanes(dots, j, 1) | Lane(DotAt(dots, 4 * j + 1), 1);
    assert Lanes(dots, j, 3) == Lanes(dots, j, 2) | Lane(DotAt(dots, 4 * j + 2), 2);
  }

  /** The number four bytes stand for, the highest first. */
  function Big(bytes: seq<Byte>, at: nat): int
    requires at + 4 <= |bytes|
  {
    bytes[at] as int * 0x100_0000 + bytes[at + 1] as int * 0x1_0000 + bytes[at + 2] as int * 0x100 +
    bytes[at + 3] as int
  }

  /** Likewise eight bytes. */
  function Huge(bytes: seq<Byte>, at: nat): int
    requires at + 8 <= |bytes|
  {
    Big(bytes, at) * 0x1_0000_0000 + Big(bytes, at + 4)
  }

  lemma Put32Big(n: UInt32)
    ensures Big(Put32(n), 0) == n
  {
    var high, low := n / 0x1_0000, n % 0x1_0000;
    assert Put32(n) == [high / 0x100, high % 0x100, low / 0x100, low % 0x100];
  }

  lemma Put64Huge(n: UInt64)
    ensures Huge(Put64(n), 0) == n
  {
    Put32Big(n / 0x1_0000_0000);
    Put32Big(n % 0x1_0000_0000);
  }

  /** Four bytes inside a stream are those of the piece they come from. */
  lemma BigWithin(bytes: seq<Byte>, piece: seq<Byte>, at: nat)
    requires at + 4 <= |bytes| && |piece| == 4 && bytes[at..at + 4] == piece
    ensures Big(bytes, at) == Big(piece, 0)
  {
    assert bytes[at] == piece[0] && bytes[at + 1] == piece[1] && bytes[at + 2] == piece[2] && bytes[at + 3] == piece[3];
  }

  lemma HugeWithin(bytes: seq<Byte>, piece: seq<Byte>, at: nat)
    requires at + 8 <= |bytes| && |piece| == 8 && bytes[at..at + 8] == piece
    ensures Huge(bytes, at) == Huge(piece, 0)
  {
    SliceOfSlice(bytes, at, at + 8, 0, 4);
    SliceOfSlice(bytes, at, at + 8, 4, 8);
    BigWithin(bytes, piece[0..4], at);
    BigWithin(bytes, piece[4..8], at + 4);
    BigWithin(piece, piece[0..4], 0);
    BigWithin(piece, piece[4..8], 4);
  }

  lemma FivePieces(a: seq<Byte>, b: seq<Byte>, c: seq<Byte>, d: seq<Byte>, e: seq<Byte>)
    ensures var h := a + (b + (c + d)) + e; var p, q, r := |a| + |b|, |a| + |b| + |c|, |a| + |b| + |c| + |d|;
            |h| == r + |e| && h[..|a|] == a && h[|a|..p] == b && h[p..q] == c && h[q..r] == d && h[r..] == e
  {
  }

  /** The pieces of the header, and that zeros fill it up. */
  lemma HeaderPieces(s: SpoolInfo, checksum: seq<Byte>)
    requires MetadataIsValid(s) && |checksum| <= 32
    ensures EncodeHeader(s, checksum).Some? && |EncodeHeader(s, checksum).value| == 4096
    ensures var h, at := EncodeHeader(s, checksum).value, 51 + |checksum|; var end := at + |PutPlanes(s)|;
            && end <= 4096 && h[..14] == PutPreamble() && h[14..34] == PutGeometry(s)
            && h[34..at] == PutContents(s, checksum) && h[at..end] == PutPlanes(s)
            && h[end..] == Padding(4096 - end)
  {
    FieldsFit(s, checksum);
    FivePieces(PutPreamble(), PutGeometry(s), PutContents(s, checksum), PutPlanes(s),
               Padding(4096 - |HeaderFields(s, checksum)|));
  }

  /** The header begins with its magic "PFRS", version 1 and its own length, 4096, and then gives width, height, the two
      resolutions and the bytes of a line, each as four bytes, the highest first. */
  lemma HeaderFront(s: SpoolInfo, checksum: seq<Byte>)
    requires MetadataIsValid(s) && |checksum| <= 32
    ensures EncodeHeader(s, checksum).Some? && |EncodeHeader(s, checksum).value| == 4096
    ensures var h := EncodeHeader(s, checksum).value;
            && h[..14] == [0x50, 0x46, 0x52, 0x53, 0, 1, 0, 0, 0, 0, 0, 0, 0x10, 0]
            && Big(h, 14) == s.width && Big(h, 18) == s.height && Big(h, 22) == s.xdpi && Big(h, 26) == s.ydpi
            && Big(h, 30) == s.bytesPerLine
  {
    HeaderPieces(s, checksum);
    var h, g := EncodeHeader(s, checksum).value, PutGeometry(s);
    Preamble();
    GeometryBytes(s);
    Shifted(h, g, 14, 0);
    Shifted(h, g, 14, 4);
    Shifted(h, g, 14, 8);
    Shifted(h, g, 14, 12);
    Shifted(h, g, 14, 16);
  }

  lemma Preamble()
    ensures PutPreamble() == [0x50, 0x46, 0x52, 0x53, 0, 1, 0, 0, 0, 0, 0, 0, 0x10, 0]
  {
    assert Put32(SPOOL_MAGIC) == [0x50, 0x46, 0x52, 0x53];
    assert Put16(SPOOL_VERSION) == [0, 1];
    assert Put64(HEADER_BYTES) == [0, 0, 0, 0, 0, 0, 0x10, 0];
  }

  /** Reading at an offset of a piece is reading the piece. */
  lemma Shifted(bytes: seq<Byte>, piece: seq<Byte>, start: nat, at: nat)
    requires start + |piece| <= |bytes| && bytes[start..start + |piece|] == piece && at + 4 <= |piece|
    ensures Big(bytes, start + at) == Big(piece, at)
  {
    SliceOfSlice(bytes, start, start + |piece|, at, at + 4);
    BigWithin(bytes, piece[at..at + 4], start + at);
    BigWithin(piece, piece[at..at + 4], at);
  }

  lemma GeometryBytes(s: SpoolInfo)
    requires 0 < s.width && 0 < s.height && 0 < s.xdpi && 0 < s.ydpi && 0 < s.bytesPerLine
    ensures var g := PutGeometry(s);
            && |g| == 20 && Big(g, 0) == s.width && Big(g, 4) == s.height && Big(g, 8) == s.xdpi
            && Big(g, 12) == s.ydpi && Big(g, 16) == s.bytesPerLine
  {
    var a, b, c, d, e := PutInt(s.width), PutInt(s.height), PutInt(s.xdpi), PutInt(s.ydpi), PutInt(s.bytesPerLine);
    var g := PutGeometry(s);
    assert g[..4] == a && g[4..8] == b && g[8..12] == c && g[12..16] == d && g[16..20] == e;
    IntAt(g, s.width, 0);
    IntAt(g, s.height, 4);
    IntAt(g, s.xdpi, 8);
    IntAt(g, s.ydpi, 12);
    IntAt(g, s.bytesPerLine, 16);
  }

  lemma IntAt(bytes: seq<Byte>, i: Int32, at: nat)
    requires 0 <= i && at + 4 <= |bytes| && bytes[at..at + 4] == PutInt(i)
    ensures Big(bytes, at) == i
  {
    Put32Big(i);
    BigWithin(bytes, PutInt(i), at);
  }

  /** After the geometry come the format, one byte, the number of logical channels, the bytes of the body as eight
      bytes, and the checksum. */
  lemma HeaderMiddle(s: SpoolInfo, checksum: seq<Byte>)
    requires MetadataIsValid(s) && |checksum| <= 32
    ensures EncodeHeader(s, checksum).Some? && |EncodeHeader(s, checksum).value| == 4096
    ensures var h := EncodeHeader(s, checksum).value;
            && h[34] == s.format && Big(h, 35) == s.logicalChannelCount && Huge(h, 39) == s.bodyBytes
            && (checksum == [] ==> Big(h, 47) == 0xFFFF_FFFF)
            && (checksum != [] ==> Big(h, 47) == |checksum| && h[51..51 + |checksum|] == checksum)
  {
    HeaderPieces(s, checksum);
    var h, c := EncodeHeader(s, checksum).value, PutContents(s, checksum);
    ContentsBytes(s, checksum);
    assert h[34] == h[34..51 + |checksum|][0];
    Shifted(h, c, 34, 1);
    Shifted(h, c, 34, 5);
    Shifted(h, c, 34, 9);
    Shifted(h, c, 34, 13);
    if checksum != [] {
      SliceOfSlice(h, 34, 51 + |checksum|, 17, 17 + |checksum|);
    }
  }

  lemma ContentsBytes(s: SpoolInfo, checksum: seq<Byte>)
    requires 0 <= s.logicalChannelCount && |checksum| <= 32
    ensures var c := PutContents(s, checksum);
            && |c| == 17 + |checksum| && c[0] == s.format && Big(c, 1) == s.logicalChannelCount
            && Huge(c, 5) == s.bodyBytes
            && (checksum == [] ==> Big(c, 13) == 0xFFFF_FFFF)
            && (checksum != [] ==> Big(c, 13) == |checksum| && c[17..17 + |checksum|] == checksum)
  {
    var c := PutContents(s, checksum);
    FourPieces(Put8(s.format), PutInt(s.logicalChannelCount), Put64(s.bodyBytes), PutBlob(checksum));
    IntAt(c, s.logicalChannelCount, 1);
    Put64Huge(s.bodyBytes);
    HugeWithin(c, Put64(s.bodyBytes), 5);
    BlobBytes(checksum);
    assert c[13..13 + |PutBlob(checksum)|] == PutBlob(checksum);
    Shifted(c, PutBlob(checksum), 13, 0);
    if checksum != [] {
      SliceOfSlice(c, 13, |c|, 4, 4 + |checksum|);
    }
  }

  lemma FourPieces(a: seq<Byte>, b: seq<Byte>, c: seq<Byte>, d: seq<Byte>)
    ensures var h := a + (b + (c + d)); var p, q := |a| + |b|, |a| + |b| + |c|;
            |h| == q + |d| && h[..|a|] == a && h[|a|..p] == b && h[p..q] == c && h[q..] == d
  {
  }

  lemma BlobBytes(b: seq<Byte>)
    requires |b| <= 32
    ensures |PutBlob(b)| == 4 + |b| && Big(PutBlob(b), 0) == if b == [] then 0xFFFF_FFFF else |b|
    ensures b != [] ==> PutBlob(b)[4..4 + |b|] == b
  {
    var n: UInt32 := if b == [] then NULL_LENGTH else |b|;
    Put32Big(n);
    assert PutBlob(b) == Put32(n) + b;
    BigWithin(PutBlob(b), Put32(n), 0);
  }

  /** From offset `at` on there are the twelve words of the printer's own header, the number of physical channels and
      their order, and then zeros. */
  ghost predicate EndsWith(h: seq<Byte>, at: nat, s: SpoolInfo)
    requires at + 52 + 4 * |s.channelOrder| <= |h|
  {
    && (forall k: nat :: k < 12 ==> Big(h, at + 4 * k) == s.canonicalHeader[k])
    && Big(h, at + 48) == |s.channelOrder|
    && (forall k: nat :: k < |s.channelOrder| ==> Big(h, at + 52 + 4 * k) == s.channelOrder[k])
    && (forall k: nat :: at + 52 + 4 * |s.channelOrder| <= k < |h| ==> h[k] == 0)
  }

  /** That is how the header ends, right after the checksum. */
  lemma HeaderEnd(s: SpoolInfo, checksum: seq<Byte>)
    requires MetadataIsValid(s) && |checksum| <= 32
    ensures EncodeHeader(s, checksum).Some? && |EncodeHeader(s, checksum).value| == 4096
    ensures 51 + |checksum| + 52 + 4 * |s.channelOrder| <= 4096
    ensures EndsWith(EncodeHeader(s, checksum).value, 51 + |checksum|, s)
  {
    HeaderPieces(s, checksum);
    PlanesBytes(s, 0);
    EndIs(EncodeHeader(s, checksum).value, 51 + |checksum|, s);
  }

  lemma EndIs(h: seq<Byte>, at: nat, s: SpoolInfo)
    requires |s.channelOrder| <= INT_MAX && forall c :: c in s.channelOrder ==> 0 <= c
    requires |h| == 4096 && |PutPlanes(s)| == 52 + 4 * |s.channelOrder|
    requires at + |PutPlanes(s)| <= 4096 && h[at..at + |PutPlanes(s)|] == PutPlanes(s)
    requires h[at + |PutPlanes(s)|..] == Padding(4096 - (at + |PutPlanes(s)|))
    ensures EndsWith(h, at, s)
  {
    PlanesWithin(s, h, at);
    var end := at + |PutPlanes(s)|;
    forall k: nat | end <= k < 4096
      ensures h[k] == 0
    {
      assert h[k] == h[end..][k - end];
    }
  }

  lemma PlanesWithin(s: SpoolInfo, h: seq<Byte>, at: nat)
    requires |s.channelOrder| <= INT_MAX && forall c :: c in s.channelOrder ==> 0 <= c
    requires at + |PutPlanes(s)| <= |h| && h[at..at + |PutPlanes(s)|] == PutPlanes(s)
    ensures |PutPlanes(s)| == 52 + 4 * |s.channelOrder|
    ensures forall k: nat :: k < 12 ==> Big(h, at + 4 * k) == s.canonicalHeader[k]
    ensures Big(h, at + 48) == |s.channelOrder|
    ensures forall k: nat :: k < |s.channelOrder| ==> Big(h, at + 52 + 4 * k) == s.channelOrder[k]
  {
    var p := PutPlanes(s);
    PlanesBytes(s, 0);
    forall k: nat | k < 12
      ensures Big(h, at + 4 * k) == s.canonicalHeader[k]
    {
      Shifted(h, p, at, 4 * k);
      PlanesBytes(s, k);
    }
    Shifted(h, p, at, 48);
    forall k: nat | k < |s.channelOrder|
      ensures Big(h, at + 52 + 4 * k) == s.channelOrder[k]
    {
      Shifted(h, p, at, 52 + 4 * k);
      PlanesBytes(s, k);
    }
  }

  lemma PlanesBytes(s: SpoolInfo, k: nat)
    requires |s.channelOrder| <= INT_MAX && forall c :: c in s.channelOrder ==> 0 <= c
    ensures |PutPlanes(s)| == 52 + 4 * |s.channelOrder|
    ensures k < 12 ==> Big(PutPlanes(s), 4 * k) == s.canonicalHeader[k]
    ensures Big(PutPlanes(s), 48) == |s.channelOrder|
    ensures k < |s.channelOrder| ==> Big(PutPlanes(s), 52 + 4 * k) == s.channelOrder[k]
  {
    var p, words, ints := PutPlanes(s), PutWords(s.canonicalHeader), PutInts(s.channelOrder);
    assert p[..48] == words && p[48..52] == PutInt(|s.channelOrder|) && p[52..] == ints;
    IntAt(p, |s.channelOrder|, 48);
    if k < 12 {
      WordAt(s.canonicalHeader, k);
      assert p[0..48] == words;
      Shifted(p, words, 0, 4 * k);
    }
    if k < |s.channelOrder| {
      ChannelAt(s.channelOrder, k);
      assert p[52..52 + |ints|] == ints;
      Shifted(p, ints, 52, 4 * k);
    }
  }

  lemma {:induction false} WordAt(ws: seq<UInt32>, k: nat)
    requires k < |ws|
    ensures Big(PutWords(ws), 4 * k) == ws[k]
  {
    var head, tail := Put32(ws[0]), PutWords(ws[1..]);
    if k == 0 {
      Put32Big(ws[0]);
      assert PutWords(ws)[0..4] == head;
      BigWithin(PutWords(ws), head, 0);
    } else {
      WordAt(ws[1..], k - 1);
      assert PutWords(ws)[4..4 + |tail|] == tail;
      Shifted(PutWords(ws), tail, 4, 4 * (k - 1));
    }
  }

  lemma {:induction false} ChannelAt(xs: seq<Int32>, k: nat)
    requires k < |xs| && forall x :: x in xs ==> 0 <= x
    ensures Big(PutInts(xs), 4 * k) == xs[k]
  {
    var head, tail := PutInt(xs[0]), PutInts(xs[1..]);
    if k == 0 {
      assert xs[0] in xs;
      assert PutInts(xs)[0..4] == head;
      IntAt(PutInts(xs), xs[0], 0);
    } else {
      forall x | x in xs[1..]
        ensures 0 <= x
      {
        assert x in xs;
      }
      ChannelAt(xs[1..], k - 1);
      assert PutInts(xs)[4..4 + |tail|] == tail;
      Shifted(PutInts(xs), tail, 4, 4 * (k - 1));
    }
  }

  /** The body follows the header channel after channel, each row by row. */
  lemma BodyLayout(s: SpoolInfo, file: seq<Byte>, channel: nat, row: nat)
    requires MetadataIsValid(s) && |file| == 4096 + ExpectedBodyBytes(s)
    requires channel < s.logicalChannelCount as int && row < s.height as int
    ensures var at := 4096 + (channel * s.height as int + row) * s.bytesPerLine as int;
            0 <= at <= at + s.bytesPerLine as int <= |file| &&
              StoredLine(s, file, channel, row) == file[at..at + s.bytesPerLine as int]
  {
    BodySizeExact(s);
    CellInPlane(row, channel, s.height as int, s.logicalChannelCount as int);
    var k, n := channel * s.height as int + row, s.bytesPerLine as int;
    LineFits(k, LineCount(s), s.bytesPerLine);
    SliceOfSlice(file, 4096, |file|, k * n, k * n + n);
  }

  /** A raster payload holds row after row, and in each row its lines in the order of the channel list. */
  lemma PayloadLayout(r: Raster, row: nat, j: nat)
    requires Serialized(r).Some? && row < r.info.height as int && j < |r.info.channels|
    ensures var n, payload := r.info.bytesPerLine as int, Serialized(r).value;
            var at := (row * |r.info.channels| + j) * n;
            && 0 <= at <= at + n <= |payload| && HasLine(r, r.info.channels[j], row)
            && payload[at..at + n] == r.lines[r.info.channels[j]][row]
  {
    SerializedIsBounded(r);
    LineInside(r.info, Serialized(r).value, row, j);
    SerializedLine(r, row, j);
  }

  /** A frame is the length of what follows, the magic "PFPS", version 1 and the message. */
  lemma FrameLayout<M(!new)>(codec: FrameCodec.MessageCodec<M>, message: M)
    ensures FrameCodec.EncodeFrame(codec, message).Some? <==> 6 + |codec.encode(message)| <= 536870912
    ensures FrameCodec.EncodeFrame(codec, message).Some? ==>
              var frame := FrameCodec.EncodeFrame(codec, message).value;
              && |frame| == 10 + |codec.encode(message)| && Big(frame, 0) == |frame| - 4
              && frame[4..10] == [0x50, 0x46, 0x50, 0x53, 0, 1] && frame[10..] == codec.encode(message)
  {
    var body := FrameCodec.Body(codec, message);
    assert Put32(FrameCodec.FRAME_MAGIC) == [0x50, 0x46, 0x50, 0x53] && Put16(FrameCodec.FRAME_VERSION) == [0, 1];
    assert body == [0x50, 0x46, 0x50, 0x53, 0, 1] + codec.encode(message);
    if FrameCodec.EncodeFrame(codec, message).Some? {
      var frame := FrameCodec.EncodeFrame(codec, message).value;
      assert frame[..4] == Put32(|body|) == frame[0..4] && frame[4..] == body;
      Put32Big(|body|);
      BigWithin(frame, Put32(|body|), 0);
    }
  }

  /** Metadata the spool accepts: sixteen channels at most, all named ones in range, a line as long as the width asks
      for, at most 2^31 - 1 lines, positive dimensions, and a body size that is either missing or the exact one. */
  lemma MetadataRules(s: SpoolInfo)
    ensures MetadataIsValid(s) <==>
              && 1 <= s.width && 1 <= s.height && 1 <= s.xdpi && 1 <= s.ydpi && 1 <= s.logicalChannelCount <= 16
              && 1 <= |s.channelOrder| <= 16 && (forall c :: c in s.channelOrder ==> 0 <= c < s.logicalChannelCount)
              && s.bytesPerLine as int == (s.width as int + 15) / 16 * 4
              && s.logicalChannelCount as int * s.height as int <= 2147483647
              && (s.bodyBytes == 0 ||
                  s.bodyBytes == s.logicalChannelCount as int * s.height as int * s.bytesPerLine as int)
  {
    assert LineBytes(s.width as int) == (s.width as int + 15) / 16 * 4;
    if 1 <= s.width && 1 <= s.height && 1 <= s.logicalChannelCount <= 16 && 1 <= s.bytesPerLine <= 0x2000_0000 &&
       s.logicalChannelCount as int * s.height as int <= 2147483647 {
      BodyProduct(s);
    }
  }

  lemma BodyProduct(s: SpoolInfo)
    requires 1 <= s.height && 1 <= s.logicalChannelCount && 1 <= s.bytesPerLine <= 0x2000_0000
    requires s.logicalChannelCount as int * s.height as int <= 2147483647
    ensures ExpectedBodyBytes(s) == s.logicalChannelCount as int * s.height as int * s.bytesPerLine as int != 0
  {
    var lines := s.logicalChannelCount as int * s.height as int;
    ProductGrows(1, s.logicalChannelCount as int, s.height as int);
    ProductGrows(lines, 2147483647, s.bytesPerLine as int);
    ProductGrows(1, lines, s.bytesPerLine as int);
    ProductFits(lines, s.bytesPerLine as int, U64_MAX);
  }

  /** Two announcements are of the same job exactly when they differ in nothing but where the file is and where its body
      begins. */
  lemma SameJobMeans(a: SpoolInfo, b: SpoolInfo)
    ensures SameJob(a, b) <==> a == b.(path := a.path, bodyOffset := a.bodyOffset)
  {
  }

  /** The digest covers all that the header records, and the body: two spools hash the same message exactly when they
      agree in both. */
  lemma MessageCoversAll(s: SpoolInfo, t: SpoolInfo, a: seq<Byte>, b: seq<Byte>)
    requires MetadataIsValid(s) && MetadataIsValid(t)
    ensures Encodable(s) && Encodable(t)
    ensures CanonicalMessage(s, a) == CanonicalMessage(t, b) <==> SameHeader(s, t) && a == b
  {
    ValidEncodable(s);
    ValidEncodable(t);
    var h, k := EncodeHeader(s, []).value, EncodeHeader(t, []).value;
    assert (h + a)[..4096] == h && (h + a)[4096..] == a && (k + b)[..4096] == k && (k + b)[4096..] == b;
    if CanonicalMessage(s, a) == CanonicalMessage(t, b) {
      HeaderRoundTrip(s, [], "");
      HeaderRoundTrip(t, [], "");
      assert h == k;
    }
    if SameHeader(s, t) {
      SameFields(s, t);
    }
  }

  /** A raster whose announced size fits in 64 bits is accepted exactly when its format, its channels and its printer
      header are well-formed, its dimensions are positive and the payload has the announced size, at most 512 MiB. */
  lemma AcceptedExactly(info: RasterInfo, payload: seq<Byte>)
    requires Bounded(info)
    ensures Acceptable(info, payload) <==>
              && 0 <= info.format <= 2 && |info.canonicalHeader| == 12
              && (forall c :: c in info.channels ==> 0 <= c <= 15)
              && 1 <= info.height && 1 <= |info.channels| && 1 <= info.bytesPerLine
              && |payload| == info.height as int * |info.channels| * info.bytesPerLine as int <= 536870912
  {
    if 1 <= info.height && 1 <= |info.channels| && 1 <= info.bytesPerLine {
      var lines := info.height as int * |info.channels|;
      ProductGrows(1, info.height as int, |info.channels|);
      ProductGrows(1, info.bytesPerLine as int, lines);
      Unwrapped(lines);
      Unwrapped(lines * info.bytesPerLine as int);
    }
  }

  /** A buffer that announces an empty frame or one of more than 512 MiB is invalid, and nothing is taken off it. */
  lemma FrameRefused<M(!new)>(codec: FrameCodec.MessageCodec<M>, buffer: seq<Byte>)
    requires 4 <= |buffer| && (Big(buffer, 0) == 0 || Big(buffer, 0) > 536870912)
    ensures FrameCodec.TakeFrame(codec, buffer) == (FrameCodec.Invalid, buffer)
  {
    BigIsGet(buffer);
  }

  /** A whole frame that does not begin with the magic and the version is taken off the buffer and is invalid. */
  lemma PreambleRefused<M(!new)>(codec: FrameCodec.MessageCodec<M>, buffer: seq<Byte>)
    requires 4 <= |buffer| && 0 < Big(buffer, 0) <= 536870912 && 4 + Big(buffer, 0) <= |buffer|
    requires Big(buffer, 0) < 6 || buffer[4..10] != [0x50, 0x46, 0x50, 0x53, 0, 1]
    ensures FrameCodec.TakeFrame(codec, buffer) == (FrameCodec.Invalid, buffer[4 + Big(buffer, 0)..])
  {
    var size := Big(buffer, 0);
    BigIsGet(buffer);
    var body := buffer[4..4 + size];
    if 6 <= size {
      SliceOfSlice(buffer, 4, 4 + size, 0, 6);
    }
    BodyRefused(codec, body);
  }

  lemma BigIsGet(buffer: seq<Byte>)
    requires 4 <= |buffer|
    ensures Get32(buffer[..4]) as int == Big(buffer, 0)
  {
    var front := buffer[..4];
    assert front[..2][0] == buffer[0] && front[..2][1] == buffer[1];
    assert front[2..][0] == buffer[2] && front[2..][1] == buffer[3];
  }

  lemma BodyRefused<M(!new)>(codec: FrameCodec.MessageCodec<M>, body: seq<Byte>)
    requires |body| < 6 || body[..6] != [0x50, 0x46, 0x50, 0x53, 0, 1]
    ensures FrameCodec.DecodeBody(codec, body).Invalid?
  {
    if 6 <= |body| {
      BigIsGet(body);
      var version := body[4..][..2];
      assert version[0] == body[4] && version[1] == body[5];
      if Big(body, 0) == 0x50465053 && Get16(version) == 1 {
        PreambleDigits(body);
      }
    }
  }

  lemma PreambleDigits(body: seq<Byte>)
    requires 6 <= |body| && Big(body, 0) == 0x50465053 && body[4] as int * 0x100 + body[5] as int == 1
    ensures body[..6] == [0x50, 0x46, 0x50, 0x53, 0, 1]
  {
    assert body[0] == 0x50 && body[1] == 0x46 && body[2] == 0x50 && body[3] == 0x53;
    assert body[4] == 0 && body[5] == 1;
  }

  /** A raster whose announced size fits in 64 bits serializes exactly when every line it announces is there and has the
      announced length, there is at least one, and they do not exceed 512 MiB. */
  lemma SerializesExactly(r: Raster)
    requires Bounded(r.info)
    ensures Serialized(r).Some? <==>
              && 1 <= r.info.height && 1 <= |r.info.channels| && 1 <= r.info.bytesPerLine
              && r.info.height as int * |r.info.channels| * r.info.bytesPerLine as int <= 536870912
              && forall row: nat, j: nat :: row < r.info.height as int && j < |r.info.channels| ==> Present(r, row, j)
  {
    if 1 <= r.info.height && 1 <= |r.info.channels| && 1 <= r.info.bytesPerLine {
      var lines, n := r.info.height as int * |r.info.channels|, r.info.bytesPerLine as int;
      ProductGrows(1, r.info.height as int, |r.info.channels|);
      ProductGrows(1, n, lines);
      Unwrapped(lines);
      Unwrapped(lines * n);
      PresentIsLine(r);
      if Complete(r) {
        CountLines(r, r.info.height as int);
        ConcatLength(LinesUpTo(r, r.info.height as int), n);
      }
    }
  }

  predicate Present(r: Raster, row: nat, j: nat)
    requires j < |r.info.channels|
  {
    var c := r.info.channels[j];
    0 <= c < |r.lines| && row < |r.lines[c]| && |r.lines[c][row]| == r.info.bytesPerLine as int
  }

  lemma PresentIsLine(r: Raster)
    ensures Complete(r) <==>
              forall row: nat, j: nat :: row < r.info.height as int && j < |r.info.channels| ==> Present(r, row, j)
  {
    if Complete(r) {
      forall row: nat, j: nat | row < r.info.height as int && j < |r.info.channels|
        ensures Present(r, row, j)
      {
        assert HasLine(r, r.info.channels[j], row);
      }
    } else {
      var row: nat, j: nat :|
        row < r.info.height as int && j < |r.info.channels| && !HasLine(r, r.info.channels[j], row);
      assert !Present(r, row, j);
    }
  }

  /** A file verifies exactly when it reads as a spool, its digest is the one its header records, and that is the one
      the caller already holds, if it holds any. */
  lemma VerifiedMeans(sha: Sha256, file: seq<Byte>, path: string, claimed: seq<Byte>)
    ensures Verified(sha, file, path, claimed) <==>
              && ReadMetadata(file, path).Some?
              && var s := ReadMetadata(file, path).value;
                 && Encodable(s) && sha(CanonicalMessage(s, file[4096..])) == s.sha256
                 && (claimed == [] || claimed == s.sha256)
  {
    if ReadMetadata(file, path).Some? {
      ChecksumMeans(sha, file, ReadMetadata(file, path).value, claimed);
    }
  }

  lemma ChecksumMeans(sha: Sha256, file: seq<Byte>, s: SpoolInfo, claimed: seq<Byte>)
    requires MetadataIsValid(s) && |file| == 4096 + s.bodyBytes
    ensures Encodable(s)
    ensures ChecksumHolds(sha, file, s, claimed) <==>
              sha(CanonicalMessage(s, file[4096..])) == s.sha256 && (claimed == [] || claimed == s.sha256)
  {
    ValidEncodable(s);
    DigestIs(sha, file, s);
  }

  lemma DigestIs(sha: Sha256, file: seq<Byte>, s: SpoolInfo)
    requires Encodable(s) && |file| == 4096 + s.bodyBytes
    ensures SpoolChecksum(sha, file, s) == Some(sha(CanonicalMessage(s, file[4096..])))
  {
    assert file[4096..4096 + s.bodyBytes] == file[4096..];
  }
}
