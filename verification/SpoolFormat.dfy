/** The spool file: metadata rules, the fixed 4096-byte header, its checksum and verification. */
module SpoolFormat {
  import opened Arithmetic
  import opened ByteCodec
  import opened RasterTypes

  const SPOOL_MAGIC: UInt32 := 0x50465253
  const SPOOL_VERSION: UInt16 := 1
  const HEADER_BYTES: UInt64 := 4096

  type Header12 = ws: seq<UInt32> | |ws| == 12 witness [0, 0, 0, 0, 0, 0, 0, 0, 0, 0, 0, 0]

  datatype SpoolInfo = SpoolInfo(
    path: string,
    channelOrder: seq<Int32>,
    logicalChannelCount: Int32,
    width: Int32,
    height: Int32,
    xdpi: Int32,
    ydpi: Int32,
    bytesPerLine: Int32,
    format: UInt8,
    canonicalHeader: Header12,
    bodyOffset: UInt64,
    bodyBytes: UInt64,
    sha256: seq<Byte>)

  /** The body size the metadata implies, or 0 when it is unusable or overflows 64 bits. */
  function ExpectedBodyBytes(s: SpoolInfo): UInt64 {
    if s.logicalChannelCount <= 0 || s.height <= 0 || s.bytesPerLine <= 0 then 0
    else
      var lines := s.logicalChannelCount as int * s.height as int;
      ProductFits(lines, s.bytesPerLine, U64_MAX);
      if lines > U64_MAX / s.bytesPerLine as int then 0 else lines * s.bytesPerLine as int
  }

  predicate MetadataIsValid(s: SpoolInfo) {
    && 0 < s.width && 0 < s.height && 0 < s.xdpi && 0 < s.ydpi && 0 < s.bytesPerLine
    && 0 < s.logicalChannelCount <= 16
    && 0 < |s.channelOrder| <= 16
    && LineBytes(s.width) == s.bytesPerLine
    && s.logicalChannelCount as int * s.height as int <= INT_MAX
    && (forall channel :: channel in s.channelOrder ==> 0 <= channel < s.logicalChannelCount)
    && ExpectedBodyBytes(s) != 0
    && (s.bodyBytes == 0 || s.bodyBytes == ExpectedBodyBytes(s))
  }

  /** Number of plane-lines of a spool. */
  function LineCount(s: SpoolInfo): (n: nat)
    requires MetadataIsValid(s)
    ensures 0 < n <= INT_MAX
  {
    assert 0 < s.logicalChannelCount as int * s.height as int;
    s.logicalChannelCount as int * s.height as int
  }

  /** Valid metadata is far from overflow, so the implied size is the exact product. */
  lemma BodySizeExact(s: SpoolInfo)
    requires MetadataIsValid(s)
    ensures ExpectedBodyBytes(s) == LineCount(s) * s.bytesPerLine as int
    ensures HEADER_BYTES + ExpectedBodyBytes(s) < 0x8000_0000_0000_0000
  {
    var lines := LineCount(s);
    assert s.bytesPerLine <= 0x2000_0000;
    ProductGrows(lines, INT_MAX, s.bytesPerLine);
    ProductGrows(1, lines, s.bytesPerLine);
    ProductFits(lines, s.bytesPerLine, U64_MAX);
  }

  function Padding(n: nat): seq<Byte> {
    seq(n, _ => 0)
  }

  /** The header's fields in stream order, in four groups. */
  function HeaderFields(s: SpoolInfo, checksum: seq<Byte>): seq<Byte>
    requires |checksum| < NULL_LENGTH && |s.channelOrder| <= INT_MAX
  {
    PutPreamble() + (PutGeometry(s) + (PutContents(s, checksum) + PutPlanes(s)))
  }

  function PutPreamble(): seq<Byte> {
    Put32(SPOOL_MAGIC) + (Put16(SPOOL_VERSION) + Put64(HEADER_BYTES))
  }

  function PutGeometry(s: SpoolInfo): seq<Byte> {
    PutInt(s.width) + (PutInt(s.height) + (PutInt(s.xdpi) + (PutInt(s.ydpi) + PutInt(s.bytesPerLine))))
  }

  function PutContents(s: SpoolInfo, checksum: seq<Byte>): seq<Byte>
    requires |checksum| < NULL_LENGTH
  {
    Put8(s.format) + (PutInt(s.logicalChannelCount) + (Put64(s.bodyBytes) + PutBlob(checksum)))
  }

  function PutPlanes(s: SpoolInfo): seq<Byte>
    requires |s.channelOrder| <= INT_MAX
  {
    PutWords(s.canonicalHeader) + (PutInt(|s.channelOrder|) + PutInts(s.channelOrder))
  }

  function EncodeHeader(s: SpoolInfo, checksum: seq<Byte>): (header: Option<seq<Byte>>)
    requires |checksum| < NULL_LENGTH && |s.channelOrder| <= INT_MAX
    ensures header.Some? ==> |header.value| == HEADER_BYTES
  {
    var fields := HeaderFields(s, checksum);
    if |fields| > HEADER_BYTES then None else Some(fields + Padding(HEADER_BYTES - |fields|))
  }

  datatype Preamble = Preamble(magic: UInt32, version: UInt16, headerBytes: UInt64)

  const PREAMBLE := Preamble(SPOOL_MAGIC, SPOOL_VERSION, HEADER_BYTES)

  function ReadPreamble(s: seq<Byte>): Option<(Preamble, seq<Byte>)> {
    var (magic, s1) :- Read32(s);
    var (version, s2) :- Read16(s1);
    var (headerBytes, rest) :- Read64(s2);
    Some((Preamble(magic, version, headerBytes), rest))
  }

  datatype Geometry = Geometry(width: Int32, height: Int32, xdpi: Int32, ydpi: Int32, bytesPerLine: Int32)

  function ReadGeometry(s: seq<Byte>): Option<(Geometry, seq<Byte>)> {
    var (width, s1) :- ReadInt(s);
    var (height, s2) :- ReadInt(s1);
    var (xdpi, s3) :- ReadInt(s2);
    var (ydpi, s4) :- ReadInt(s3);
    var (bytesPerLine, rest) :- ReadInt(s4);
    Some((Geometry(width, height, xdpi, ydpi, bytesPerLine), rest))
  }

  datatype Contents = Contents(format: UInt8, logicalChannels: Int32, bodyBytes: UInt64, checksum: seq<Byte>)

  function ReadContents(s: seq<Byte>): Option<(Contents, seq<Byte>)> {
    var (format, s1) :- Read8(s);
    var (logicalChannels, s2) :- ReadInt(s1);
    var (bodyBytes, s3) :- Read64(s2);
    var (checksum, rest) :- ReadBlob(s3);
    Some((Contents(format, logicalChannels, bodyBytes, checksum), rest))
  }

  /** A physical channel count outside 1..16 reads no channels; validation then refuses the header. */
  function ReadPlanes(s: seq<Byte>): Option<(Header12, seq<Int32>)> {
    var (words, s1) :- ReadWords(s, 12);
    var (physicalChannels, s2) :- ReadInt(s1);
    var (order, _) :- if 0 < physicalChannels <= 16 then ReadInts(s2, physicalChannels) else Some(([], s2));
    Some((words, order))
  }

  /** Reads the fields back. Every short read spoils the whole header. */
  function ReadFields(header: seq<Byte>, path: string): (r: Option<(Preamble, SpoolInfo)>)
    ensures r.Some? ==> r.value.1.path == path && r.value.1.bodyOffset == HEADER_BYTES
  {
    var (preamble, s1) :- ReadPreamble(header);
    var (g, s2) :- ReadGeometry(s1);
    var (c, s3) :- ReadContents(s2);
    var (words, order) :- ReadPlanes(s3);
    Some((preamble,
          SpoolInfo(path, order, c.logicalChannels, g.width, g.height, g.xdpi, g.ydpi, g.bytesPerLine, c.format,
                    words, HEADER_BYTES, c.bodyBytes, c.checksum)))
  }

  function DecodeHeader(header: seq<Byte>, path: string): (r: Option<SpoolInfo>)
    ensures r.Some? ==> MetadataIsValid(r.value) && r.value.path == path && r.value.bodyOffset == HEADER_BYTES
  {
    if |header| != HEADER_BYTES then None
    else
      var (preamble, decoded) :- ReadFields(header, path);
      if preamble == PREAMBLE && MetadataIsValid(decoded)
      then Some(decoded) else None
  }

  lemma PreambleBack(rest: seq<Byte>)
    ensures ReadPreamble(PutPreamble() + rest) == Some((PREAMBLE, rest))
  {
    Read32Back(SPOOL_MAGIC, Put16(SPOOL_VERSION) + (Put64(HEADER_BYTES) + rest));
    Read16Back(SPOOL_VERSION, Put64(HEADER_BYTES) + rest);
    Read64Back(HEADER_BYTES, rest);
    assert PutPreamble() + rest ==
           Put32(SPOOL_MAGIC) + (Put16(SPOOL_VERSION) + (Put64(HEADER_BYTES) + rest));
  }

  lemma GeometryBack(s: SpoolInfo, rest: seq<Byte>)
    ensures ReadGeometry(PutGeometry(s) + rest) ==
            Some((Geometry(s.width, s.height, s.xdpi, s.ydpi, s.bytesPerLine), rest))
  {
    var r4 := PutInt(s.bytesPerLine) + rest;
    var r3 := PutInt(s.ydpi) + r4;
    var r2 := PutInt(s.xdpi) + r3;
    var r1 := PutInt(s.height) + r2;
    ReadIntBack(s.width, r1);
    ReadIntBack(s.height, r2);
    ReadIntBack(s.xdpi, r3);
    ReadIntBack(s.ydpi, r4);
    ReadIntBack(s.bytesPerLine, rest);
    assert PutGeometry(s) + rest == PutInt(s.width) + r1;
  }

  lemma ContentsBack(s: SpoolInfo, checksum: seq<Byte>, rest: seq<Byte>)
    requires |checksum| < NULL_LENGTH
    ensures ReadContents(PutContents(s, checksum) + rest) ==
            Some((Contents(s.format, s.logicalChannelCount, s.bodyBytes, checksum), rest))
  {
    var r3 := PutBlob(checksum) + rest;
    var r2 := Put64(s.bodyBytes) + r3;
    var r1 := PutInt(s.logicalChannelCount) + r2;
    Read8Back(s.format, r1);
    ReadIntBack(s.logicalChannelCount, r2);
    Read64Back(s.bodyBytes, r3);
    ReadBlobBack(checksum, rest);
    assert PutContents(s, checksum) + rest == Put8(s.format) + r1;
  }

  lemma PlanesBack(s: SpoolInfo, rest: seq<Byte>)
    requires 0 < |s.channelOrder| <= 16
    ensures ReadPlanes(PutPlanes(s) + rest) == Some((s.canonicalHeader, s.channelOrder))
  {
    var r2 := PutInts(s.channelOrder) + rest;
    var r1 := PutInt(|s.channelOrder|) + r2;
    ReadWordsBack(s.canonicalHeader, 12, r1);
    ReadIntBack(|s.channelOrder|, r2);
    ReadIntsBack(s.channelOrder, |s.channelOrder|, rest);
    assert PutPlanes(s) + rest == PutWords(s.canonicalHeader) + r1;
  }

  lemma FieldsReadBack(s: SpoolInfo, checksum: seq<Byte>, path: string, tail: seq<Byte>)
    requires MetadataIsValid(s) && |checksum| < NULL_LENGTH
    ensures ReadFields(HeaderFields(s, checksum) + tail, path) ==
            Some((PREAMBLE,
                  s.(path := path, bodyOffset := HEADER_BYTES, sha256 := checksum)))
  {
    var r3 := PutPlanes(s) + tail;
    var r2 := PutContents(s, checksum) + r3;
    var r1 := PutGeometry(s) + r2;
    assert HeaderFields(s, checksum) + tail == PutPreamble() + r1;
    PreambleBack(r1);
    GeometryBack(s, r2);
    ContentsBack(s, checksum, r3);
    PlanesBack(s, tail);
  }

  lemma FieldsFit(s: SpoolInfo, checksum: seq<Byte>)
    requires |s.channelOrder| <= 16 && |checksum| <= 32
    ensures |HeaderFields(s, checksum)| <= 199
  {
  }

  /** Header round trip: what is encoded is what is decoded, for every valid spool. */
  lemma HeaderRoundTrip(s: SpoolInfo, checksum: seq<Byte>, path: string)
    requires MetadataIsValid(s) && |checksum| <= 32
    ensures EncodeHeader(s, checksum).Some?
    ensures DecodeHeader(EncodeHeader(s, checksum).value, path) ==
            Some(s.(path := path, bodyOffset := HEADER_BYTES, sha256 := checksum))
  {
    var stamped := s.(path := path, bodyOffset := HEADER_BYTES, sha256 := checksum);
    FieldsFit(s, checksum);
    assert ReadFields(EncodeHeader(s, checksum).value, path) ==
           Some((PREAMBLE, stamped)) by {
      FieldsReadBack(s, checksum, path, Padding(HEADER_BYTES - |HeaderFields(s, checksum)|));
    }
    StampedValid(s, stamped);
  }

  lemma StampedValid(s: SpoolInfo, stamped: SpoolInfo)
    requires MetadataIsValid(s)
    requires stamped == s.(path := stamped.path, bodyOffset := stamped.bodyOffset, sha256 := stamped.sha256)
    ensures MetadataIsValid(stamped) && ExpectedBodyBytes(stamped) == ExpectedBodyBytes(s)
  {
  }

  type Digest = d: seq<Byte> | |d| == 32 witness seq(32, _ => 0)

  /** The digest is an arbitrary function to 32 bytes: nothing is assumed about collisions. */
  type Sha256 = seq<Byte> -> Digest

  predicate Encodable(s: SpoolInfo) {
    |s.channelOrder| <= INT_MAX && EncodeHeader(s, []).Some?
  }

  /** What is hashed: the header with an empty checksum field, then the body. */
  function CanonicalMessage(s: SpoolInfo, body: seq<Byte>): seq<Byte>
    requires Encodable(s)
  {
    EncodeHeader(s, []).value + body
  }

  /** Equal in everything the header records, except the checksum field. */
  predicate SameHeader(a: SpoolInfo, b: SpoolInfo) {
    && a.width == b.width && a.height == b.height && a.xdpi == b.xdpi && a.ydpi == b.ydpi
    && a.bytesPerLine == b.bytesPerLine && a.format == b.format && a.logicalChannelCount == b.logicalChannelCount
    && a.bodyBytes == b.bodyBytes && a.canonicalHeader == b.canonicalHeader && a.channelOrder == b.channelOrder
  }

  lemma SameMessage(a: SpoolInfo, b: SpoolInfo, body: seq<Byte>)
    requires SameHeader(a, b) && Encodable(a)
    ensures Encodable(b) && CanonicalMessage(a, body) == CanonicalMessage(b, body)
  {
    SameFields(a, b);
  }

  lemma SameFields(a: SpoolInfo, b: SpoolInfo)
    requires SameHeader(a, b) && |a.channelOrder| <= INT_MAX
    ensures HeaderFields(a, []) == HeaderFields(b, [])
  {
    assert PutGeometry(a) == PutGeometry(b);
    assert PutContents(a, []) == PutContents(b, []);
    assert PutPlanes(a) == PutPlanes(b);
  }

  lemma ValidEncodable(s: SpoolInfo)
    requires MetadataIsValid(s)
    ensures Encodable(s)
  {
    FieldsFit(s, []);
  }

  function ReadMetadata(file: seq<Byte>, path: string): (r: Option<SpoolInfo>)
    ensures r.Some? ==> MetadataIsValid(r.value) && |file| == HEADER_BYTES + r.value.bodyBytes
  {
    var info :- DecodeHeader(if |file| < HEADER_BYTES then file else file[..HEADER_BYTES], path);
    if |file| == HEADER_BYTES + info.bodyBytes then Some(info) else None
  }

  function SpoolChecksum(sha: Sha256, file: seq<Byte>, s: SpoolInfo): Option<Digest> {
    if !Encodable(s) || (0 < s.bodyBytes && |file| < HEADER_BYTES + s.bodyBytes) then None
    else Some(sha(CanonicalMessage(s, if s.bodyBytes == 0 then [] else file[HEADER_BYTES..HEADER_BYTES + s.bodyBytes])))
  }

  /** The stored checksum, and the one the caller already holds if any, are those of the contents. */
  predicate ChecksumHolds(sha: Sha256, file: seq<Byte>, disk: SpoolInfo, claimed: seq<Byte>) {
    var checksum := SpoolChecksum(sha, file, disk);
    checksum.Some? && checksum.value == disk.sha256 && (claimed == [] || checksum.value == claimed)
  }

  /** Verification of a file on disk. */
  predicate Verified(sha: Sha256, file: seq<Byte>, path: string, claimed: seq<Byte>) {
    ReadMetadata(file, path).Some? && ChecksumHolds(sha, file, ReadMetadata(file, path).value, claimed)
  }

  /** The bytes of a finalized spool. */
  function FinalFile(sha: Sha256, s: SpoolInfo, body: seq<Byte>): seq<Byte>
    requires MetadataIsValid(s)
  {
    ValidEncodable(s);
    var checksum := sha(CanonicalMessage(s, body));
    FieldsFit(s, checksum);
    EncodeHeader(s, checksum).value + body
  }

  function Finalized(sha: Sha256, s: SpoolInfo, body: seq<Byte>, path: string): SpoolInfo
    requires MetadataIsValid(s)
  {
    ValidEncodable(s);
    s.(path := path, bodyOffset := HEADER_BYTES, sha256 := sha(CanonicalMessage(s, body)))
  }

  lemma FinalFileReads(sha: Sha256, s: SpoolInfo, body: seq<Byte>, path: string)
    requires MetadataIsValid(s) && s.bodyBytes == |body|
    ensures ReadMetadata(FinalFile(sha, s, body), path) == Some(Finalized(sha, s, body, path))
    ensures |FinalFile(sha, s, body)| == HEADER_BYTES + |body| && FinalFile(sha, s, body)[HEADER_BYTES..] == body
  {
    ValidEncodable(s);
    var checksum := sha(CanonicalMessage(s, body));
    HeaderRoundTrip(s, checksum, path);
    assert FinalFile(sha, s, body)[..HEADER_BYTES] == EncodeHeader(s, checksum).value;
  }

  lemma FinalChecksumHolds(sha: Sha256, s: SpoolInfo, body: seq<Byte>, path: string, file: seq<Byte>)
    requires MetadataIsValid(s) && s.bodyBytes == |body|
    requires |file| == HEADER_BYTES + |body| && file[HEADER_BYTES..] == body
    ensures ChecksumHolds(sha, file, Finalized(sha, s, body, path), Finalized(sha, s, body, path).sha256)
  {
    ValidEncodable(s);
    SameMessage(s, Finalized(sha, s, body, path), body);
    assert file[HEADER_BYTES..HEADER_BYTES + s.bodyBytes] == file[HEADER_BYTES..];
  }

  /** A finalized file reads back as the metadata it was finalized with and verifies. */
  lemma FinalFileVerifies(sha: Sha256, s: SpoolInfo, body: seq<Byte>, path: string)
    requires MetadataIsValid(s) && s.bodyBytes == |body|
    ensures ReadMetadata(FinalFile(sha, s, body), path) == Some(Finalized(sha, s, body, path))
    ensures Verified(sha, FinalFile(sha, s, body), path, Finalized(sha, s, body, path).sha256)
  {
    FinalFileReads(sha, s, body, path);
    FinalChecksumHolds(sha, s, body, path, FinalFile(sha, s, body));
  }

  /** The metadata fields a commit compares. */
  predicate SameJob(a: SpoolInfo, b: SpoolInfo) {
    && a.width == b.width && a.height == b.height && a.xdpi == b.xdpi && a.ydpi == b.ydpi
    && a.bytesPerLine == b.bytesPerLine && a.logicalChannelCount == b.logicalChannelCount
    && a.channelOrder == b.channelOrder && a.format == b.format && a.canonicalHeader == b.canonicalHeader
    && a.bodyBytes == b.bodyBytes && a.sha256 == b.sha256
  }

  ghost predicate Collision(sha: Sha256, a: seq<Byte>, b: seq<Byte>) {
    a != b && sha(a) == sha(b)
  }

  lemma MessageInjective(s: SpoolInfo, a: seq<Byte>, b: seq<Byte>)
    requires Encodable(s)
    ensures CanonicalMessage(s, a) == CanonicalMessage(s, b) <==> a == b
  {
    var h := EncodeHeader(s, []).value;
    assert (h + a)[|h|..] == a && (h + b)[|h|..] == b;
  }

  lemma DigestOfContents(sha: Sha256, file: seq<Byte>, disk: SpoolInfo)
    requires |file| == HEADER_BYTES + disk.bodyBytes && ChecksumHolds(sha, file, disk, disk.sha256)
    ensures Encodable(disk) && sha(CanonicalMessage(disk, file[HEADER_BYTES..])) == disk.sha256
  {
    assert file[HEADER_BYTES..HEADER_BYTES + disk.bodyBytes] == file[HEADER_BYTES..];
  }

  /** A file whose checksum holds and that carries the metadata of a finalized spool carries its body
      too, or else exhibits two different messages with one digest. */
  lemma VerifiedBody(sha: Sha256, s: SpoolInfo, body: seq<Byte>, path: string, file: seq<Byte>, disk: SpoolInfo)
    requires MetadataIsValid(s) && s.bodyBytes == |body|
    requires |file| == HEADER_BYTES + disk.bodyBytes && ChecksumHolds(sha, file, disk, disk.sha256)
    requires SameJob(disk, Finalized(sha, s, body, path))
    ensures Encodable(s) && |file| == HEADER_BYTES + |body|
    ensures file[HEADER_BYTES..] == body ||
            Collision(sha, CanonicalMessage(s, file[HEADER_BYTES..]), CanonicalMessage(s, body))
  {
    DigestOfContents(sha, file, disk);
    ValidEncodable(s);
    SameMessage(s, disk, file[HEADER_BYTES..]);
    MessageInjective(s, file[HEADER_BYTES..], body);
  }
}
