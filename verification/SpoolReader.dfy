/** The spool reader: plane-lines at computed offsets, and the body in chunks. */
module SpoolReader {
  import opened Arithmetic
  import opened RasterTypes
  import opened ByteCodec
  import opened SpoolFormat
  import opened SpoolBody
  import opened Storage

  /** Where a plane-line starts, in the unsigned 64-bit arithmetic of the reader. */
  function LineOffset(s: SpoolInfo, channel: nat, row: nat): UInt64 {
    var index := Wrapped(Wrapped(channel * Wrapped(s.height as int)) + row);
    Wrapped(s.bodyOffset as int + Wrapped(index * Wrapped(s.bytesPerLine as int)))
  }

  /** The exact position of a plane-line. */
  function LineStart(s: SpoolInfo, channel: nat, row: nat): int {
    HEADER_BYTES + (channel * s.height as int + row) * s.bytesPerLine as int
  }

  /** No step of the offset wraps: it is the exact position of line channel * height + row. */
  lemma OffsetExact(s: SpoolInfo, channel: nat, row: nat)
    requires MetadataIsValid(s) && s.bodyOffset == HEADER_BYTES
    requires channel < s.logicalChannelCount as int && row < s.height as int
    ensures 0 <= channel * s.height as int + row < LineCount(s)
    ensures LineOffset(s, channel, row) == LineStart(s, channel, row)
    ensures LineOffset(s, channel, row) as int + s.bytesPerLine as int <= HEADER_BYTES + ExpectedBodyBytes(s)
    ensures HEADER_BYTES + ExpectedBodyBytes(s) < 0x8000_0000_0000_0000
  {
    var height, lineBytes := s.height as int, s.bytesPerLine as int;
    CellInPlane(row, channel, height, s.logicalChannelCount as int);
    BodySizeExact(s);
    LineFits(channel * height + row, LineCount(s), lineBytes);
    Unwrapped(height);
    Unwrapped(lineBytes);
    Unwrapped(channel * height);
    Unwrapped(channel * height + row);
    Unwrapped((channel * height + row) * lineBytes);
    Unwrapped(HEADER_BYTES as int + (channel * height + row) * lineBytes);
  }

  /** Every plane-line of the spool lies inside the file. */
  ghost predicate LinesInside(s: SpoolInfo)
    requires MetadataIsValid(s)
  {
    forall channel: nat, row: nat :: channel < s.logicalChannelCount as int && row < s.height as int ==>
      LineOffset(s, channel, row) as int + s.bytesPerLine as int <= HEADER_BYTES + s.bodyBytes as int
  }

  /** Accepted metadata keeps every line inside the file unless it declares an empty body, which
      validation lets through. */
  lemma LinesInsideUnlessEmpty(s: SpoolInfo)
    requires MetadataIsValid(s) && s.bodyOffset == HEADER_BYTES
    ensures LinesInside(s) <==> s.bodyBytes != 0
  {
    if s.bodyBytes == 0 {
      OffsetExact(s, 0, 0);
    } else {
      forall channel: nat, row: nat | channel < s.logicalChannelCount as int && row < s.height as int
        ensures LineOffset(s, channel, row) as int + s.bytesPerLine as int <= HEADER_BYTES + s.bodyBytes as int
      {
        OffsetExact(s, channel, row);
      }
    }
  }

  /** A header that is accepted although the file it describes holds none of its lines. */
  lemma EmptyBodyAccepted()
    ensures exists s: SpoolInfo :: AcceptedWithoutBody(s) && !LinesInside(s)
  {
    var s := SpoolInfo("", [0], 1, 1, 1, 720, 720, 4, 1, [0, 0, 0, 0, 0, 0, 0, 0, 0, 0, 0, 0], HEADER_BYTES, 0, []);
    assert ExpectedBodyBytes(s) == 4;
    assert forall channel :: channel in s.channelOrder ==> channel == 0;
    LinesInsideUnlessEmpty(s);
    HeaderAloneReads(s);
  }

  /** Its header alone is a spool file that reads back. */
  ghost predicate AcceptedWithoutBody(s: SpoolInfo) {
    && MetadataIsValid(s) && s.bodyOffset == HEADER_BYTES
    && EncodeHeader(s, []).Some? && ReadMetadata(EncodeHeader(s, []).value, s.path) == Some(s)
  }

  lemma HeaderAloneReads(s: SpoolInfo)
    requires MetadataIsValid(s) && s.bodyOffset == HEADER_BYTES && s.bodyBytes == 0 && s.sha256 == []
    ensures AcceptedWithoutBody(s)
  {
    HeaderRoundTrip(s, [], s.path);
    var header := EncodeHeader(s, []).value;
    assert header[..HEADER_BYTES] == header;
  }

  /** The chunk of at most `limit` bytes at an offset into the body. */
  function ChunkAt(body: seq<Byte>, offset: nat, limit: nat): seq<Byte>
    requires offset <= |body|
  {
    body[offset..offset + Min(|body| - offset, limit)]
  }

  /** What reading chunk after chunk collects, for chunk limits that may change from call to call. */
  function Collected(body: seq<Byte>, offset: nat, limits: seq<nat>): seq<Byte>
    requires offset <= |body|
    decreases |limits|
  {
    if limits == [] then []
    else
      var chunk := ChunkAt(body, offset, limits[0]);
      chunk + Collected(body, offset + |chunk|, limits[1..])
  }

  function Total(limits: seq<nat>): nat {
    if limits == [] then 0 else limits[0] + Total(limits[1..])
  }

  /** Chunks concatenate to the body as far as their limits reach, whatever the limits are. */
  lemma {:induction false} ChunksJoin(body: seq<Byte>, offset: nat, limits: seq<nat>)
    requires offset <= |body|
    ensures Collected(body, offset, limits) == body[offset..offset + Min(|body| - offset, Total(limits))]
    decreases |limits|
  {
    if limits != [] {
      ChunksJoin(body, offset + |ChunkAt(body, offset, limits[0])|, limits[1..]);
    }
  }

  /** The line of a complete spool file. */
  function StoredLine(s: SpoolInfo, file: seq<Byte>, channel: nat, row: nat): (line: seq<Byte>)
    requires MetadataIsValid(s) && |file| == HEADER_BYTES + ExpectedBodyBytes(s)
    requires channel < s.logicalChannelCount as int && row < s.height as int
    ensures |line| == s.bytesPerLine
  {
    BodySizeExact(s);
    CellInPlane(row, channel, s.height as int, s.logicalChannelCount as int);
    LineFits(channel * s.height as int + row, LineCount(s), s.bytesPerLine);
    LineOf(file[HEADER_BYTES..], s.bytesPerLine, channel * s.height as int + row)
  }

  lemma StartFindsLine(s: SpoolInfo, file: seq<Byte>, channel: nat, row: nat)
    requires MetadataIsValid(s) && |file| == HEADER_BYTES + ExpectedBodyBytes(s)
    requires channel < s.logicalChannelCount as int && row < s.height as int
    ensures 0 <= LineStart(s, channel, row) && LineStart(s, channel, row) + s.bytesPerLine as int <= |file|
    ensures file[LineStart(s, channel, row)..LineStart(s, channel, row) + s.bytesPerLine as int] ==
            StoredLine(s, file, channel, row)
  {
    BodySizeExact(s);
    CellInPlane(row, channel, s.height as int, s.logicalChannelCount as int);
    LineFits(channel * s.height as int + row, LineCount(s), s.bytesPerLine);
    var at := (channel * s.height as int + row) * s.bytesPerLine as int;
    assert file[HEADER_BYTES..] == file[HEADER_BYTES..|file|];
    SliceOfSlice(file, HEADER_BYTES, |file|, at, at + s.bytesPerLine as int);
  }

  /** Position `at` is where the line is read from, unless the body is empty and the read falls short. */
  ghost predicate PositionOf(s: SpoolInfo, file: seq<Byte>, channel: nat, row: nat, at: nat)
    requires MetadataIsValid(s) && |file| == HEADER_BYTES + s.bodyBytes
    requires channel < s.logicalChannelCount as int && row < s.height as int
  {
    if s.bodyBytes == 0 then |file| < at + s.bytesPerLine as int
    else
      && at + s.bytesPerLine as int <= |file|
      && file[at..at + s.bytesPerLine as int] == StoredLine(s, file, channel, row)
  }

  lemma OffsetIsPosition(s: SpoolInfo, file: seq<Byte>, channel: nat, row: nat)
    requires MetadataIsValid(s) && s.bodyOffset == HEADER_BYTES && |file| == HEADER_BYTES + s.bodyBytes
    requires channel < s.logicalChannelCount as int && row < s.height as int
    ensures PositionOf(s, file, channel, row, LineOffset(s, channel, row))
  {
    OffsetExact(s, channel, row);
    StartIsPosition(s, file, channel, row, LineStart(s, channel, row));
  }

  lemma StartIsPosition(s: SpoolInfo, file: seq<Byte>, channel: nat, row: nat, at: int)
    requires MetadataIsValid(s) && |file| == HEADER_BYTES + s.bodyBytes
    requires channel < s.logicalChannelCount as int && row < s.height as int
    requires at == LineStart(s, channel, row)
    ensures 0 <= at && PositionOf(s, file, channel, row, at)
  {
    StartAfterHeader(s, channel, row);
    if s.bodyBytes != 0 {
      StartFindsLine(s, file, channel, row);
    }
  }

  lemma StartAfterHeader(s: SpoolInfo, channel: nat, row: nat)
    requires MetadataIsValid(s)
    ensures HEADER_BYTES <= LineStart(s, channel, row)
  {
    ProductGrows(0, channel, s.height as int);
    ProductGrows(0, channel * s.height as int + row, s.bytesPerLine as int);
  }

  class Reader {
    const disk: Disk
    var path: string
    var metadata: SpoolInfo
    var isOpen: bool

    constructor (disk: Disk)
      ensures this.disk == disk && !isOpen
    {
      this.disk, path, isOpen := disk, "", false;
      metadata := SpoolInfo("", [], 0, 0, 0, 0, 0, 0, 0, [0, 0, 0, 0, 0, 0, 0, 0, 0, 0, 0, 0], 0, 0, []);
    }

    /** What opening a file establishes. */
    ghost predicate Reading(file: seq<Byte>)
      reads this, disk
    {
      && isOpen && path in disk.files && disk.files[path] == file
      && MetadataIsValid(metadata) && metadata.bodyOffset == HEADER_BYTES && |file| == HEADER_BYTES + metadata.bodyBytes
    }

    method Open(path: string, verifyChecksum: bool, sha: Sha256) returns (ok: bool)
      modifies this, disk`faults
      ensures old(disk.faults) <= disk.faults
      ensures ok ==> path in disk.files && Reading(disk.files[path])
      ensures ok ==> ReadMetadata(disk.files[path], path) == Some(metadata)
      ensures ok && verifyChecksum ==> Verified(sha, disk.files[path], path, metadata.sha256)
      ensures !ok ==>
                old(disk.faults) < disk.faults || path !in disk.files || ReadMetadata(disk.files[path], path).None? ||
                      (verifyChecksum &&
                        !Verified(sha, disk.files[path], path, ReadMetadata(disk.files[path], path).value.sha256))
      ensures !ok ==> !isOpen
    {
      isOpen, this.path := false, path;
      ok := disk.Succeeds();
      if !ok || path !in disk.files {
        return false;
      }
      var decoded := ReadMetadata(disk.files[path], path);
      if decoded.None? {
        return false;
      }
      metadata := decoded.value;
      if verifyChecksum && !Verified(sha, disk.files[path], path, metadata.sha256) {
        return false;
      }
      ok := disk.Succeeds();
      isOpen := ok;
    }

    /** Reads one plane-line: the bytes of that line of the body, or nothing. */
    method ReadLine(channel: int, row: int, ghost file: seq<Byte>) returns (line: Option<seq<Byte>>)
      requires Reading(file)
      modifies disk`faults
      ensures Reading(file) && old(disk.faults) <= disk.faults
      ensures line.Some? ==>
                && 0 <= channel < metadata.logicalChannelCount && 0 <= row < metadata.height && metadata.bodyBytes != 0
                && line.value == StoredLine(metadata, file, channel, row)
      ensures line.None? ==> old(disk.faults) < disk.faults || !(0 <= channel < metadata.logicalChannelCount) ||
                             !(0 <= row < metadata.height) || metadata.bodyBytes == 0
    {
      if channel < 0 || channel >= metadata.logicalChannelCount || row < 0 || row >= metadata.height {
        return None;
      }
      var at := Seek(channel, row, file);
      line := disk.Read(path, at, metadata.bytesPerLine);
    }

    /** Positions the file at a plane-line. */
    method Seek(channel: nat, row: nat, ghost file: seq<Byte>) returns (at: nat)
      requires Reading(file) && channel < metadata.logicalChannelCount as int && row < metadata.height as int
      ensures PositionOf(metadata, file, channel, row, at)
    {
      OffsetIsPosition(metadata, file, channel, row);
      at := LineOffset(metadata, channel, row);
    }

    method ReadBodyChunk(offset: UInt64, maximumBytes: int, ghost file: seq<Byte>) returns (data: Option<seq<Byte>>)
      requires Reading(file)
      modifies disk`faults
      ensures Reading(file) && old(disk.faults) <= disk.faults
      ensures data.Some? ==>
                && 0 < maximumBytes && offset <= metadata.bodyBytes
                && data.value == ChunkAt(file[HEADER_BYTES..], offset, maximumBytes)
      ensures data.None? ==> old(disk.faults) < disk.faults || maximumBytes <= 0 || metadata.bodyBytes < offset
    {
      if maximumBytes <= 0 || offset > metadata.bodyBytes {
        return None;
      }
      var size := Min(metadata.bodyBytes - offset, maximumBytes);
      data := disk.Read(path, metadata.bodyOffset + offset, size);
      assert file[HEADER_BYTES..][offset..offset + size] == file[HEADER_BYTES + offset..HEADER_BYTES + offset + size];
    }
  }
}
