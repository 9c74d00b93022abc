/** The spool writer: random-access plane-lines, a written-lines bitset and a two-name lifecycle. */
module SpoolWriter {
  import opened RasterTypes
  import opened SpoolFormat
  import opened SpoolBody
  import opened Storage
  import opened Cancellation

  const PARTIAL_SUFFIX := ".pfrs.partial"
  const FINAL_SUFFIX := ".pfrs"

  function PartialPath(directory: string, token: string): string {
    directory + "/printflow-" + token + PARTIAL_SUFFIX
  }

  function FinalPath(directory: string, token: string): string {
    directory + "/printflow-" + token + FINAL_SUFFIX
  }

  /** The metadata the writer works with once created. */
  function Prepared(metadata: SpoolInfo): SpoolInfo {
    metadata.(bodyOffset := HEADER_BYTES, bodyBytes := ExpectedBodyBytes(metadata), sha256 := [])
  }

  /** A spool nothing has been written to yet: the header without checksum and a body of zeros. */
  function FreshFile(s: SpoolInfo): seq<Byte>
    requires MetadataIsValid(s)
  {
    ValidEncodable(s);
    EncodeHeader(s, []).value + seq(s.bodyBytes, _ => 0)
  }

  ghost predicate HoldsFresh(files: map<string, seq<Byte>>, path: string, s: SpoolInfo) {
    MetadataIsValid(s) && path in files && files[path] == FreshFile(s)
  }

  class Writer {
    const disk: Disk
    const sha: Sha256
    var metadata: SpoolInfo
    var partialPath: string
    var finalPath: string
    var isOpen: bool
    var linesWritten: seq<bool>
    var finalized: bool
    /** Every successful line write, in order. */
    ghost var log: seq<LineWrite>
    /** No line write has failed half-way. */
    ghost var intact: bool
    /** The files there were when the partial file was created. */
    ghost var foreign: map<string, seq<Byte>>

    ghost predicate Valid()
      reads this, disk
    {
      isOpen ==>
        && MetadataIsValid(metadata) && metadata.bodyOffset == HEADER_BYTES
        && metadata.bodyBytes == ExpectedBodyBytes(metadata) && metadata.sha256 == []
        && partialPath != "" && finalPath != "" && partialPath != finalPath
        && partialPath in disk.files && |disk.files[partialPath]| == HEADER_BYTES + metadata.bodyBytes
        && SameElsewhere(foreign, disk.files, {partialPath})
        && |linesWritten| == LineCount(metadata)
        && WritesInRange(log, LineCount(metadata), metadata.bytesPerLine)
        && (forall k :: 0 <= k < |linesWritten| ==> (linesWritten[k] <==> Names(log, k)))
        && (intact ==> disk.files[partialPath][HEADER_BYTES..] == Body(metadata, log))
    }

    constructor (disk: Disk, sha: Sha256)
      ensures Valid() && this.disk == disk && this.sha == sha
      ensures !isOpen && !finalized && partialPath == "" && log == []
    {
      this.disk, this.sha := disk, sha;
      metadata := SpoolInfo("", [], 0, 0, 0, 0, 0, 0, 0, [0, 0, 0, 0, 0, 0, 0, 0, 0, 0, 0, 0], 0, 0, []);
      partialPath, finalPath, isOpen, linesWritten, finalized := "", "", false, [], false;
      log, intact, foreign := [], true, disk.files;
    }

    /** Drops the unfinished file, if any. */
    method Cancel()
      requires Valid()
      modifies this, disk
      ensures Valid() && !isOpen && !finalized && partialPath == "" && log == [] && linesWritten == [] && intact
      ensures disk.files ==
              (if old(partialPath) == "" then old(disk.files) else old(disk.files) - {old(partialPath)}) ||
              (old(disk.faults) < disk.faults && disk.files == old(disk.files))
      ensures old(disk.faults) <= disk.faults
    {
      isOpen := false;
      if partialPath != "" {
        disk.Remove(partialPath);
      }
      partialPath, finalPath, linesWritten, finalized := "", "", [], false;
      log, intact := [], true;
    }

    /** Drops any unfinished file and starts a new one. */
    method Create(directory: string, token: string, metadata: SpoolInfo) returns (ok: bool)
      requires Valid()
      modifies this, disk
      ensures Valid() && old(disk.faults) <= disk.faults
      ensures SameElsewhere(old(disk.files), disk.files, {old(partialPath), PartialPath(directory, token)})
      ensures old(partialPath) == "" ==> SameElsewhere(old(disk.files), disk.files, {PartialPath(directory, token)})
      ensures ok ==> isOpen && intact && !finalized && log == [] && this.metadata == Prepared(metadata)
      ensures ok ==> partialPath == PartialPath(directory, token) && finalPath == FinalPath(directory, token)
      ensures ok && old(partialPath) == "" ==> foreign == old(disk.files)
      ensures ok ==> HoldsFresh(disk.files, partialPath, Prepared(metadata))
      ensures !ok ==>
                && !isOpen && !finalized && partialPath == ""
                && (!MetadataIsValid(Prepared(metadata)) || old(disk.faults) < disk.faults)
    {
      Cancel();
      ok := Start(directory, token, Prepared(metadata));
    }

    method Start(directory: string, token: string, prepared: SpoolInfo) returns (ok: bool)
      requires !isOpen && !finalized && partialPath == "" && log == [] && linesWritten == [] && intact
      requires prepared == Prepared(prepared)
      modifies this, disk
      ensures Valid() && old(disk.faults) <= disk.faults
      ensures SameElsewhere(old(disk.files), disk.files, {PartialPath(directory, token)})
      ensures ok ==> isOpen && intact && !finalized && log == [] && metadata == prepared && foreign == old(disk.files)
      ensures ok ==> partialPath == PartialPath(directory, token) && finalPath == FinalPath(directory, token)
      ensures ok ==> HoldsFresh(disk.files, partialPath, metadata)
      ensures !ok ==>
                && !isOpen && !finalized && partialPath == ""
                && (!MetadataIsValid(prepared) || old(disk.faults) < disk.faults)
    {
      metadata := prepared;
      if !MetadataIsValid(metadata) {
        return false;
      }
      ok := disk.Succeeds();
      if !ok {
        return;
      }
      partialPath, finalPath, foreign := PartialPath(directory, token), FinalPath(directory, token), disk.files;
      ok := Allocate(disk, partialPath, metadata);
      if !ok {
        Cancel();
        return;
      }
      linesWritten := seq(LineCount(metadata), _ => false);
      isOpen := true;
    }

    function LineIndex(channel: int, row: int): int
      reads this
    {
      channel * metadata.height as int + row
    }

    method WriteLine(channel: int, row: int, bytes: seq<Byte>) returns (ok: bool)
      requires Valid()
      modifies this`linesWritten, this`log, this`intact, disk
      ensures Valid() && old(disk.faults) <= disk.faults
      ensures ok ==> isOpen && 0 <= channel < metadata.logicalChannelCount && 0 <= row < metadata.height
      ensures ok ==> |bytes| == metadata.bytesPerLine && 0 <= LineIndex(channel, row) < LineCount(metadata)
      ensures ok ==> log == old(log) + [LineWrite(LineIndex(channel, row), bytes)] && intact == old(intact)
      ensures !ok ==> log == old(log)
      ensures !ok ==> old(disk.faults) < disk.faults || !isOpen || |bytes| != metadata.bytesPerLine ||
                      !(0 <= channel < metadata.logicalChannelCount) || !(0 <= row < metadata.height)
    {
      if !isOpen || channel < 0 || channel >= metadata.logicalChannelCount || row < 0 || row >= metadata.height
         || |bytes| != metadata.bytesPerLine {
        return false;
      }
      var k := LineIndex(channel, row);
      CellInPlane(row, channel, metadata.height, metadata.logicalChannelCount);
      BodySizeExact(metadata);
      LineFits(k, LineCount(metadata), metadata.bytesPerLine);
      ghost var before := disk.files[partialPath];
      ok := disk.WriteAt(partialPath, HEADER_BYTES + k * metadata.bytesPerLine as int, bytes);
      if !ok {
        intact := false;
        return;
      }
      BodyExtends(metadata, log, LineWrite(k, bytes), before);
      NamesExtends(log, LineWrite(k, bytes));
      log := log + [LineWrite(k, bytes)];
      linesWritten := linesWritten[k := true];
    }

    method Finalize(cancel: CancelFlag) returns (result: Option<SpoolInfo>)
      requires Valid()
      modifies this, disk, cancel`raises
      ensures Valid() && old(disk.faults) <= disk.faults && old(cancel.raises) <= cancel.raises
      ensures metadata.(path := "", sha256 := []) == old(metadata).(path := "", sha256 := [])
      ensures log == old(log) && partialPath == old(partialPath) && finalPath == old(finalPath)
      ensures result.Some? ==> intact == old(intact)
      ensures result.Some? ==> old(isOpen) && finalized && AllNamed(log, LineCount(metadata))
      ensures result.Some? && intact ==>
                && disk.files == (old(disk.files) - {partialPath})[finalPath := FinalFile(sha, old(metadata),
                   Body(old(metadata), log))]
                && result.value == Finalized(sha, old(metadata), Body(old(metadata), log), finalPath)
      ensures result.None? ==> finalized == old(finalized) && SameElsewhere(old(disk.files), disk.files, {partialPath})
      ensures result.None? ==>
                !old(isOpen) || cancel.Raised() || old(disk.faults) < disk.faults || finalPath in old(disk.files) ||
                               !AllNamed(log, LineCount(metadata))
    {
      if !isOpen || false in linesWritten {
        return None;
      }
      var ok := disk.Succeeds();
      if !ok {
        return None;
      }
      result := Complete(cancel);
    }

    /** Seals a file all of whose lines have been written. */
    method Complete(cancel: CancelFlag) returns (result: Option<SpoolInfo>)
      requires Valid() && isOpen && false !in linesWritten
      modifies this`metadata, this`isOpen, this`intact, this`finalized, disk, cancel`raises
      ensures Valid() && old(disk.faults) <= disk.faults && old(cancel.raises) <= cancel.raises
      ensures metadata.(path := "", sha256 := []) == old(metadata).(path := "", sha256 := [])
      ensures result.Some? ==> finalized && intact == old(intact)
      ensures result.Some? && intact ==>
                && disk.files == (old(disk.files) - {partialPath})[finalPath := FinalFile(sha, old(metadata),
                   Body(old(metadata), log))]
                && result.value == Finalized(sha, old(metadata), Body(old(metadata), log), finalPath)
      ensures result.None? ==> finalized == old(finalized) && SameElsewhere(old(disk.files), disk.files, {partialPath})
      ensures result.None? ==>
                cancel.Raised() || old(disk.faults) < disk.faults || finalPath in old(disk.files)
    {
      result := None;
      ghost var body := if intact then Body(metadata, log) else disk.files[partialPath][HEADER_BYTES..];
      ghost var damaged;
      var checksum, closed;
      checksum, closed, damaged := Seal(disk, sha, partialPath, finalPath, metadata, body, cancel);
      isOpen, intact := !closed, intact && !damaged;
      if checksum.None? {
        return;
      }
      metadata := metadata.(path := finalPath, sha256 := checksum.value);
      result := Some(metadata);
      finalized := true;
    }

    /** The destructor: whatever was not finalized is removed. */
    method Destroy()
      requires Valid()
      modifies this, disk
      ensures Valid() && !isOpen && old(disk.faults) <= disk.faults
      ensures old(finalized) ==> disk.files == old(disk.files)
      ensures !old(finalized) ==>
                disk.files ==
                (if old(partialPath) == "" then old(disk.files) else old(disk.files) - {old(partialPath)}) ||
                (old(disk.faults) < disk.faults && disk.files == old(disk.files))
    {
      if finalized {
        isOpen := false;
      } else {
        Cancel();
      }
    }
  }

  /** Creates the partial file: a header without checksum and a zero-filled body. */
  method Allocate(disk: Disk, path: string, s: SpoolInfo) returns (ok: bool)
    requires MetadataIsValid(s) && s.bodyBytes == ExpectedBodyBytes(s)
    modifies disk
    ensures disk.faults == old(disk.faults) + (if ok then 0 else 1)
    ensures SameElsewhere(old(disk.files), disk.files, {path})
    ensures ok ==> path in disk.files && |disk.files[path]| == HEADER_BYTES + s.bodyBytes
    ensures ok ==> disk.files[path][HEADER_BYTES..] == Body(s, [])
    ensures ok ==> HoldsFresh(disk.files, path, s)
  {
    FieldsFit(s, []);
    var head := EncodeHeader(s, []).value;
    ok := disk.Create(path);
    if ok {
      ok := disk.Append(path, head);
    }
    if ok {
      ok := disk.Extend(path, s.bodyBytes);
    }
  }

  /** Checksums the file, stamps the header, closes the file and moves it to its final name. A failure
      before the close leaves the file open, with its body `damaged` only if the stamping itself failed. */
  method Seal(disk: Disk, sha: Sha256, partialPath: string, finalPath: string, s: SpoolInfo, ghost body: seq<Byte>,
              cancel: CancelFlag)
    returns (checksum: Option<Digest>, closed: bool, ghost damaged: bool)
    requires MetadataIsValid(s) && s.bodyBytes == |body| && partialPath != finalPath
    requires partialPath in disk.files && |disk.files[partialPath]| == HEADER_BYTES + s.bodyBytes
    requires disk.files[partialPath][HEADER_BYTES..] == body
    modifies disk, cancel`raises
    ensures old(disk.faults) <= disk.faults && old(cancel.raises) <= cancel.raises
    ensures !closed ==>
              checksum.None? && partialPath in disk.files && |disk.files[partialPath]| == HEADER_BYTES + s.bodyBytes
    ensures !closed && !damaged ==> disk.files[partialPath][HEADER_BYTES..] == body
    ensures checksum.Some? ==> closed && !damaged
    ensures checksum.None? ==> SameElsewhere(old(disk.files), disk.files, {partialPath})
    ensures checksum.None? ==> old(disk.faults) < disk.faults || cancel.Raised() || finalPath in old(disk.files)
    ensures checksum.Some? ==> finalPath !in old(disk.files)
    ensures checksum.Some? ==> disk.files == (old(disk.files) - {partialPath})[finalPath := FinalFile(sha, s, body)]
    ensures checksum.Some? ==> Encodable(s) && checksum.value == sha(CanonicalMessage(s, body))
  {
    closed, damaged := false, false;
    ValidEncodable(s);
    ghost var file := disk.files[partialPath];
    checksum := ChecksumBody(disk, partialPath, sha, EncodeHeader(s, []).value, s.bodyBytes, cancel);
    if checksum.None? {
      return;
    }
    StampedFile(sha, s, body, checksum.value, file);
    var ok := disk.WriteAt(partialPath, 0, EncodeHeader(s, checksum.value).value);
    if !ok {
      damaged := true;
      checksum := None;
      return;
    }
    ok := disk.Succeeds();
    if !ok {
      checksum := None;
      return;
    }
    closed := true;
    ok := disk.Rename(partialPath, finalPath);
    if !ok {
      checksum := None;
    }
  }

  /** Hashes the canonical header and then the body, a mebibyte at a time. */
  method ChecksumBody(disk: Disk, path: string, sha: Sha256, head: seq<Byte>, bodyBytes: nat, cancel: CancelFlag)
    returns (checksum: Option<Digest>)
    requires path in disk.files && HEADER_BYTES <= |disk.files[path]|
    modifies disk`faults, cancel`raises
    ensures old(disk.faults) <= disk.faults && old(cancel.raises) <= cancel.raises
    ensures checksum.Some? ==> HEADER_BYTES + bodyBytes <= |disk.files[path]|
    ensures checksum.Some? ==> checksum.value == sha(head + disk.files[path][HEADER_BYTES..HEADER_BYTES + bodyBytes])
    ensures checksum.None? ==>
              old(disk.faults) < disk.faults || cancel.Raised() || |disk.files[path]| < HEADER_BYTES + bodyBytes
  {
    checksum := None;
    ghost var file := disk.files[path];
    var hashed := head;
    var remaining := bodyBytes;
    while remaining > 0
      invariant 0 <= remaining <= bodyBytes && HEADER_BYTES + (bodyBytes - remaining) <= |file|
      invariant hashed == head + file[HEADER_BYTES..HEADER_BYTES + (bodyBytes - remaining)]
      invariant old(disk.faults) <= disk.faults && old(cancel.raises) <= cancel.raises
    {
      var canceled := cancel.Poll();
      if canceled {
        return;
      }
      var requested := Min(remaining, MIB);
      var chunk := disk.Read(path, HEADER_BYTES + (bodyBytes - remaining), requested);
      if chunk.None? {
        return;
      }
      hashed := hashed + chunk.value;
      remaining := remaining - requested;
    }
    checksum := Some(sha(hashed));
  }

  /** The body the logged writes have produced. */
  ghost function Body(s: SpoolInfo, log: seq<LineWrite>): (body: seq<Byte>)
    requires MetadataIsValid(s) && s.bodyBytes == ExpectedBodyBytes(s)
    requires WritesInRange(log, LineCount(s), s.bytesPerLine)
    ensures |body| == s.bodyBytes
  {
    BodySizeExact(s);
    ApplyWrites(Padding(s.bodyBytes), LineCount(s), s.bytesPerLine, log)
  }

  lemma BodyExtends(s: SpoolInfo, log: seq<LineWrite>, w: LineWrite, file: seq<Byte>)
    requires MetadataIsValid(s) && s.bodyBytes == ExpectedBodyBytes(s)
    requires WritesInRange(log, LineCount(s), s.bytesPerLine) && w.index < LineCount(s) && |w.bytes| == s.bytesPerLine
    requires |file| == HEADER_BYTES + s.bodyBytes
    ensures WritesInRange(log + [w], LineCount(s), s.bytesPerLine)
    ensures 0 <= w.index * s.bytesPerLine as int
    ensures HEADER_BYTES + w.index * s.bytesPerLine as int + |w.bytes| <= |file|
    ensures file[HEADER_BYTES..] == Body(s, log) ==>
              Put(file, HEADER_BYTES + w.index * s.bytesPerLine as int, w.bytes)[HEADER_BYTES..] == Body(s, log + [w])
  {
    assert (log + [w])[..|log + [w]| - 1] == log;
    BodySizeExact(s);
    LineFits(w.index, LineCount(s), s.bytesPerLine);
  }

  lemma NamesExtends(log: seq<LineWrite>, w: LineWrite)
    ensures forall k: nat :: Names(log + [w], k) <==> Names(log, k) || k == w.index
  {
    forall k: nat
      ensures Names(log + [w], k) <==> Names(log, k) || k == w.index
    {
      assert w in log + [w];
      assert forall v :: v in log ==> v in log + [w];
    }
  }

  /** Stamping the checksum into the header of a complete file gives the final file. */
  lemma StampedFile(sha: Sha256, s: SpoolInfo, body: seq<Byte>, checksum: Digest, file: seq<Byte>)
    requires MetadataIsValid(s) && s.bodyBytes == |body| && Encodable(s)
    requires |file| == HEADER_BYTES + |body| && file[HEADER_BYTES..] == body
    requires checksum == sha(EncodeHeader(s, []).value + file[HEADER_BYTES..HEADER_BYTES + |body|])
    ensures EncodeHeader(s, checksum).Some?
    ensures Put(file, 0, EncodeHeader(s, checksum).value) == FinalFile(sha, s, body)
    ensures checksum == sha(CanonicalMessage(s, body))
  {
    FieldsFit(s, checksum);
    assert file[HEADER_BYTES..HEADER_BYTES + |body|] == file[HEADER_BYTES..];
    assert checksum == sha(CanonicalMessage(s, body));
    PutHead(file, EncodeHeader(s, checksum).value);
  }

  lemma PutHead(file: seq<Byte>, head: seq<Byte>)
    requires |head| <= |file|
    ensures Put(file, 0, head) == head + file[|head|..]
  {
  }
}
