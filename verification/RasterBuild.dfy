/** Turning a screening plan into a finished spool, by whole planes or by strips, for any job. */
module RasterBuild {
  import opened Arithmetic
  import opened RasterTypes
  import opened PixelScreening
  import opened ScreenSpec
  import opened ScreenEngine
  import opened BoundedPipeline
  import opened SpoolFormat
  import opened SpoolBody
  import opened SpoolWriter
  import opened Storage
  import opened Cancellation

  /** Lines written once each, in whatever order, make the body. */
  lemma OnceMakesBody(s: SpoolInfo, log: seq<LineWrite>, lines: seq<seq<Byte>>)
    requires MetadataIsValid(s) && s.bodyBytes == ExpectedBodyBytes(s)
    requires WritesInRange(log, LineCount(s), s.bytesPerLine)
    requires |lines| == LineCount(s) && Uniform(lines, s.bytesPerLine) && WritesOnce(log, lines)
    ensures Body(s, log) == Concat(lines)
  {
    BodySizeExact(s);
    AnyWriteOrder(Padding(s.bodyBytes), lines, s.bytesPerLine, log);
  }

  /** `lines` are all plane-lines of a spool with this metadata, in file order. */
  ghost predicate LinesFor(s: SpoolInfo, lines: seq<seq<Byte>>) {
    && MetadataIsValid(s) && s.bodyBytes == ExpectedBodyBytes(s)
    && |lines| == LineCount(s) && Uniform(lines, s.bytesPerLine)
  }

  /** The finalized file of these lines is stored under the path `result` names. */
  ghost predicate Holds(files: map<string, seq<Byte>>, sha: Sha256, s: SpoolInfo, lines: seq<seq<Byte>>,
                        result: SpoolInfo) {
    && MetadataIsValid(s)
    && result.path in files && files[result.path] == FinalFile(sha, s, Concat(lines))
    && result == Finalized(sha, s, Concat(lines), result.path)
  }

  /** The spool's metadata fit the plan. */
  predicate Fits(metadata: SpoolInfo, plan: ScreenPlan) {
    && metadata.width == plan.width && metadata.height == plan.height
    && metadata.bytesPerLine == LineBytes(plan.width) && metadata.logicalChannelCount == |plan.channels|
  }

  lemma PlanLines(metadata: SpoolInfo, plan: ScreenPlan)
    requires plan.Valid() && Fits(metadata, plan)
    ensures |plan.Lines()| == |plan.channels|
    ensures forall c :: 0 <= c < |plan.Lines()| ==> |plan.Lines()[c]| == plan.height
    ensures MetadataIsValid(Prepared(metadata)) ==> LinesFor(Prepared(metadata), Flatten(plan.Lines()))
  {
    LinesShape(plan);
  }

  lemma LinesShape(plan: ScreenPlan)
    requires plan.Valid()
    ensures |Flatten(plan.Lines())| == |plan.channels| * plan.height
    ensures Uniform(Flatten(plan.Lines()), LineBytes(plan.width))
  {
    var lines := plan.Lines();
    FlattenLength(lines, plan.height);
    forall k | 0 <= k < |Flatten(lines)|
      ensures |Flatten(lines)[k]| == LineBytes(plan.width)
    {
      CellOf(k, plan.height, |lines|);
      FlattenAt(lines, plan.height, k / plan.height, k % plan.height);
    }
  }

  /** The request asks the full-frame engine for exactly what the plan says: channel by channel it resolves to
      the same settings, over the same tones. */
  ghost predicate Mirrors(req: ScreenRequest, plan: ScreenPlan) {
    && req.width == plan.width && req.height == plan.height && req.screenSeed == plan.seed &&
       req.modeParams == plan.parameters
    && 0 < plan.width && 0 < plan.height && |req.channels| == |plan.channels| == |plan.planes|
    && req.channels != [] && req.channels[0].maskKey != ""
    && forall c :: 0 <= c < |req.channels| ==>
         && Resolve(req, req.channels[c]) == plan.channels[c]
         && req.channels[c].toneBytes == Some(plan.planes[c]) && |plan.planes[c]| == plan.height * plan.width
  }

  lemma MirrorsAccepted(req: ScreenRequest, plan: ScreenPlan)
    requires Mirrors(req, plan)
    ensures plan.Valid() <==> forall ch :: ch in req.channels ==> Accepted(req, plan.masks, ch)
  {
    if forall ch :: ch in req.channels ==> Accepted(req, plan.masks, ch) {
      forall c | 0 <= c < |plan.channels|
        ensures plan.channels[c].maskPath in plan.masks && plan.masks[plan.channels[c].maskPath].Valid()
      {
        assert req.channels[c] in req.channels && Accepted(req, plan.masks, req.channels[c]);
      }
    }
    if plan.Valid() {
      forall ch | ch in req.channels
        ensures Accepted(req, plan.masks, ch)
      {
        var c :| 0 <= c < |req.channels| && req.channels[c] == ch;
        assert Resolve(req, ch) == plan.channels[c];
      }
    }
  }

  lemma MirrorsPacked(req: ScreenRequest, plan: ScreenPlan, packed: seq<seq<seq<Byte>>>)
    requires Mirrors(req, plan) && |packed| == |req.channels|
    requires forall i :: 0 <= i < |req.channels| ==> Screened(req, plan.masks, i, packed[i])
    ensures plan.Valid() && packed == plan.Lines()
  {
    forall ch | ch in req.channels
      ensures Accepted(req, plan.masks, ch)
    {
      var c :| 0 <= c < |req.channels| && req.channels[c] == ch;
      assert Screened(req, plan.masks, c, packed[c]);
    }
    MirrorsAccepted(req, plan);
    forall c | 0 <= c < |packed|
      ensures packed[c] == plan.Lines()[c]
    {
      assert Screened(req, plan.masks, c, packed[c]) && Resolve(req, req.channels[c]) == plan.channels[c];
    }
  }

  /** The full-frame engine carries out the plan. */
  method ScreenPlanned(req: ScreenRequest, masks: map<string, Mask>, cancel: CancelFlag, ghost plan: ScreenPlan)
    returns (packed: Option<seq<seq<seq<Byte>>>>)
    requires Mirrors(req, plan) && plan.masks == masks
    modifies cancel`raises
    ensures old(cancel.raises) <= cancel.raises
    ensures packed.Some? ==> plan.Valid() && packed.value == plan.Lines()
    ensures packed.None? ==> cancel.Raised() || !plan.Valid()
  {
    MirrorsAccepted(req, plan);
    var ok, lines := ScreenChannels(req, masks, cancel);
    if !ok {
      return None;
    }
    MirrorsPacked(req, plan, lines);
    packed := Some(lines);
  }

  /** Finalizes a writer whose log is complete. */
  method Conclude(writer: Writer, cancel: CancelFlag, ghost lines: seq<seq<Byte>>) returns (result: Option<SpoolInfo>)
    requires writer.Valid() && writer.isOpen && writer.intact && !writer.finalized
    requires LinesFor(writer.metadata, lines) && WritesOnce(writer.log, lines)
    modifies writer, writer.disk, cancel`raises
    ensures writer.Valid() && old(writer.disk.faults) <= writer.disk.faults
    ensures old(cancel.raises) <= cancel.raises
    ensures result.Some? ==> writer.finalized
    ensures result.Some? ==> Holds(writer.disk.files, writer.sha, old(writer.metadata), lines, result.value)
    ensures result.None? ==> !writer.finalized && writer.partialPath == old(writer.partialPath)
    ensures result.None? ==> SameElsewhere(old(writer.disk.files), writer.disk.files, {writer.partialPath})
    ensures result.None? ==>
              cancel.Raised() || old(writer.disk.faults) < writer.disk.faults ||
              old(writer.finalPath) in old(writer.disk.files)
  {
    OnceMakesBody(writer.metadata, writer.log, lines);
    result := writer.Finalize(cancel);
  }

  /** The in-memory path writes plane after plane. */
  method WritePlanes(writer: Writer, packed: seq<seq<seq<Byte>>>, height: nat, cancel: CancelFlag) returns (ok: bool)
    requires writer.Valid() && writer.log == [] && writer.metadata.height == height && 0 < height
    requires forall c :: 0 <= c < |packed| ==> |packed[c]| == height
    modifies writer`linesWritten, writer`log, writer`intact, writer.disk, cancel`raises
    ensures writer.Valid() && old(writer.disk.faults) <= writer.disk.faults
    ensures old(cancel.raises) <= cancel.raises
    ensures ok ==> WritesOnce(writer.log, Flatten(packed)) && writer.intact == old(writer.intact)
    ensures !ok ==>
              cancel.Raised() || old(writer.disk.faults) < writer.disk.faults || !writer.isOpen ||
              |packed| > writer.metadata.logicalChannelCount ||
              !Uniform(Flatten(packed), writer.metadata.bytesPerLine)
  {
    ghost var lines := Flatten(packed);
    FlattenLength(packed, height);
    LinesBeforeIsProduct(|packed|, height);
    var channel := 0;
    while channel < |packed|
      invariant 0 <= channel <= |packed| && writer.Valid()
      invariant old(writer.disk.faults) <= writer.disk.faults && old(cancel.raises) <= cancel.raises
      invariant writer.intact == old(writer.intact)
      invariant |writer.log| == LinesBefore(channel, height) && InOrder(writer.log, lines)
    {
      PlaneLines(packed, height, channel);
      ok := WritePlane(writer, channel, packed[channel], cancel, lines, LinesBefore(channel, height));
      if !ok {
        return;
      }
      channel := channel + 1;
    }
    InOrderOnce(writer.log, lines);
    ok := true;
  }

  /** How many lines precede a channel's. */
  ghost function LinesBefore(channel: nat, height: nat): nat {
    if channel == 0 then 0 else LinesBefore(channel - 1, height) + height
  }

  lemma {:induction false} LinesBeforeIsProduct(channel: nat, height: nat)
    ensures LinesBefore(channel, height) == channel * height
  {
    if channel != 0 {
      LinesBeforeIsProduct(channel - 1, height);
      assert channel * height == (channel - 1) * height + height;
    }
  }

  /** The plane's lines are consecutive from index `first` on. */
  ghost predicate PlaneAt(lines: seq<seq<Byte>>, first: nat, plane: seq<seq<Byte>>) {
    first + |plane| <= |lines| && lines[first..first + |plane|] == plane
  }

  lemma PlaneLines(packed: seq<seq<seq<Byte>>>, height: nat, channel: nat)
    requires forall c :: 0 <= c < |packed| ==> |packed[c]| == height
    requires channel < |packed| && 0 < height
    ensures PlaneAt(Flatten(packed), LinesBefore(channel, height), packed[channel])
  {
    var lines, first := Flatten(packed), LinesBefore(channel, height);
    LinesBeforeIsProduct(channel, height);
    forall row | 0 <= row < height
      ensures first + row < |lines| && lines[first + row] == packed[channel][row]
    {
      FlattenAt(packed, height, channel, row);
    }
    FlattenAt(packed, height, channel, height - 1);
  }

  method WritePlane(writer: Writer, channel: nat, plane: seq<seq<Byte>>, cancel: CancelFlag,
                    ghost lines: seq<seq<Byte>>, ghost first: nat)
    returns (ok: bool)
    requires writer.Valid() && writer.metadata.height == |plane| && InOrder(writer.log, lines)
    requires |writer.log| == first == LinesBefore(channel, |plane|)
    requires PlaneAt(lines, first, plane)
    modifies writer`linesWritten, writer`log, writer`intact, writer.disk, cancel`raises
    ensures writer.Valid() && old(writer.disk.faults) <= writer.disk.faults
    ensures old(cancel.raises) <= cancel.raises
    ensures ok ==> |writer.log| == first + |plane| && InOrder(writer.log, lines) && writer.intact == old(writer.intact)
    ensures !ok ==>
              cancel.Raised() || old(writer.disk.faults) < writer.disk.faults || !writer.isOpen ||
              channel >= writer.metadata.logicalChannelCount ||
              !Uniform(lines, writer.metadata.bytesPerLine)
  {
    LinesBeforeIsProduct(channel, |plane|);
    var row := 0;
    while row < |plane|
      invariant 0 <= row <= |plane| && writer.Valid()
      invariant old(writer.disk.faults) <= writer.disk.faults && old(cancel.raises) <= cancel.raises
      invariant writer.intact == old(writer.intact)
      invariant |writer.log| == first + row && InOrder(writer.log, lines)
    {
      assert plane[row] == lines[first..first + |plane|][row];
      ok := WriteRow(writer, channel, row, plane[row], cancel, lines);
      if !ok {
        return;
      }
      row := row + 1;
    }
    ok := true;
  }

  /** Writes the next line, unless cancelled. */
  method WriteRow(writer: Writer, channel: nat, row: nat, bytes: seq<Byte>, cancel: CancelFlag,
                  ghost lines: seq<seq<Byte>>)
    returns (ok: bool)
    requires writer.Valid() && row < writer.metadata.height as int && InOrder(writer.log, lines)
    requires |writer.log| == writer.LineIndex(channel, row) < |lines| && lines[|writer.log|] == bytes
    modifies writer`linesWritten, writer`log, writer`intact, writer.disk, cancel`raises
    ensures writer.Valid() && old(writer.disk.faults) <= writer.disk.faults
    ensures old(cancel.raises) <= cancel.raises
    ensures ok ==> |writer.log| == |old(writer.log)| + 1 && InOrder(writer.log, lines)
    ensures ok ==> writer.intact == old(writer.intact)
    ensures !ok ==>
              cancel.Raised() || old(writer.disk.faults) < writer.disk.faults || !writer.isOpen ||
              channel >= writer.metadata.logicalChannelCount || !Uniform(lines, writer.metadata.bytesPerLine)
  {
    var canceled := cancel.Poll();
    if canceled {
      return false;
    }
    ok := writer.WriteLine(channel, row, bytes);
  }

  /** The log is a prefix of the lines, each at its own index. */
  ghost predicate InOrder(log: seq<LineWrite>, lines: seq<seq<Byte>>) {
    |log| <= |lines| && forall i :: 0 <= i < |log| ==> log[i] == LineWrite(i, lines[i])
  }

  lemma InOrderOnce(log: seq<LineWrite>, lines: seq<seq<Byte>>)
    requires InOrder(log, lines) && |log| == |lines|
    ensures WritesOnce(log, lines)
  {
    forall k | 0 <= k < |lines|
      ensures Names(log, k)
    {
      assert log[k] in log && log[k].index == k;
    }
  }

  /** Writes complete planes into a new spool and finalizes it. */
  method SpoolPlanes(metadata: SpoolInfo, packed: seq<seq<seq<Byte>>>, disk: Disk, sha: Sha256,
                     directory: string, token: string, cancel: CancelFlag)
    returns (result: Option<SpoolInfo>)
    requires MetadataIsValid(Prepared(metadata)) ==>
               && LinesFor(Prepared(metadata), Flatten(packed))
               && |packed| == metadata.logicalChannelCount
               && (forall c :: 0 <= c < |packed| ==> |packed[c]| == metadata.height)
    modifies disk, cancel`raises
    ensures old(disk.faults) <= disk.faults && old(cancel.raises) <= cancel.raises
    ensures result.Some? ==> Holds(disk.files, sha, Prepared(metadata), Flatten(packed), result.value)
    ensures result.None? ==> SameElsewhere(old(disk.files), disk.files, {PartialPath(directory, token)})
    ensures result.None? ==>
              || !MetadataIsValid(Prepared(metadata)) || cancel.Raised() || old(disk.faults) < disk.faults
              || FinalPath(directory, token) in old(disk.files)
  {
    result := None;
    var writer := new Writer(disk, sha);
    var ok := writer.Create(directory, token, metadata);
    if ok {
      FinalIsNotPartial(directory, token, token);
      ok := WritePlanes(writer, packed, metadata.height, cancel);
      if ok {
        result := Conclude(writer, cancel, Flatten(packed));
      }
    }
    writer.Destroy();
  }

  /** No spool's final name is any spool's partial name. */
  lemma FinalIsNotPartial(directory: string, token: string, other: string)
    ensures FinalPath(directory, token) != PartialPath(directory, other)
  {
    var final, partial := FinalPath(directory, token), PartialPath(directory, other);
    assert final[|final| - 1] == 's' && partial[|partial| - 1] == 'l';
  }

  /** The plan is that of these settings, and the provider delivers strips of its planes. */
  ghost predicate StripsFor(metadata: SpoolInfo, seed: bv32, parameters: map<string, int>,
                            channels: seq<ScreenChannel>, masks: map<string, Mask>, provider: ToneProvider,
                            plan: ScreenPlan) {
    && 0 < metadata.width && 0 < metadata.height && Fits(metadata, plan)
    && plan == ScreenPlan(metadata.width, metadata.height, seed, parameters, channels, masks, plan.planes)
    && |plan.planes| == |channels|
    && (forall c :: 0 <= c < |channels| ==> |plan.planes[c]| == plan.height * plan.width)
    && SlicesPlanes(provider, plan.planes, plan.width, plan.height)
  }

  /** Strip after strip into a new spool, then finalized. */
  method SpoolStrips(metadata: SpoolInfo, seed: bv32, parameters: map<string, int>, channels: seq<ScreenChannel>,
                     masks: map<string, Mask>,
                     provider: ToneProvider, disk: Disk, sha: Sha256, directory: string, token: string,
                     cancel: CancelFlag, requestedRows: int, ghost plan: ScreenPlan)
    returns (result: Option<SpoolInfo>)
    requires StripsFor(metadata, seed, parameters, channels, masks, provider, plan)
    modifies disk, cancel`raises
    ensures old(disk.faults) <= disk.faults && old(cancel.raises) <= cancel.raises
    ensures result.Some? ==>
              plan.Valid() && Holds(disk.files, sha, Prepared(metadata), Flatten(plan.Lines()), result.value)
    ensures result.None? ==> SameElsewhere(old(disk.files), disk.files, {PartialPath(directory, token)})
    ensures result.None? ==>
              || !plan.Valid() || !MetadataIsValid(Prepared(metadata)) || cancel.Raised()
              || old(disk.faults) < disk.faults
              || ProviderFails(provider, |channels|, plan.width, plan.height)
              || FinalPath(directory, token) in old(disk.files)
  {
    result := None;
    var writer := new Writer(disk, sha);
    var ok := writer.Create(directory, token, metadata);
    if ok {
      FinalIsNotPartial(directory, token, token);
      result := ScreenInto(writer, metadata, seed, parameters, channels, masks, provider, cancel, requestedRows, plan);
    }
    writer.Destroy();
  }

  /** Screens into a writer that has just been created, and finalizes it. */
  method ScreenInto(writer: Writer, metadata: SpoolInfo, seed: bv32, parameters: map<string, int>,
                    channels: seq<ScreenChannel>, masks: map<string, Mask>, provider: ToneProvider, cancel: CancelFlag,
                    requestedRows: int, ghost plan: ScreenPlan)
    returns (result: Option<SpoolInfo>)
    requires StripsFor(metadata, seed, parameters, channels, masks, provider, plan)
    requires writer.Valid() && writer.isOpen && writer.intact && !writer.finalized && writer.log == []
    requires writer.metadata == Prepared(metadata) && writer.finalPath != writer.partialPath
    modifies writer, writer.disk, cancel`raises
    ensures writer.Valid() && old(writer.disk.faults) <= writer.disk.faults && old(cancel.raises) <= cancel.raises
    ensures result.Some? ==>
              && plan.Valid() && writer.finalized
              && Holds(writer.disk.files, writer.sha, Prepared(metadata), Flatten(plan.Lines()), result.value)
    ensures result.None? ==> !writer.finalized && writer.partialPath == old(writer.partialPath)
    ensures result.None? ==> SameElsewhere(old(writer.disk.files), writer.disk.files, {writer.partialPath})
    ensures result.None? ==>
              || !plan.Valid() || cancel.Raised() || old(writer.disk.faults) < writer.disk.faults
              || ProviderFails(provider, |channels|, plan.width, plan.height)
              || old(writer.finalPath) in old(writer.disk.files)
  {
    result := None;
    if plan.Valid() {
      PlanLines(metadata, plan);
    }
    var ok := ScreenToSpool(metadata.width, metadata.height, seed, parameters, channels, masks, provider, writer,
                            cancel, requestedRows, plan.planes);
    if ok {
      result := Conclude(writer, cancel, Flatten(plan.Lines()));
    }
  }

  /** Tones that are row ranges of whole planes are strips of them. */
  lemma RangeIsStrip(tones: seq<seq<Tone>>, planes: seq<seq<Tone>>, width: nat, height: nat, first: nat, count: nat)
    requires first + count <= height && (forall c :: 0 <= c < |planes| ==> |planes[c]| == height * width)
    requires 0 <= first * width <= (first + count) * width <= height * width
    requires WellSized(tones, |planes|, count * width)
    requires forall c :: 0 <= c < |planes| ==> tones[c] == planes[c][first * width..(first + count) * width]
    ensures StripOf(tones, planes, width, height, first, count)
  {
    forall c, y | 0 <= c < |planes| && 0 <= y < count
      ensures Row(tones[c], width, count, y) == Row(planes[c], width, height, first + y)
    {
      RowOfSlice(planes[c], width, height, first, count, y);
    }
  }

  lemma RowOfSlice(plane: seq<Tone>, width: nat, height: nat, first: nat, count: nat, y: nat)
    requires |plane| == height * width && first + count <= height && y < count
    ensures 0 <= first * width <= (first + count) * width <= |plane|
    ensures |plane[first * width..(first + count) * width]| == count * width
    ensures Row(plane[first * width..(first + count) * width], width, count, y) == Row(plane, width, height, first + y)
  {
    ProductGrows(first + count, height, width);
    ProductGrows(first, first + count, width);
    ProductGrows(0, first, width);
    var from, to, at := first * width, (first + count) * width, y * width;
    assert to - from == count * width;
    assert (first + y) * width == from + at;
    RowsApart(y, count, width);
    SliceOfSlice(plane, from, to, at, at + width);
  }
}
