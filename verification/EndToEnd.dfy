/** From the image to the print backend. */
module EndToEnd {
  import opened RasterTypes
  import opened ByteCodec
  import opened ScreenSpec
  import opened SpoolFormat
  import opened SpoolBody
  import opened SpoolWriter
  import opened SpoolReader
  import opened Storage
  import opened Cancellation
  import opened ToneStage
  import opened RasterBuild
  import opened RasterJob
  import MultiInkJob
  import opened Packing
  import PrinterService
  import opened UploadRuns
  import opened PrinterServer
  import opened UploadAttempt
  import opened UploadClient

  /** A finalized spool is in order for the upload, whatever name it is stored under on the other side. */
  lemma FinalizedSendable(sha: Sha256, setup: PrinterService.Setup, s: SpoolInfo, body: seq<Byte>, path: string)
    requires MetadataIsValid(s) && s.bodyBytes == |body| == ExpectedBodyBytes(s) && s.format <= 2
    requires setup.validate == PrinterService.SpoolValidator(sha)
    ensures Sendable(setup, Transmitted(Finalized(sha, s, body, path)), FinalFile(sha, s, body))
    ensures Presentable(sha, Finalized(sha, s, body, path), FinalFile(sha, s, body))
  {
    var spool, file := Finalized(sha, s, body, path), FinalFile(sha, s, body);
    FinalizedAnnounceable(sha, s, body, path);
    forall q
      ensures setup.validate(file, q).Some? && SameJob(setup.validate(file, q).value, Transmitted(spool))
    {
      FinalFileValidates(sha, s, body, q);
    }
    FinalFileVerifies(sha, s, body, path);
  }

  lemma FinalFileValidates(sha: Sha256, s: SpoolInfo, body: seq<Byte>, q: string)
    requires MetadataIsValid(s) && s.bodyBytes == |body|
    ensures PrinterService.SpoolValidator(sha)(FinalFile(sha, s, body), q) == Some(Finalized(sha, s, body, q))
  {
    FinalFileVerifies(sha, s, body, q);
  }

  lemma FinalizedAnnounceable(sha: Sha256, s: SpoolInfo, body: seq<Byte>, path: string)
    requires MetadataIsValid(s) && s.bodyBytes == |body| == ExpectedBodyBytes(s) && s.format <= 2
    ensures var spool, file := Finalized(sha, s, body, path), FinalFile(sha, s, body);
            && |file| == HEADER_BYTES + |body| == Wrapped(spool.bodyOffset as int + spool.bodyBytes as int) <= U64_MAX
            && PrinterService.Announceable(Transmitted(spool), |file|)
  {
    var spool := Transmitted(Finalized(sha, s, body, path));
    FinalFileReads(sha, s, body, path);
    StampedValid(s, spool);
    WellAnnounced(spool, HEADER_BYTES + |body|);
  }

  lemma WellAnnounced(s: SpoolInfo, fileBytes: int)
    requires MetadataIsValid(s) && s.bodyOffset == HEADER_BYTES && s.bodyBytes == ExpectedBodyBytes(s)
    requires s.format <= 2 && |s.sha256| == 32 && fileBytes == HEADER_BYTES + s.bodyBytes as int
    ensures fileBytes == Wrapped(s.bodyOffset as int + s.bodyBytes as int) <= U64_MAX &&
            PrinterService.Announceable(s, fileBytes)
  {
    BodySizeExact(s);
    Unwrapped(fileBytes);
  }

  /** Reading a finalized spool back line by line gives the lines it was made of. */
  lemma FinalFileLines(sha: Sha256, s: SpoolInfo, planes: seq<seq<seq<Byte>>>, channel: nat, row: nat)
    requires LinesFor(s, Flatten(planes)) && |planes| == s.logicalChannelCount
    requires forall c :: 0 <= c < |planes| ==> |planes[c]| == s.height
    requires channel < |planes| && row < s.height as int
    ensures |FinalFile(sha, s, Concat(Flatten(planes)))| == HEADER_BYTES + ExpectedBodyBytes(s)
    ensures StoredLine(s, FinalFile(sha, s, Concat(Flatten(planes))), channel, row) == planes[channel][row]
  {
    var lines := Flatten(planes);
    BodyLength(s, lines);
    FinalFileReads(sha, s, Concat(lines), "");
    FlattenAt(planes, s.height, channel, row);
    LineStored(s, FinalFile(sha, s, Concat(lines)), lines, channel, row, channel * s.height as int + row);
  }

  lemma LineStored(s: SpoolInfo, file: seq<Byte>, lines: seq<seq<Byte>>, channel: nat, row: nat, k: nat)
    requires LinesFor(s, lines) && |file| == HEADER_BYTES + ExpectedBodyBytes(s) &&
             file[HEADER_BYTES..] == Concat(lines)
    requires channel < s.logicalChannelCount as int && row < s.height as int &&
             k == channel * s.height as int + row < |lines|
    ensures StoredLine(s, file, channel, row) == lines[k]
  {
    ConcatLine(lines, s.bytesPerLine, k);
  }

  /** The line does not depend on where the file is stored. */
  lemma SameStoredLine(s: SpoolInfo, t: SpoolInfo, file: seq<Byte>, channel: nat, row: nat)
    requires MetadataIsValid(s) && MetadataIsValid(t) &&
             t == s.(path := t.path, bodyOffset := t.bodyOffset, sha256 := t.sha256)
    requires |file| == HEADER_BYTES + ExpectedBodyBytes(s) && channel < s.logicalChannelCount as int &&
             row < s.height as int
    ensures ExpectedBodyBytes(t) == ExpectedBodyBytes(s) &&
            StoredLine(t, file, channel, row) == StoredLine(s, file, channel, row)
  {
  }

  /** The printed file holds, line by line, what the simple full-frame algorithm produces: a reader that opens
      it finds every plane-line of the plan, and the physical planes of the job. */
  ghost predicate PrintsPlan(metadata: SpoolInfo, plan: ScreenPlan, spool: SpoolInfo, file: seq<Byte>) {
    && plan.Valid() && Fits(metadata, plan) && MetadataIsValid(spool)
    && |file| == HEADER_BYTES + spool.bodyBytes && spool.bodyBytes == ExpectedBodyBytes(spool)
    && SameSheet(spool, metadata)
    && forall c: nat, y: nat ::
       c < |plan.channels| && y < plan.height ==> StoredLine(spool, file, c, y) == PlannedLine(plan, c, y)
  }

  /** Row y of plane c, as the full-frame algorithm leaves it, packed. */
  function PlannedLine(plan: ScreenPlan, c: nat, y: nat): seq<Byte>
    requires plan.Valid() && c < |plan.channels| && y < plan.height
  {
    PackedLine(plan.FinalOf(c)[y])
  }

  predicate SameSheet(a: SpoolInfo, b: SpoolInfo) {
    && a.width == b.width && a.height == b.height && a.xdpi == b.xdpi && a.ydpi == b.ydpi &&
       a.bytesPerLine == b.bytesPerLine
    && a.logicalChannelCount == b.logicalChannelCount && a.channelOrder == b.channelOrder && a.format == b.format
    && a.canonicalHeader == b.canonicalHeader
  }

  /** The finished file of a plan, in the terms of the plan. */
  lemma DeliveredFile(metadata: SpoolInfo, plan: ScreenPlan, sha: Sha256, path: string)
    requires plan.Valid() && Fits(metadata, plan) && MetadataIsValid(Prepared(metadata))
    ensures var s := Prepared(metadata); var body := Concat(Flatten(plan.Lines()));
            PrintsPlan(metadata, plan, Finalized(sha, s, body, path), FinalFile(sha, s, body))
  {
    var s := Prepared(metadata);
    var planes := plan.Lines();
    var body := Concat(Flatten(planes));
    PlanLines(metadata, plan);
    BodyLength(s, Flatten(planes));
    FinalFileReads(sha, s, body, path);
    StampedValid(s, Finalized(sha, s, body, path));
    forall c: nat, y: nat | c < |plan.channels| && y < plan.height
      ensures StoredLine(Finalized(sha, s, body, path), FinalFile(sha, s, body), c, y) == PlannedLine(plan, c, y)
    {
      FinalFileLines(sha, s, planes, c, y);
      SameStoredLine(s, Finalized(sha, s, body, path), FinalFile(sha, s, body), c, y);
      assert planes[c][y] == PlannedLine(plan, c, y);
    }
  }

  lemma BodyLength(s: SpoolInfo, lines: seq<seq<Byte>>)
    requires LinesFor(s, lines)
    ensures |Concat(lines)| == s.bodyBytes == ExpectedBodyBytes(s)
  {
    ConcatLength(lines, s.bytesPerLine);
    BodySizeExact(s);
  }

  /** A finished spool of this plan is stored under the path `result` names. */
  ghost predicate Finished(files: map<string, seq<Byte>>, sha: Sha256, metadata: SpoolInfo, plan: ScreenPlan,
                           result: SpoolInfo) {
    && plan.Valid() && Fits(metadata, plan) && metadata.format <= 2
    && Holds(files, sha, Prepared(metadata), Flatten(plan.Lines()), result)
  }

  /** What the backend is handed, when it is handed a finished file, prints the plan. */
  lemma HandedPrintsPlan(metadata: SpoolInfo, plan: ScreenPlan, sha: Sha256, files: map<string, seq<Byte>>,
                         result: SpoolInfo, run: Run, k: nat, id: string, settings: PrinterService.Settings)
    requires Finished(files, sha, metadata, plan, result) && run.setup.validate == PrinterService.SpoolValidator(sha)
    requires Handed(run, k, id, files[result.path], Transmitted(result), settings)
    ensures PrintsPlan(metadata, plan, run.states[k + 1].printing.value.spool, files[result.path])
  {
    var printed := run.states[k + 1].printing.value;
    var s, lines := Prepared(metadata), Flatten(plan.Lines());
    PlanLines(metadata, plan);
    BodyLength(s, lines);
    FinalFileValidates(sha, s, Concat(lines), printed.path);
    DeliveredFile(metadata, plan, sha, printed.path);
  }

  /** A finished file is in order for the upload. */
  lemma FinishedSendable(metadata: SpoolInfo, plan: ScreenPlan, sha: Sha256, files: map<string, seq<Byte>>,
                         result: SpoolInfo, setup: PrinterService.Setup)
    requires Finished(files, sha, metadata, plan, result) && setup.validate == PrinterService.SpoolValidator(sha)
    ensures Sendable(setup, Transmitted(result), files[result.path]) && Presentable(sha, result, files[result.path])
  {
    var s, lines := Prepared(metadata), Flatten(plan.Lines());
    PlanLines(metadata, plan);
    BodyLength(s, lines);
    FinalizedSendable(sha, setup, s, Concat(lines), result.path);
  }

  /** Event k handed the backend a file that prints the plan. */
  ghost predicate HandedPlan(run: Run, k: nat, id: string, metadata: SpoolInfo, plan: ScreenPlan,
                             settings: PrinterService.Settings) {
    && run.SubmitsAt(k, id) && k + 1 < |run.states| && run.states[k + 1].printing.Some?
    && var s, printed := run.states[k + 1], run.states[k + 1].printing.value;
       && printed.uploadId == id && printed.settings == settings
       && printed.path in s.files && PrintsPlan(metadata, plan, printed.spool, s.files[printed.path])
  }

  /** What the upload needs to know about a finished file. */
  lemma FinishedFile(metadata: SpoolInfo, plan: ScreenPlan, sha: Sha256, files: map<string, seq<Byte>>,
                     result: SpoolInfo, setup: PrinterService.Setup, settings: PrinterService.Settings)
    requires Finished(files, sha, metadata, plan, result) && setup.validate == PrinterService.SpoolValidator(sha)
    ensures Sendable(setup, Transmitted(result), files[result.path]) && Presentable(sha, result, files[result.path])
    ensures forall run: Run, k: nat, id
              {:trigger Handed(run, k, id, files[result.path], Transmitted(result), settings)} ::
              run.setup == setup && Handed(run, k, id, files[result.path], Transmitted(result), settings) ==>
                HandedPlan(run, k, id, metadata, plan, settings)
  {
    FinishedSendable(metadata, plan, sha, files, result, setup);
    forall run: Run, k: nat, id |
      run.setup == setup && Handed(run, k, id, files[result.path], Transmitted(result), settings)
      ensures HandedPlan(run, k, id, metadata, plan, settings)
    {
      HandedPrintsPlan(metadata, plan, sha, files, result, run, k, id, settings);
    }
  }

  /** This call's own upload, announced with the metadata of the sheet and these settings no earlier than event
      `from`. */
  ghost predicate OwnUpload(a: Attempt, from: nat, metadata: SpoolInfo, settings: PrinterService.Settings) {
    exists fileBytes: nat, spool: SpoolInfo ::
      Began(a, from, fileBytes, spool, settings) && SameSheet(spool, metadata)
  }

  lemma BeganIsOwn(a: Attempt, from: nat, files: map<string, seq<Byte>>, sha: Sha256, metadata: SpoolInfo,
                   plan: ScreenPlan, result: SpoolInfo, settings: PrinterService.Settings)
    requires Finished(files, sha, metadata, plan, result)
    ensures Began(a, from, |files[result.path]|, Transmitted(result), settings) ==>
              OwnUpload(a, from, metadata, settings)
  {
    assert SameSheet(Transmitted(result), metadata);
  }

  /** The backend has been handed, once and by this call's own upload, a file that prints the plan. */
  ghost predicate HandedOwn(a: Attempt, from: nat, handed: nat, metadata: SpoolInfo, plan: ScreenPlan,
                            settings: PrinterService.Settings) {
    && OwnUpload(a, from, metadata, settings) && handed in a.ours
    && HandedPlan(a.seen, handed, a.id, metadata, plan, settings)
  }

  /** Others stood in the way of this call's own upload. */
  ghost predicate OwnObstructed(a: Attempt, from: nat, metadata: SpoolInfo, settings: PrinterService.Settings) {
    OwnUpload(a, from, metadata, settings) && Obstructed(a)
  }

  /** Sends a finished file, if there is one. */
  method SubmitFinished(ghost metadata: SpoolInfo, ghost plan: ScreenPlan, files: map<string, seq<Byte>>, sha: Sha256,
                        result: Option<SpoolInfo>, settings: PrinterService.Settings,
                        server: Server, link: Link, cancelUpload: CancelFlag)
    returns (committed: bool, ghost a: Attempt, ghost handed: Option<nat>)
    requires result.Some? ==> Finished(files, sha, metadata, plan, result.value)
    requires server.Valid() && server.setup.validate == PrinterService.SpoolValidator(sha)
    requires forall k :: k in link.sent ==> k < |server.run.events|
    modifies server, server.disk, server.ids, link, cancelUpload
    ensures server.Valid() && Continues(old(server.run), server.run) && Continues(a.seen, server.run)
    ensures Ledger(a, old(link.sent), link.sent, server.run, handed)
    ensures committed ==> handed.Some?
    ensures handed.Some? ==> HandedOwn(a, |old(server.run).events|, handed.value, metadata, plan, settings)
    ensures handed.None? ==>
              || result.None?
              || old(cancelUpload.raises) < cancelUpload.raises || old(link.failures) < link.failures
              || old(server.disk.faults) < server.disk.faults
              || OwnObstructed(a, |old(server.run).events|, metadata, settings)
  {
    if result.None? {
      return false, Attempt(0, "", {}, server.run), None;
    }
    var spool := result.value;
    FinishedFile(metadata, plan, sha, files, spool, server.setup, settings);
    committed, a, handed := SubmitSpooledJob(server, link, sha, spool, files[spool.path], settings, cancelUpload);
    BeganIsOwn(a, |old(server.run).events|, files, sha, metadata, plan, spool, settings);
  }

  /** An X-33 job from image to printer: built by either engine, uploaded among other clients, printed. No request
      of this call hands the backend anything but, once, a file that is line by line what the full-frame algorithm
      produces; and it does hand it over unless the job is impossible, a file operation or the connection fails
      during the call, somebody cancels the job or its upload during the call, or others obstruct its own upload. */
  method PrintJob(job: X33Job, useInMemory: bool, disk: Disk, sha: Sha256, directory: string, firstToken: string,
                  secondToken: string, scratch: Scratch, canonicalRows: nat, requestedRows: int,
                  settings: PrinterService.Settings, server: Server, link: Link, cancel: CancelFlag,
                  cancelUpload: CancelFlag)
    returns (committed: bool, ghost a: Attempt, ghost handed: Option<nat>)
    requires job.Valid() && 1 <= canonicalRows && server.Valid() && server.disk != disk && cancel != cancelUpload
    requires server.setup.validate == PrinterService.SpoolValidator(sha)
    requires forall k :: k in link.sent ==> k < |server.run.events|
    modifies disk, server, server.disk, server.ids, link, cancel, cancelUpload
    ensures server.Valid() && Continues(old(server.run), server.run) && Continues(a.seen, server.run)
    ensures Ledger(a, old(link.sent), link.sent, server.run, handed)
    ensures committed ==> handed.Some?
    ensures handed.Some? ==>
              HandedOwn(a, |old(server.run).events|, handed.value, job.Metadata(), job.Plan(), settings)
    ensures handed.None? ==>
              || Impossible(job) || scratch.Fails(job.height) || old(disk.faults) < disk.faults
              || FinalPath(directory, secondToken) in old(disk.files)
              || old(cancel.raises) < cancel.raises || old(cancelUpload.raises) < cancelUpload.raises
              || old(link.failures) < link.failures || old(server.disk.faults) < server.disk.faults
              || OwnObstructed(a, |old(server.run).events|, job.Metadata(), settings)
  {
    cancel.Lower();
    var result := BuildRasterSpool(job, useInMemory, disk, sha, directory, firstToken, secondToken, cancel, scratch,
                                   canonicalRows, requestedRows);
    committed, a, handed := SubmitFinished(job.Metadata(), job.Plan(), disk.files, sha, result, settings, server, link,
                                           cancelUpload);
  }

  /** A multi-ink job, likewise. `bounded` says which path built the file; without a plate conflict the plan does
      not depend on it. */
  method PrintMultiInkJob(job: MultiInkJob.MultiInkJob, useInMemory: bool, disk: Disk, sha: Sha256, directory: string,
                          firstToken: string, secondToken: string, scratch: Scratch, canonicalRows: nat,
                          requestedRows: int, settings: PrinterService.Settings, server: Server, link: Link,
                          cancel: CancelFlag, cancelUpload: CancelFlag)
    returns (committed: bool, ghost a: Attempt, ghost handed: Option<nat>, ghost bounded: bool)
    requires job.Valid() && 1 <= canonicalRows && server.Valid() && server.disk != disk && cancel != cancelUpload
    requires server.setup.validate == PrinterService.SpoolValidator(sha)
    requires forall k :: k in link.sent ==> k < |server.run.events|
    modifies disk, server, server.disk, server.ids, link, cancel, cancelUpload
    ensures server.Valid() && Continues(old(server.run), server.run) && Continues(a.seen, server.run)
    ensures Ledger(a, old(link.sent), link.sent, server.run, handed)
    ensures committed ==> handed.Some?
    ensures handed.Some? ==>
              HandedOwn(a, |old(server.run).events|, handed.value, job.Metadata(), job.Plan(bounded), settings)
    ensures handed.None? ==>
              || MultiInkJob.Impossible(job) || scratch.Fails(job.height) || old(disk.faults) < disk.faults
              || FinalPath(directory, secondToken) in old(disk.files)
              || old(cancel.raises) < cancel.raises || old(cancelUpload.raises) < cancelUpload.raises
              || old(link.failures) < link.failures || old(server.disk.faults) < server.disk.faults
              || OwnObstructed(a, |old(server.run).events|, job.Metadata(), settings)
  {
    var result;
    result, bounded := BuildInkSpool(job, useInMemory, disk, sha, directory, firstToken, secondToken, cancel, scratch,
                                     canonicalRows, requestedRows);
    committed, a, handed := SubmitFinished(job.Metadata(), job.Plan(bounded), disk.files, sha, result, settings, server,
                                           link, cancelUpload);
  }

  /** Builds the file of a multi-ink job, by either path. */
  method BuildInkSpool(job: MultiInkJob.MultiInkJob, useInMemory: bool, disk: Disk, sha: Sha256, directory: string,
                       firstToken: string, secondToken: string, cancel: CancelFlag, scratch: Scratch,
                       canonicalRows: nat, requestedRows: int)
    returns (result: Option<SpoolInfo>, ghost bounded: bool)
    requires job.Valid() && 1 <= canonicalRows
    modifies disk, cancel
    ensures result.Some? ==> Finished(disk.files, sha, job.Metadata(), job.Plan(bounded), result.value)
    ensures result.None? ==>
              || MultiInkJob.Impossible(job) || scratch.Fails(job.height) || old(disk.faults) < disk.faults
              || FinalPath(directory, secondToken) in old(disk.files) || old(cancel.raises) < cancel.raises
  {
    cancel.Lower();
    result, bounded := MultiInkJob.BuildRasterSpool(job, useInMemory, disk, sha, directory, firstToken, secondToken,
                                                    cancel, scratch, canonicalRows, requestedRows);
    if result.Some? {
      InkJobFinished(job, bounded, disk.files, sha, result.value);
    }
  }

  lemma InkJobFinished(job: MultiInkJob.MultiInkJob, bounded: bool, files: map<string, seq<Byte>>, sha: Sha256,
                       result: SpoolInfo)
    requires job.Valid() && job.Plan(bounded).Valid()
    requires Holds(files, sha, Prepared(job.Metadata()), Flatten(job.Plan(bounded).Lines()), result)
    ensures Finished(files, sha, job.Metadata(), job.Plan(bounded), result)
  {
  }

  /** Whoever sends it: if an upload was announced with the metadata of a finalized spool, what is printed for
      it carries that spool's body, or else two different messages with one digest are at hand. */
  lemma PrintedBodyIsAnnounced(run: Run, i: nat, id: string, b: nat, sha: Sha256, s: SpoolInfo, body: seq<Byte>,
                               path: string)
    requires run.Valid() && run.SubmitsAt(i, id) && run.setup.validate == PrinterService.SpoolValidator(sha)
    requires MetadataIsValid(s) && s.bodyBytes == |body|
    requires b < i && run.BeginsAt(b, id) && run.events[b].request.spool == Transmitted(Finalized(sha, s, body, path))
    ensures run.states[i + 1].printing.Some? && run.states[i + 1].printing.value.path in run.states[i + 1].files
    ensures var file := run.states[i + 1].files[run.states[i + 1].printing.value.path];
            && Encodable(s) && HEADER_BYTES <= |file|
            && (file[HEADER_BYTES..] == body ||
                Collision(sha, CanonicalMessage(s, file[HEADER_BYTES..]), CanonicalMessage(s, body)))
  {
    OnlyCompleteUploadsPrint(run, i, id);
    var c: nat :| Delivery(run, i, c, id);
    assert b == c;
    var job, file := run.states[i + 1].printing.value, run.Chunks(i, id);
    ValidatedHolds(sha, file, job.path, job.spool);
    VerifiedBody(sha, s, body, path, file, job.spool);
  }

  lemma ValidatedHolds(sha: Sha256, file: seq<Byte>, path: string, spool: SpoolInfo)
    requires PrinterService.SpoolValidator(sha)(file, path) == Some(spool)
    ensures |file| == HEADER_BYTES + spool.bodyBytes && ChecksumHolds(sha, file, spool, spool.sha256)
  {
    assert PrinterService.Validated(sha, file, path) == Some(spool);
  }
}
