/** The printer service's upload protocol: what each request, timer sweep and end of a print does to the
    uploads, the files and the job being printed. Outcomes of file operations are part of the event. */
module PrinterService {
  import opened RasterTypes
  import opened ByteCodec
  import opened SpoolFormat
  import opened Storage

  const CHUNK_BYTES: int := MIB
  const EXPIRY_MS: int := 5 * 60 * 1000
  const PARTIAL_SUFFIX := ".upload.partial"
  const FINAL_SUFFIX := ".pfrs"

  datatype Settings = Settings(values: map<string, int>, mediaHeightMm: real)

  datatype Upload = Upload(
    partialPath: string,
    expectedBytes: UInt64,
    receivedBytes: UInt64,
    lastActivityMs: int,
    expected: SpoolInfo,
    settings: Settings)

  /** A spool the backend has been handed. */
  datatype Job = Job(uploadId: string, path: string, spool: SpoolInfo, settings: Settings)

  /** `printing` is set exactly while the backend holds a committed job; the service answers nested
      requests meanwhile. `cancelRequested` is the backend's flag: an abort raises it, the start of a spooled job
      clears it, and the backend polls it between the lines it prints. While an isolated worker prints, the flag is
      a marker file, which may turn out impossible to create. */
  datatype Service = Service(
    uploads: map<string, Upload>,
    files: map<string, seq<Byte>>,
    printing: Option<Job>,
    cancelRequested: bool)

  datatype Request =
    | Ping
    | AbortPrint
    | BeginUpload(fileBytes: UInt64, spool: SpoolInfo, settings: Settings)
    | AppendChunk(uploadId: string, offset: UInt64, chunk: seq<Byte>)
    | CancelUpload(uploadId: string)
    | CommitUpload(uploadId: string)
    | OtherCommand(name: string)

  datatype Reply =
    | Refused
    | Done
    | Begun(uploadId: string, chunkBytes: int)
    | Received(total: UInt64)
    | Started
    | Forwarded

  /** What the environment contributes to a request: the clock, free storage (none when the volume is not
      ready), the identifier a new upload would get, whether the file operation of the request works,
      whether the uploaded file can be read back, whether a file to be removed goes away, and what a
      failed append leaves behind. */
  datatype Outcome = Outcome(
    now: int,
    available: Option<nat>,
    freshId: string,
    works: bool,
    readable: bool,
    removed: bool,
    debris: seq<Byte>)

  datatype Event =
    | Arrives(request: Request, outcome: Outcome)
    | PrintEnds(removed: bool)
    | Sweep(now: int, stuck: set<string>)

  /** Reads back and verifies the spool file stored under a path. */
  type Validator = (seq<Byte>, string) -> Option<SpoolInfo>

  /** Validation as the service does it. */
  function SpoolValidator(sha: Sha256): Validator {
    (file, path) => Validated(sha, file, path)
  }

  function Validated(sha: Sha256, file: seq<Byte>, path: string): Option<SpoolInfo> {
    var uploaded :- ReadMetadata(file, path);
    if Verified(sha, file, path, uploaded.sha256) then Some(uploaded) else None
  }

  /** The fixed surroundings of a service. */
  datatype Setup = Setup(directory: string, validate: Validator)

  function PartialOf(directory: string, uploadId: string): string {
    directory + "/" + uploadId + PARTIAL_SUFFIX
  }

  function FinalOf(directory: string, uploadId: string): string {
    directory + "/" + uploadId + FINAL_SUFFIX
  }

  /** The final name is the partial one with its suffix exchanged. */
  function Renamed(partialPath: string): string {
    (if |partialPath| < |PARTIAL_SUFFIX| then "" else partialPath[..|partialPath| - |PARTIAL_SUFFIX|]) + FINAL_SUFFIX
  }

  lemma RenamedIsFinal(directory: string, uploadId: string)
    ensures Renamed(PartialOf(directory, uploadId)) == FinalOf(directory, uploadId)
  {
    var stem := directory + "/" + uploadId;
    assert (stem + PARTIAL_SUFFIX)[..|stem|] == stem;
  }

  /** Different uploads never share a name, and no partial name is a final name. */
  lemma NamesApart(directory: string, a: string, b: string)
    ensures PartialOf(directory, a) == PartialOf(directory, b) <==> a == b
    ensures FinalOf(directory, a) == FinalOf(directory, b) <==> a == b
    ensures PartialOf(directory, a) != FinalOf(directory, b)
  {
    var stem := directory + "/";
    assert PartialOf(directory, a)[|stem|..|PartialOf(directory, a)| - |PARTIAL_SUFFIX|] == a;
    assert PartialOf(directory, b)[|stem|..|PartialOf(directory, b)| - |PARTIAL_SUFFIX|] == b;
    assert FinalOf(directory, a)[|stem|..|FinalOf(directory, a)| - |FINAL_SUFFIX|] == a;
    assert FinalOf(directory, b)[|stem|..|FinalOf(directory, b)| - |FINAL_SUFFIX|] == b;
    assert PartialOf(directory, a)[|PartialOf(directory, a)| - 1] == 'l';
    assert FinalOf(directory, b)[|FinalOf(directory, b)| - 1] == 's';
  }

  /** Metadata complete enough to have come through the request decoder. */
  predicate Decodable(s: SpoolInfo) {
    && s.format <= 2 && |s.sha256| == 32 && s.bodyOffset != 0 && s.bodyBytes != 0 && s.channelOrder != []
    && forall channel :: channel in s.channelOrder ==> 0 <= channel < s.logicalChannelCount
  }

  /** Metadata and file length a new upload may announce. */
  predicate Announceable(s: SpoolInfo, fileBytes: UInt64) {
    && Decodable(s) && MetadataIsValid(s)
    && s.bodyOffset == HEADER_BYTES && s.bodyBytes == ExpectedBodyBytes(s)
    && fileBytes == Wrapped(s.bodyOffset as int + s.bodyBytes as int)
  }

  /** Free storage a new upload needs. */
  function StorageNeeded(fileBytes: UInt64): UInt64 {
    Wrapped(fileBytes as int + fileBytes as int / 5)
  }

  function Without(files: map<string, seq<Byte>>, path: string, removed: bool): map<string, seq<Byte>> {
    if removed then files - {path} else files
  }

  function HandleBegin(setup: Setup, s: Service, fileBytes: UInt64, spool: SpoolInfo, settings: Settings,
                       o: Outcome): (Service, Reply) {
    if !Announceable(spool, fileBytes) || o.available.None? || o.available.value < StorageNeeded(fileBytes) || !o.works
    then (s, Refused)
    else
      var path := PartialOf(setup.directory, o.freshId);
      var upload := Upload(path, fileBytes, 0, o.now, spool, settings);
      (s.(uploads := s.uploads[o.freshId := upload], files := s.files[path := []]), Begun(o.freshId, CHUNK_BYTES))
  }

  /** A chunk an upload takes next. */
  predicate Fits(u: Upload, offset: UInt64, chunk: seq<Byte>) {
    && offset == u.receivedBytes && 0 < |chunk| <= CHUNK_BYTES
    && Wrapped(u.receivedBytes as int + |chunk|) <= u.expectedBytes
  }

  function HandleAppend(s: Service, uploadId: string, offset: UInt64, chunk: seq<Byte>, o: Outcome): (Service, Reply) {
    if uploadId !in s.uploads || !Fits(s.uploads[uploadId], offset, chunk) then (s, Refused)
    else
      var u := s.uploads[uploadId];
      if !o.works then
        var files := if o.removed then s.files - {u.partialPath} else s.files[u.partialPath := o.debris];
        (s.(uploads := s.uploads - {uploadId}, files := files), Refused)
      else
        var total := Wrapped(u.receivedBytes as int + |chunk|);
        (s.(uploads := s.uploads[uploadId := u.(receivedBytes := total, lastActivityMs := o.now)],
            files := s.files[u.partialPath := ContentsOf(s.files, u.partialPath) + chunk]), Received(total))
  }

  function HandleCancel(s: Service, uploadId: string, o: Outcome): (Service, Reply) {
    if uploadId !in s.uploads then (s, Done)
    else (s.(uploads := s.uploads - {uploadId}, files := Without(s.files, s.uploads[uploadId].partialPath, o.removed)),
      Done)
  }

  function HandleCommit(setup: Setup, s: Service, uploadId: string, o: Outcome): (Service, Reply) {
    if uploadId !in s.uploads then (s, Refused)
    else
      var u := s.uploads[uploadId];
      var taken := s.(uploads := s.uploads - {uploadId});
      var final := Renamed(u.partialPath);
      if u.receivedBytes != u.expectedBytes || !o.works || u.partialPath !in s.files || final in s.files then
        (taken.(files := Without(s.files, u.partialPath, o.removed)), Refused)
      else
        var files := (s.files - {u.partialPath})[final := s.files[u.partialPath]];
        var uploaded := if o.readable then setup.validate(files[final], final) else None;
        if uploaded.None? || !SameJob(uploaded.value, u.expected)
        then (taken.(files := Without(files, final, o.removed)), Refused)
        else (taken.(files := files, printing := Some(Job(uploadId, final, uploaded.value, u.settings)),
                     cancelRequested := false), Started)
  }

  function HandleAbort(s: Service, o: Outcome): (Service, Reply) {
    if s.printing.Some? && !o.works then (s, Refused) else (s.(cancelRequested := true), Forwarded)
  }

  /** While a job prints only two commands are let through. */
  predicate Gated(s: Service, request: Request) {
    s.printing.Some? && !request.Ping? && !request.AbortPrint?
  }

  function HandleRequest(setup: Setup, s: Service, request: Request, o: Outcome): (Service, Reply) {
    if Gated(s, request) then (s, Refused)
    else
      match request
      case Ping => (s, Done)
      case AbortPrint => HandleAbort(s, o)
      case OtherCommand(_) => (s, Forwarded)
      case BeginUpload(fileBytes, spool, settings) => HandleBegin(setup, s, fileBytes, spool, settings, o)
      case AppendChunk(uploadId, offset, chunk) => HandleAppend(s, uploadId, offset, chunk, o)
      case CancelUpload(uploadId) => HandleCancel(s, uploadId, o)
      case CommitUpload(uploadId) => HandleCommit(setup, s, uploadId, o)
  }

  /** An upload nothing has happened to for five minutes. */
  predicate Expired(u: Upload, now: int) {
    u.lastActivityMs <= now - EXPIRY_MS
  }

  function ExpiredAmong(uploads: map<string, Upload>, ids: set<string>, now: int): set<string> {
    set id | id in ids && id in uploads && Expired(uploads[id], now)
  }

  function PathsOf(uploads: map<string, Upload>, ids: set<string>): set<string> {
    set id | id in ids && id in uploads :: uploads[id].partialPath
  }

  /** Drops every expired upload; the files of the uploads in `stuck` stay behind. */
  function HandleSweep(s: Service, now: int, stuck: set<string>): Service {
    var gone := ExpiredAmong(s.uploads, s.uploads.Keys, now);
    s.(uploads := s.uploads - gone, files := s.files - PathsOf(s.uploads, gone - stuck))
  }

  function HandlePrintEnd(s: Service, removed: bool): Service {
    if s.printing.None? then s
    else s.(files := Without(s.files, s.printing.value.path, removed), printing := None)
  }

  function Handle(setup: Setup, s: Service, e: Event): (Service, Reply) {
    match e
    case Arrives(request, o) => HandleRequest(setup, s, request, o)
    case PrintEnds(removed) => (HandlePrintEnd(s, removed), Done)
    case Sweep(now, stuck) => (HandleSweep(s, now, stuck), Done)
  }
}
