/** What one event of the printer service does to each upload, each file and the printing job. */
module UploadSteps {
  import opened RasterTypes
  import opened ByteCodec
  import opened SpoolFormat
  import opened Storage
  import opened PrinterService

  /** What a live upload owns: a partial file of its own that is as long as what has been received. */
  predicate Owns(setup: Setup, s: Service, id: string)
    requires id in s.uploads
  {
    var u := s.uploads[id];
    && u.partialPath == PartialOf(setup.directory, id) && u.partialPath in s.files
    && |s.files[u.partialPath]| == u.receivedBytes <= u.expectedBytes
    && u.expectedBytes == HEADER_BYTES + u.expected.bodyBytes && Announceable(u.expected, u.expectedBytes)
  }

  /** The printed job's file is there and no upload of that name is live. */
  predicate Prints(setup: Setup, s: Service)
    requires s.printing.Some?
  {
    var job := s.printing.value;
    job.path == FinalOf(setup.directory, job.uploadId) && job.path in s.files && job.uploadId !in s.uploads
  }

  /** The invariant of the service. */
  ghost predicate Sound(setup: Setup, s: Service) {
    (forall id :: id in s.uploads ==> Owns(setup, s, id)) && (s.printing.Some? ==> Prints(setup, s))
  }

  function Next(setup: Setup, s: Service, e: Event): Service {
    Handle(setup, s, e).0
  }

  function ReplyTo(setup: Setup, s: Service, e: Event): Reply {
    Handle(setup, s, e).1
  }

  /** The event creates upload `id`. */
  predicate Begins(setup: Setup, s: Service, e: Event, id: string) {
    e.Arrives? && e.request.BeginUpload? && ReplyTo(setup, s, e) == Begun(id, CHUNK_BYTES)
  }

  /** The event is an accepted chunk of upload `id`. */
  predicate Extends(setup: Setup, s: Service, e: Event, id: string) {
    e.Arrives? && e.request.AppendChunk? && e.request.uploadId == id && ReplyTo(setup, s, e).Received?
  }

  /** The event hands upload `id` to the backend. */
  predicate Submits(setup: Setup, s: Service, e: Event, id: string) {
    e.Arrives? && e.request.CommitUpload? && e.request.uploadId == id && ReplyTo(setup, s, e).Started?
  }

  /** The event ends the life of upload `id`: a failed append, a cancel, a commit however it turns out, or
      its expiry. */
  predicate Ends(s: Service, e: Event, id: string) {
    && id in s.uploads
    && match e
       case PrintEnds(_) => false
       case Sweep(now, _) => Expired(s.uploads[id], now)
       case Arrives(request, o) =>
         && !Gated(s, request)
         && match request
            case AppendChunk(other, offset, chunk) => other == id && Fits(s.uploads[id], offset, chunk) && !o.works
            case CancelUpload(other) => other == id
            case CommitUpload(other) => other == id
            case _ => false
  }

  /** The event begins no upload under an identifier that is live. */
  predicate Fresh(setup: Setup, s: Service, e: Event) {
    e.Arrives? && e.request.BeginUpload? && ReplyTo(setup, s, e).Begun? ==> e.outcome.freshId !in s.uploads
  }

  /** The bytes received for a live upload so far. */
  function Gathered(s: Service, id: string): Option<seq<Byte>> {
    if id in s.uploads then Some(ContentsOf(s.files, s.uploads[id].partialPath)) else None
  }

  lemma BeginKeeps(setup: Setup, s: Service, fileBytes: UInt64, spool: SpoolInfo, settings: Settings, o: Outcome)
    requires Sound(setup, s) && s.printing.None?
    requires HandleBegin(setup, s, fileBytes, spool, settings, o).1.Begun? ==> o.freshId !in s.uploads
    ensures Sound(setup, HandleBegin(setup, s, fileBytes, spool, settings, o).0)
    ensures forall id :: Gathered(HandleBegin(setup, s, fileBytes, spool, settings, o).0, id) ==
              if HandleBegin(setup, s, fileBytes, spool, settings, o).1 == Begun(id, CHUNK_BYTES)
              then Some([]) else Gathered(s, id)
  {
    var (s', reply) := HandleBegin(setup, s, fileBytes, spool, settings, o);
    if s' != s {
      BodySizeExact(spool);
      Unwrapped(HEADER_BYTES + spool.bodyBytes as int);
    }
    forall id | id in s.uploads
      ensures Owns(setup, s, id) &&
              (s' != s ==> PartialOf(setup.directory, id) != PartialOf(setup.directory, o.freshId))
    {
      NamesApart(setup.directory, id, o.freshId);
    }
  }

  /** The running total does not wrap around. */
  lemma TotalExact(u: Upload, chunk: seq<Byte>)
    requires Announceable(u.expected, u.expectedBytes) &&
             u.receivedBytes <= u.expectedBytes == HEADER_BYTES + u.expected.bodyBytes
    ensures |chunk| <= CHUNK_BYTES ==> Wrapped(u.receivedBytes as int + |chunk|) == u.receivedBytes as int + |chunk|
  {
    BodySizeExact(u.expected);
  }

  lemma AppendKeeps(setup: Setup, s: Service, target: string, offset: UInt64, chunk: seq<Byte>, o: Outcome)
    requires Sound(setup, s) && s.printing.None?
    ensures Sound(setup, HandleAppend(s, target, offset, chunk, o).0)
    ensures forall id :: Gathered(HandleAppend(s, target, offset, chunk, o).0, id) ==
              if id != target || target !in s.uploads || !Fits(s.uploads[target], offset, chunk) then Gathered(s, id)
              else if !o.works then None
              else Some(Gathered(s, target).value + chunk)
  {
    if target in s.uploads && Fits(s.uploads[target], offset, chunk) {
      if o.works {
        AppendWorks(setup, s, target, offset, chunk, o);
      } else {
        assert Owns(setup, s, target);
        TakenKeeps(setup, s, target, HandleAppend(s, target, offset, chunk, o).0.files, None, s.cancelRequested);
      }
    }
  }

  lemma AppendWorks(setup: Setup, s: Service, target: string, offset: UInt64, chunk: seq<Byte>, o: Outcome)
    requires Sound(setup, s) && s.printing.None? && o.works
    requires target in s.uploads && Fits(s.uploads[target], offset, chunk)
    ensures Sound(setup, HandleAppend(s, target, offset, chunk, o).0)
    ensures forall id :: Gathered(HandleAppend(s, target, offset, chunk, o).0, id) ==
              if id == target then Some(Gathered(s, target).value + chunk) else Gathered(s, id)
  {
    var u := s.uploads[target];
    assert Owns(setup, s, target);
    TotalExact(u, chunk);
    forall id | id in s.uploads && id != target
      ensures Owns(setup, s, id) && s.uploads[id].partialPath != u.partialPath
    {
      NamesApart(setup.directory, id, target);
    }
  }

  /** Taking an upload out, whatever becomes of its two files, leaves the rest as it was. */
  lemma TakenKeeps(setup: Setup, s: Service, target: string, files: map<string, seq<Byte>>, printing: Option<Job>,
                   flag: bool)
    requires Sound(setup, s) && s.printing.None? && target in s.uploads
    requires SameElsewhere(s.files, files, {PartialOf(setup.directory, target), FinalOf(setup.directory, target)})
    requires printing.Some? ==>
               && printing.value.uploadId == target && printing.value.path == FinalOf(setup.directory, target)
               && printing.value.path in files
    ensures Sound(setup, Service(s.uploads - {target}, files, printing, flag))
    ensures forall id :: Gathered(Service(s.uploads - {target}, files, printing, flag), id) ==
              if id == target then None else Gathered(s, id)
  {
    forall id | id in s.uploads && id != target
      ensures Owns(setup, s, id) &&
              s.uploads[id].partialPath !in {PartialOf(setup.directory, target), FinalOf(setup.directory, target)}
    {
      NamesApart(setup.directory, id, target);
    }
  }

  lemma CancelKeeps(setup: Setup, s: Service, target: string, o: Outcome)
    requires Sound(setup, s) && s.printing.None?
    ensures Sound(setup, HandleCancel(s, target, o).0)
    ensures forall id :: Gathered(HandleCancel(s, target, o).0, id) == if id == target then None else Gathered(s, id)
  {
    if target in s.uploads {
      assert Owns(setup, s, target);
      TakenKeeps(setup, s, target, Without(s.files, s.uploads[target].partialPath, o.removed), None, s.cancelRequested);
    }
  }

  lemma CommitKeeps(setup: Setup, s: Service, target: string, o: Outcome)
    requires Sound(setup, s) && s.printing.None?
    ensures Sound(setup, HandleCommit(setup, s, target, o).0)
    ensures forall id :: Gathered(HandleCommit(setup, s, target, o).0, id) ==
              if id == target then None else Gathered(s, id)
  {
    if target in s.uploads {
      assert Owns(setup, s, target);
      RenamedIsFinal(setup.directory, target);
      NamesApart(setup.directory, target, target);
      var s' := HandleCommit(setup, s, target, o).0;
      TakenKeeps(setup, s, target, s'.files, s'.printing, s'.cancelRequested);
    }
  }

  lemma SweepKeeps(setup: Setup, s: Service, now: int, stuck: set<string>)
    requires Sound(setup, s)
    ensures Sound(setup, HandleSweep(s, now, stuck))
    ensures forall id :: Gathered(HandleSweep(s, now, stuck), id) ==
              if id in s.uploads && Expired(s.uploads[id], now) then None else Gathered(s, id)
  {
    var s' := HandleSweep(s, now, stuck);
    forall id, other | id in s.uploads && other in s.uploads && id != other
      ensures Owns(setup, s, id) && s.uploads[id].partialPath != s.uploads[other].partialPath
    {
      assert Owns(setup, s, id) && Owns(setup, s, other);
      NamesApart(setup.directory, id, other);
    }
    if s.printing.Some? {
      forall id | id in s.uploads
        ensures s.uploads[id].partialPath != s.printing.value.path
      {
        assert Owns(setup, s, id);
        NamesApart(setup.directory, id, s.printing.value.uploadId);
      }
    }
  }

  lemma PrintEndKeeps(setup: Setup, s: Service, removed: bool)
    requires Sound(setup, s)
    ensures Sound(setup, HandlePrintEnd(s, removed))
    ensures forall id :: Gathered(HandlePrintEnd(s, removed), id) == Gathered(s, id)
  {
    if s.printing.Some? {
      forall id | id in s.uploads
        ensures Owns(setup, s, id) && s.uploads[id].partialPath != s.printing.value.path
      {
        NamesApart(setup.directory, id, s.printing.value.uploadId);
      }
    }
  }

  /** What an event does to upload `id`. Whatever neither begins, extends nor ends it leaves it, and its
      file, as they were: no client disturbs another. */
  lemma UploadStep(setup: Setup, s: Service, e: Event, id: string)
    requires Sound(setup, s) && Fresh(setup, s, e)
    ensures Sound(setup, Next(setup, s, e))
    ensures Extends(setup, s, e, id) ==> id in s.uploads
    ensures Gathered(Next(setup, s, e), id) ==
            if Begins(setup, s, e, id) then Some([])
            else if Extends(setup, s, e, id) then Some(Gathered(s, id).value + e.request.chunk)
            else if Ends(s, e, id) then None
            else Gathered(s, id)
  {
    match e
    case PrintEnds(removed) => PrintEndKeeps(setup, s, removed);
    case Sweep(now, stuck) => SweepKeeps(setup, s, now, stuck);
    case Arrives(request, o) =>
      if !Gated(s, request) {
        match request
        case Ping =>
        case AbortPrint =>
        case OtherCommand(_) =>
        case BeginUpload(fileBytes, spool, settings) => BeginKeeps(setup, s, fileBytes, spool, settings, o);
        case AppendChunk(target, offset, chunk) => AppendKeeps(setup, s, target, offset, chunk, o);
        case CancelUpload(target) => CancelKeeps(setup, s, target, o);
        case CommitUpload(target) => CommitKeeps(setup, s, target, o);
      }
  }

  /** An upload keeps what it was begun with. */
  lemma RecordStep(setup: Setup, s: Service, e: Event, id: string)
    requires id in Next(setup, s, e).uploads && !Begins(setup, s, e, id)
    ensures id in s.uploads
    ensures var u, u' := s.uploads[id], Next(setup, s, e).uploads[id];
            u'.expected == u.expected && u'.settings == u.settings && u'.expectedBytes == u.expectedBytes
  {
  }

  /** What an event does to the printing job. A job starts only by a commit, keeps its file unchanged
      whatever happens, and ends only when the backend is done with it. */
  lemma PrintStep(setup: Setup, s: Service, e: Event)
    requires Sound(setup, s) && Fresh(setup, s, e)
    ensures s.printing.Some? && !e.PrintEnds? ==>
              && Next(setup, s, e).printing == s.printing
              && s.printing.value.path in Next(setup, s, e).files
              && Next(setup, s, e).files[s.printing.value.path] == s.files[s.printing.value.path]
    ensures s.printing.None? ==>
              (Next(setup, s, e).printing.Some? <==> exists id :: Submits(setup, s, e, id))
  {
    if s.printing.Some? && !e.PrintEnds? {
      PrintedFileStays(setup, s, e);
    }
    if s.printing.None? && e.Arrives? && e.request.CommitUpload? {
      assert Submits(setup, s, e, e.request.uploadId) <==> Next(setup, s, e).printing.Some?;
    }
  }

  lemma PrintedFileStays(setup: Setup, s: Service, e: Event)
    requires Sound(setup, s) && s.printing.Some? && !e.PrintEnds?
    ensures Next(setup, s, e).printing == s.printing
    ensures s.printing.value.path in Next(setup, s, e).files
    ensures Next(setup, s, e).files[s.printing.value.path] == s.files[s.printing.value.path]
  {
    if e.Sweep? {
      forall id | id in s.uploads
        ensures s.uploads[id].partialPath != s.printing.value.path
      {
        assert Owns(setup, s, id);
        NamesApart(setup.directory, id, s.printing.value.uploadId);
      }
    }
  }

  /** While a job prints, exactly the requests other than ping and abort are refused; the refused ones and the
      ping change nothing, and an abort only raises the backend's flag. */
  lemma RefusedWhilePrinting(setup: Setup, s: Service, request: Request, o: Outcome)
    requires s.printing.Some?
    ensures HandleRequest(setup, s, request, o).1 == Refused <==> !request.Ping? && !(request.AbortPrint? && o.works)
    ensures HandleRequest(setup, s, request, o).0 ==
            if request.AbortPrint? && o.works then s.(cancelRequested := true) else s
  {
  }

  /** The backend's flag is raised by an abort, cleared by the start of a job, and otherwise left alone. */
  lemma FlagStep(setup: Setup, s: Service, e: Event)
    ensures Next(setup, s, e).cancelRequested ==
            if e.Arrives? && e.request.AbortPrint? && ReplyTo(setup, s, e) == Forwarded then true
            else if e.Arrives? && e.request.CommitUpload? && ReplyTo(setup, s, e).Started? then false
            else s.cancelRequested
  {
  }

  /** What a submission hands over: the complete upload, verified and equal in metadata to what was announced. */
  lemma SubmissionStep(setup: Setup, s: Service, e: Event, id: string)
    requires Sound(setup, s) && Submits(setup, s, e, id)
    ensures id in s.uploads && Next(setup, s, e).printing.Some? && id !in Next(setup, s, e).uploads
    ensures var u, job, file := s.uploads[id], Next(setup, s, e).printing.value, Gathered(s, id).value;
            && job.uploadId == id && job.path == FinalOf(setup.directory, id) && job.settings == u.settings
            && job.path in Next(setup, s, e).files && Next(setup, s, e).files[job.path] == file
            && |file| == u.expectedBytes == HEADER_BYTES + u.expected.bodyBytes
            && setup.validate(file, job.path) == Some(job.spool) && SameJob(job.spool, u.expected)
  {
    assert Owns(setup, s, id);
    RenamedIsFinal(setup.directory, id);
    NamesApart(setup.directory, id, id);
  }

  /** Conversely a commit is accepted if the upload is complete, nothing prints, the file operations work and
      the file validates with the announced metadata. */
  lemma CommitAccepted(setup: Setup, s: Service, id: string, o: Outcome)
    requires Sound(setup, s) && s.printing.None? && id in s.uploads
    ensures Submits(setup, s, Arrives(CommitUpload(id), o), id) <==>
              var u, file := s.uploads[id], Gathered(s, id).value;
              && u.receivedBytes == u.expectedBytes && o.works && o.readable && FinalOf(setup.directory, id) !in s.files
              && setup.validate(file, FinalOf(setup.directory, id)).Some?
              && SameJob(setup.validate(file, FinalOf(setup.directory, id)).value, u.expected)
  {
    assert Owns(setup, s, id);
    RenamedIsFinal(setup.directory, id);
    NamesApart(setup.directory, id, id);
  }

  /** A begin request is accepted exactly when nothing prints, the announcement is coherent, the free storage
      covers the file and a fifth more, and the file can be created. */
  lemma BeginAcceptedExactly(setup: Setup, s: Service, fileBytes: UInt64, spool: SpoolInfo, settings: Settings,
                             o: Outcome)
    ensures Begins(setup, s, Arrives(BeginUpload(fileBytes, spool, settings), o), o.freshId) <==>
              && s.printing.None? && MetadataIsValid(spool) && spool.format <= 2 && |spool.sha256| == 32
              && spool.bodyOffset == HEADER_BYTES
              && spool.bodyBytes == ExpectedBodyBytes(spool) && fileBytes == HEADER_BYTES + spool.bodyBytes as int
              && o.available.Some? && fileBytes + fileBytes / 5 <= o.available.value && o.works
  {
    if MetadataIsValid(spool) && spool.bodyBytes == ExpectedBodyBytes(spool) {
      BodySizeExact(spool);
      Unwrapped(HEADER_BYTES + spool.bodyBytes as int);
      NoStorageWrap(HEADER_BYTES + spool.bodyBytes as int);
    }
  }

  lemma NoStorageWrap(fileBytes: int)
    requires 0 <= fileBytes < 0x8000_0000_0000_0000
    ensures StorageNeeded(fileBytes) == fileBytes + fileBytes / 5
  {
    Unwrapped(fileBytes + fileBytes / 5);
  }

  /** A chunk is accepted exactly when nothing prints, the upload is live, the chunk continues it, is not empty,
      is at most a mebibyte, does not overrun the announced length, and can be written. */
  lemma AppendAcceptedExactly(setup: Setup, s: Service, id: string, offset: UInt64, chunk: seq<Byte>, o: Outcome)
    requires Sound(setup, s)
    ensures Extends(setup, s, Arrives(AppendChunk(id, offset, chunk), o), id) <==>
              && s.printing.None? && id in s.uploads && offset == |Gathered(s, id).value|
              && 0 < |chunk| <= 1024 * 1024 && offset as int + |chunk| <= s.uploads[id].expectedBytes as int && o.works
  {
    if id in s.uploads {
      assert Owns(setup, s, id);
      TotalExact(s.uploads[id], chunk);
    }
  }

  /** The time an upload was last active is the time of its begin or of its last accepted chunk. */
  lemma ActivityStep(setup: Setup, s: Service, e: Event, id: string)
    requires Sound(setup, s) && id in Next(setup, s, e).uploads
    ensures Begins(setup, s, e, id) || Extends(setup, s, e, id) ==>
              Next(setup, s, e).uploads[id].lastActivityMs == e.outcome.now
    ensures !Begins(setup, s, e, id) && !Extends(setup, s, e, id) ==>
              id in s.uploads && Next(setup, s, e).uploads[id].lastActivityMs == s.uploads[id].lastActivityMs
  {
    match e
    case PrintEnds(_) =>
    case Sweep(_, _) =>
    case Arrives(request, o) =>
      if !Gated(s, request) {
        match request
        case BeginUpload(fileBytes, spool, settings) =>
        case AppendChunk(target, offset, chunk) =>
        case CommitUpload(target) =>
        case _ =>
      }
  }

  /** Every file was there at the start, belongs to a live upload, or is being printed. */
  ghost predicate Accounted(start: map<string, seq<Byte>>, s: Service) {
    forall path ::
        path in s.files ==> path in start || Live(s, path) || (s.printing.Some? && s.printing.value.path == path)
  }

  ghost predicate Live(s: Service, path: string) {
    exists id :: id in s.uploads && s.uploads[id].partialPath == path
  }

  /** Every removal the event asks for succeeds. */
  predicate Clean(e: Event) {
    match e
    case Arrives(_, o) => o.removed
    case PrintEnds(removed) => removed
    case Sweep(_, stuck) => stuck == {}
  }

  /** As long as removals succeed, the service leaves no file behind. */
  lemma AccountedStep(setup: Setup, start: map<string, seq<Byte>>, s: Service, e: Event)
    requires Accounted(start, s) && Clean(e) && Fresh(setup, s, e)
    requires s.printing.Some? && !e.PrintEnds? ==> Next(setup, s, e).printing == s.printing
    ensures Accounted(start, Next(setup, s, e))
  {
    var s' := Next(setup, s, e);
    forall path | path in s'.files && path !in start
      ensures Live(s', path) || (s'.printing.Some? && s'.printing.value.path == path)
    {
      if path in s.files && Live(s, path) {
        var id :| id in s.uploads && s.uploads[id].partialPath == path;
        if id in s'.uploads {
          assert s'.uploads[id].partialPath == path;
        }
      } else if path !in s.files {
        assert e.Arrives?;
        if e.request.BeginUpload? {
          assert s'.uploads[e.outcome.freshId].partialPath == path;
        } else if e.request.AppendChunk? {
          assert s'.uploads[e.request.uploadId].partialPath == path;
        }
      }
    }
  }
}
