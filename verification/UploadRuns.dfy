/** Whole runs of the printer service: any interleaving of clients, failures, sweeps and prints. */
module UploadRuns {
  import opened RasterTypes
  import opened SpoolFormat
  import opened PrinterService
  import opened UploadSteps

  /** The states a service went through, the events between them and the replies it gave. */
  datatype Run = Run(setup: Setup, states: seq<Service>, events: seq<Event>, replies: seq<Reply>) {

    /** The run starts with a fresh service on some disk, every step is the service's, and identifiers are
        never handed out twice. */
    ghost predicate Valid() {
      && |states| == |events| + 1 && |replies| == |events|
      && states[0].uploads == map[] && states[0].printing.None?
      && (forall i: nat {:trigger StepsAt(i)} :: i < |events| ==> StepsAt(i))
      && (forall i: nat, j: nat, id: string :: i < j && BeginsAt(i, id) ==> !BeginsAt(j, id))
    }

    ghost predicate StepsAt(i: nat)
      requires |states| == |events| + 1 && |replies| == |events| && i < |events|
    {
      states[i + 1] == Next(setup, states[i], events[i]) && replies[i] == ReplyTo(setup, states[i], events[i])
    }

    predicate BeginsAt(i: nat, id: string) {
      i < |events| && i < |replies| && events[i].Arrives? && events[i].request.BeginUpload? &&
        replies[i] == Begun(id, CHUNK_BYTES)
    }

    predicate ExtendsAt(i: nat, id: string) {
      && i < |events| && i < |replies| && events[i].Arrives? && events[i].request.AppendChunk?
      && events[i].request.uploadId == id && replies[i].Received?
    }

    predicate SubmitsAt(i: nat, id: string) {
      && i < |events| && i < |replies| && events[i].Arrives? && events[i].request.CommitUpload?
      && events[i].request.uploadId == id && replies[i].Started?
    }

    predicate EndsAt(i: nat, id: string) {
      i < |events| && i < |states| && Ends(states[i], events[i], id)
    }

    /** The accepted chunks of upload `id` among the first i events, in order. */
    function Chunks(i: nat, id: string): seq<Byte> {
      if i == 0 then []
      else Chunks(i - 1, id) + if ExtendsAt(i - 1, id) then events[i - 1].request.chunk else []
    }

    /** When upload `id` was last begun or extended among the first i events. */
    function LastTouch(i: nat, id: string): Option<int> {
      if i == 0 then None
      else if BeginsAt(i - 1, id) || ExtendsAt(i - 1, id) then Some(events[i - 1].outcome.now)
      else LastTouch(i - 1, id)
    }

    /** Upload `id` was begun before event i. */
    ghost predicate Used(i: nat, id: string) {
      exists b: nat :: b < i && BeginsAt(b, id)
    }

    /** What an upload was begun with is what its record holds. */
    ghost predicate Announced(b: nat, u: Upload) {
      && b < |events| && events[b].Arrives? && events[b].request.BeginUpload?
      && u.expected == events[b].request.spool && u.settings == events[b].request.settings
      && u.expectedBytes == events[b].request.fileBytes
    }

    /** A live upload matches its history: it was begun before, with the announcement it is held to, and it
        holds exactly its accepted chunks. */
    ghost predicate Matches(i: nat, id: string)
      requires i < |states| && id in states[i].uploads
    {
      && Gathered(states[i], id) == Some(Chunks(i, id))
      && exists b: nat :: b < i && BeginsAt(b, id) && Announced(b, states[i].uploads[id])
    }

    /** An identifier that has not been begun is not live and has no chunks. */
    ghost predicate Unused(i: nat, id: string)
      requires i < |states|
    {
      id !in states[i].uploads && Chunks(i, id) == []
    }

    ghost predicate Consistent(i: nat)
      requires i < |states|
    {
      && Sound(setup, states[i])
      && (forall id :: id in states[i].uploads ==> Matches(i, id))
      && (forall id :: Used(i, id) || Unused(i, id))
    }
  }

  /** One step, as the run records it. */
  lemma RecordedStep(run: Run, i: nat, id: string)
    requires run.Valid() && i < |run.events| && Sound(run.setup, run.states[i])
    requires forall other :: run.BeginsAt(i, other) ==> other !in run.states[i].uploads
    ensures Sound(run.setup, run.states[i + 1])
    ensures run.ExtendsAt(i, id) ==> id in run.states[i].uploads
    ensures Gathered(run.states[i + 1], id) ==
            if run.BeginsAt(i, id) then Some([])
            else if run.ExtendsAt(i, id) then Some(Gathered(run.states[i], id).value + run.events[i].request.chunk)
            else if run.EndsAt(i, id) then None
            else Gathered(run.states[i], id)
  {
    assert run.StepsAt(i);
    var s, e := run.states[i], run.events[i];
    if e.Arrives? && e.request.BeginUpload? && run.replies[i].Begun? {
      assert run.BeginsAt(i, e.outcome.freshId);
    }
    UploadStep(run.setup, s, e, id);
  }

  lemma RecordStays(run: Run, i: nat, id: string)
    requires run.Valid() && i < |run.events| && id in run.states[i + 1].uploads && !run.BeginsAt(i, id)
    ensures id in run.states[i].uploads
    ensures var u, u' := run.states[i].uploads[id], run.states[i + 1].uploads[id];
            u'.expected == u.expected && u'.settings == u.settings && u'.expectedBytes == u.expectedBytes
  {
    assert run.StepsAt(i);
    RecordStep(run.setup, run.states[i], run.events[i], id);
  }

  lemma BeginRecords(run: Run, i: nat, id: string)
    requires run.Valid() && run.BeginsAt(i, id)
    ensures id in run.states[i + 1].uploads && run.Announced(i, run.states[i + 1].uploads[id])
  {
    assert run.StepsAt(i);
  }

  /** A new identifier is not live, and nothing has been gathered under it. */
  lemma FreshStep(run: Run, i: nat)
    requires run.Valid() && i < |run.events| && run.Consistent(i)
    ensures forall id :: run.BeginsAt(i, id) ==> run.Unused(i, id)
  {
    forall id | run.BeginsAt(i, id)
      ensures run.Unused(i, id)
    {
      assert !run.Used(i, id);
    }
  }

  lemma ChunksStep(run: Run, i: nat, id: string)
    ensures run.ExtendsAt(i, id) ==> run.Chunks(i + 1, id) == run.Chunks(i, id) + run.events[i].request.chunk
    ensures !run.ExtendsAt(i, id) ==> run.Chunks(i + 1, id) == run.Chunks(i, id)
  {
    var next := i + 1;
    assert run.Chunks(next, id) == run.Chunks(next - 1, id) +
           if run.ExtendsAt(i, id) then run.events[i].request.chunk else [];
  }

  lemma GatheredStep(run: Run, i: nat, id: string)
    requires run.Valid() && i < |run.events| && run.Consistent(i) && id in run.states[i + 1].uploads
    ensures Gathered(run.states[i + 1], id) == Some(run.Chunks(i + 1, id))
  {
    FreshStep(run, i);
    RecordedStep(run, i, id);
    ChunksStep(run, i, id);
    assert Gathered(run.states[i + 1], id).Some?;
    if run.BeginsAt(i, id) {
      assert run.Unused(i, id);
    } else {
      StillGathered(run, i, id);
    }
  }

  lemma StillGathered(run: Run, i: nat, id: string)
    requires run.Valid() && i < |run.events| && run.Consistent(i) && id in run.states[i + 1].uploads &&
             !run.BeginsAt(i, id)
    ensures Gathered(run.states[i], id) == Some(run.Chunks(i, id))
  {
    RecordStays(run, i, id);
    assert run.Matches(i, id);
  }

  lemma MatchesStep(run: Run, i: nat, id: string)
    requires run.Valid() && i < |run.events| && run.Consistent(i) && id in run.states[i + 1].uploads
    ensures run.Matches(i + 1, id)
  {
    GatheredStep(run, i, id);
    if run.BeginsAt(i, id) {
      BeginRecords(run, i, id);
    } else {
      AnnouncementStays(run, i, id);
    }
  }

  lemma AnnouncementStays(run: Run, i: nat, id: string)
    requires run.Valid() && i < |run.events| && run.Consistent(i) && id in run.states[i + 1].uploads &&
             !run.BeginsAt(i, id)
    ensures id in run.states[i].uploads && run.Matches(i, id)
    ensures exists b: nat :: b < i && run.BeginsAt(b, id) && run.Announced(b, run.states[i + 1].uploads[id])
  {
    RecordStays(run, i, id);
    assert run.Matches(i, id);
    var b: nat :| b < i && run.BeginsAt(b, id) && run.Announced(b, run.states[i].uploads[id]);
    assert run.BeginsAt(b, id) && run.Announced(b, run.states[i + 1].uploads[id]);
  }

  lemma UnusedStep(run: Run, i: nat, id: string)
    requires run.Valid() && i < |run.events| && run.Consistent(i)
    ensures run.Used(i + 1, id) || run.Unused(i + 1, id)
  {
    FreshStep(run, i);
    RecordedStep(run, i, id);
    if run.Used(i, id) {
      var b: nat :| b < i && run.BeginsAt(b, id);
      assert run.Used(i + 1, id);
    }
  }

  lemma ConsistentStep(run: Run, i: nat)
    requires run.Valid() && i < |run.events| && run.Consistent(i)
    ensures run.Consistent(i + 1)
  {
    var next := i + 1;
    FreshStep(run, i);
    RecordedStep(run, i, "");
    forall id | id in run.states[next].uploads
      ensures run.Matches(next, id)
    {
      MatchesStep(run, i, id);
    }
    forall id
      ensures run.Used(next, id) || run.Unused(next, id)
    {
      UnusedStep(run, i, id);
    }
  }

  /** In every reachable state of every run, the invariant holds and every live upload matches its history. */
  lemma {:induction false} EveryStateConsistent(run: Run, i: nat)
    requires run.Valid() && i < |run.states|
    ensures run.Consistent(i)
  {
    if i > 0 {
      EveryStateConsistent(run, i - 1);
      ConsistentStep(run, i - 1);
    }
  }

  /** The partial file of every live upload is the in-order concatenation of its accepted chunks; its length
      is the received count, which never passes the announced length. */
  lemma LiveUploads(run: Run, i: nat, id: string)
    requires run.Valid() && i < |run.states| && id in run.states[i].uploads
    ensures var s := run.states[i]; var u := s.uploads[id];
            && u.partialPath in s.files && s.files[u.partialPath] == run.Chunks(i, id)
            && |run.Chunks(i, id)| == u.receivedBytes <= u.expectedBytes
    ensures exists b: nat :: b < i && run.BeginsAt(b, id) && run.Announced(b, run.states[i].uploads[id])
  {
    EveryStateConsistent(run, i);
    assert run.Matches(i, id) && Owns(run.setup, run.states[i], id);
  }

  /** What the backend is handed by event i: the upload begun by event b. */
  ghost predicate Delivery(run: Run, i: nat, b: nat, id: string)
    requires i + 1 < |run.states| && run.states[i + 1].printing.Some?
  {
    var s, job := run.states[i + 1], run.states[i + 1].printing.value;
    && b < i && run.BeginsAt(b, id)
    && var announced := run.events[b].request;
    && job.uploadId == id && job.settings == announced.settings
    && job.path in s.files && s.files[job.path] == run.Chunks(i, id) && |run.Chunks(i, id)| == announced.fileBytes
    && run.setup.validate(run.Chunks(i, id), job.path) == Some(job.spool) && SameJob(job.spool, announced.spool)
  }

  lemma SubmissionRecorded(run: Run, i: nat, id: string)
    requires run.Valid() && run.SubmitsAt(i, id) && Sound(run.setup, run.states[i])
    ensures id in run.states[i].uploads && id !in run.states[i + 1].uploads && run.states[i + 1].printing.Some?
    ensures run.states[i].printing.None?
    ensures var u, job, file := run.states[i].uploads[id], run.states[i + 1].printing.value,
            Gathered(run.states[i], id).value;
            && job.uploadId == id && job.settings == u.settings
            && job.path in run.states[i + 1].files && run.states[i + 1].files[job.path] == file &&
               |file| == u.expectedBytes
            && run.setup.validate(file, job.path) == Some(job.spool) && SameJob(job.spool, u.expected)
  {
    assert run.StepsAt(i);
    SubmissionStep(run.setup, run.states[i], run.events[i], id);
  }

  /** Whatever reaches the backend is a complete upload: its accepted chunks in order, as long as announced,
      verified, with the metadata and the settings of its begin request. */
  lemma OnlyCompleteUploadsPrint(run: Run, i: nat, id: string)
    requires run.Valid() && run.SubmitsAt(i, id)
    ensures run.states[i + 1].printing.Some? && exists b: nat :: Delivery(run, i, b, id)
  {
    EveryStateConsistent(run, i);
    SubmissionRecorded(run, i, id);
    assert run.Matches(i, id);
    var b: nat :| b < i && run.BeginsAt(b, id) && run.Announced(b, run.states[i].uploads[id]);
    assert Delivery(run, i, b, id);
  }

  /** Conversely the backend holds a job only because some upload was submitted and the print is not over. */
  lemma {:induction false} PrintingHasCause(run: Run, j: nat)
    requires run.Valid() && j < |run.states| && run.states[j].printing.Some?
    ensures exists i: nat :: i < j && run.SubmitsAt(i, run.states[j].printing.value.uploadId) &&
              run.states[i + 1].printing == run.states[j].printing
  {
    EveryStateConsistent(run, j - 1);
    FreshStep(run, j - 1);
    PrintRecorded(run, j - 1);
    if run.states[j - 1].printing.Some? {
      PrintingHasCause(run, j - 1);
    } else {
      var id :| run.SubmitsAt(j - 1, id);
      SubmissionRecorded(run, j - 1, id);
    }
  }

  lemma PrintRecorded(run: Run, i: nat)
    requires run.Valid() && i < |run.events| && Sound(run.setup, run.states[i])
    requires forall other :: run.BeginsAt(i, other) ==> other !in run.states[i].uploads
    ensures var s, s' := run.states[i], run.states[i + 1];
            && (s.printing.Some? && !run.events[i].PrintEnds? ==>
                 && s'.printing == s.printing && s.printing.value.path in s'.files
                 && s'.files[s.printing.value.path] == s.files[s.printing.value.path])
            && (s.printing.Some? && run.events[i].PrintEnds? ==> s'.printing.None?)
            && (s.printing.None? ==> (s'.printing.Some? <==> exists id :: run.SubmitsAt(i, id)))
  {
    assert run.StepsAt(i);
    var s, e := run.states[i], run.events[i];
    if e.Arrives? && e.request.BeginUpload? && run.replies[i].Begun? {
      assert run.BeginsAt(i, e.outcome.freshId);
    }
    PrintStep(run.setup, s, e);
    if s.printing.None? && run.states[i + 1].printing.Some? {
      var id :| Submits(run.setup, s, e, id);
      assert run.SubmitsAt(i, id);
    }
    forall id | run.SubmitsAt(i, id)
      ensures Submits(run.setup, s, e, id)
    {
    }
  }

  /** An identifier that has been used and is no longer live never comes back. */
  lemma {:induction false} NeverBack(run: Run, i: nat, j: nat, id: string)
    requires run.Valid() && i <= j < |run.states| && run.Used(i, id) && id !in run.states[i].uploads
    ensures id !in run.states[j].uploads
  {
    if i < j {
      NeverBack(run, i, j - 1, id);
      EveryStateConsistent(run, j - 1);
      FreshStep(run, j - 1);
      RecordedStep(run, j - 1, id);
    }
  }

  /** Each upload is submitted at most once. */
  lemma SubmittedAtMostOnce(run: Run, i: nat, j: nat, id: string)
    requires run.Valid() && run.SubmitsAt(i, id) && run.SubmitsAt(j, id)
    ensures i == j
  {
    SubmittedIsGone(run, i, id);
    SubmittedIsGone(run, j, id);
    if i < j {
      NeverBack(run, i + 1, j, id);
    } else if j < i {
      NeverBack(run, j + 1, i, id);
    }
  }

  lemma SubmittedIsGone(run: Run, i: nat, id: string)
    requires run.Valid() && run.SubmitsAt(i, id)
    ensures id in run.states[i].uploads && id !in run.states[i + 1].uploads && run.Used(i + 1, id)
  {
    EveryStateConsistent(run, i);
    SubmissionRecorded(run, i, id);
    assert run.Matches(i, id);
  }

  /** From its submission until the backend is done, a job keeps the printer to itself: it stays the printing
      job, its file stays on the disk unchanged, and nothing else is submitted. */
  lemma {:induction false} PrintsAlone(run: Run, i: nat, j: nat)
    requires run.Valid() && i <= j < |run.states| && run.states[i].printing.Some?
    requires forall k :: i <= k < j ==> !run.events[k].PrintEnds?
    ensures run.states[j].printing == run.states[i].printing
    ensures var path := run.states[i].printing.value.path;
            path in run.states[i].files && path in run.states[j].files &&
              run.states[j].files[path] == run.states[i].files[path]
    ensures forall k, id :: i <= k < j ==> !run.SubmitsAt(k, id)
  {
    EveryStateConsistent(run, i);
    if i < j {
      PrintsAlone(run, i, j - 1);
      EveryStateConsistent(run, j - 1);
      FreshStep(run, j - 1);
      PrintRecorded(run, j - 1);
      var last := j - 1;
      forall id
        ensures !run.SubmitsAt(last, id)
      {
        if run.SubmitsAt(last, id) {
          SubmissionRecorded(run, last, id);
        }
      }
    }
  }

  /** No event of others disturbs an upload: until something extends or ends it, it stays as it is. */
  lemma {:induction false} Undisturbed(run: Run, i: nat, j: nat, id: string)
    requires run.Valid() && i <= j < |run.states| && id in run.states[i].uploads
    requires forall k :: i <= k < j ==> !run.ExtendsAt(k, id) && !run.EndsAt(k, id)
    ensures id in run.states[j].uploads && Gathered(run.states[j], id) == Gathered(run.states[i], id)
  {
    if i < j {
      Undisturbed(run, i, j - 1, id);
      EveryStateConsistent(run, j - 1);
      FreshStep(run, j - 1);
      RecordedStep(run, j - 1, id);
    }
  }

  /** If every removal succeeds, the disk never holds anything but what it held at the start, the partial files
      of live uploads, and the file being printed. */
  lemma {:induction false} NothingLeftBehind(run: Run, i: nat)
    requires run.Valid() && i < |run.states| && (forall k :: 0 <= k < i ==> Clean(run.events[k]))
    ensures Accounted(run.states[0].files, run.states[i])
  {
    if i > 0 {
      NothingLeftBehind(run, i - 1);
      EveryStateConsistent(run, i - 1);
      FreshStep(run, i - 1);
      PrintRecorded(run, i - 1);
      AccountedRecorded(run, i - 1);
    }
  }

  lemma AccountedRecorded(run: Run, i: nat)
    requires run.Valid() && i < |run.events| && Accounted(run.states[0].files, run.states[i]) && Clean(run.events[i])
    requires forall other :: run.BeginsAt(i, other) ==> other !in run.states[i].uploads
    requires run.states[i].printing.Some? && !run.events[i].PrintEnds? ==>
              run.states[i + 1].printing == run.states[i].printing
    ensures Accounted(run.states[0].files, run.states[i + 1])
  {
    assert run.StepsAt(i);
    if run.events[i].Arrives? && run.events[i].request.BeginUpload? && run.replies[i].Begun? {
      assert run.BeginsAt(i, run.events[i].outcome.freshId);
    }
    AccountedStep(run.setup, run.states[0].files, run.states[i], run.events[i]);
  }

  /** A live upload remembers when it was last begun or extended. */
  lemma {:induction false} ActivityRecorded(run: Run, i: nat, id: string)
    requires run.Valid() && i < |run.states| && id in run.states[i].uploads
    ensures run.LastTouch(i, id) == Some(run.states[i].uploads[id].lastActivityMs)
  {
    EveryStateConsistent(run, i - 1);
    assert run.StepsAt(i - 1);
    ActivityStep(run.setup, run.states[i - 1], run.events[i - 1], id);
    if !run.BeginsAt(i - 1, id) && !run.ExtendsAt(i - 1, id) {
      ActivityRecorded(run, i - 1, id);
    }
  }

  /** A sweep ends an upload exactly when nothing has begun or extended it for five minutes. */
  lemma ExpiryExact(run: Run, i: nat, id: string)
    requires run.Valid() && i < |run.events| && run.events[i].Sweep? && id in run.states[i].uploads
    ensures run.LastTouch(i, id).Some?
    ensures id !in run.states[i + 1].uploads <==> run.events[i].now - run.LastTouch(i, id).value >= 300_000
  {
    ActivityRecorded(run, i, id);
    assert run.StepsAt(i);
  }

  /** Event k is a request about upload `id`. */
  predicate AsksAt(run: Run, k: nat, id: string) {
    && k < |run.events| && run.events[k].Arrives?
    && match run.events[k].request
       case AppendChunk(uploadId, _, _) => uploadId == id
       case CancelUpload(uploadId) => uploadId == id
       case CommitUpload(uploadId) => uploadId == id
       case _ => false
  }

  /** Event k is a sweep at least five minutes after upload `id` was last begun or extended among the first i events. */
  predicate ExpiresAt(run: Run, i: nat, k: nat, id: string)
    requires i <= |run.events| && |run.replies| == |run.events|
  {
    k < |run.events| && run.events[k].Sweep? && run.LastTouch(i, id).Some? &&
      run.events[k].now - run.LastTouch(i, id).value >= 300_000
  }

  /** A request to cancel an upload while a job prints is refused, and unless its owner asks again the upload then
      stays live, file and all, for as long as no sweep finds it idle for five minutes: only that ends it. */
  lemma RefusedCancelStrands(run: Run, i: nat, j: nat, id: string)
    requires run.Valid() && i < j < |run.states| && id in run.states[i].uploads && run.states[i].printing.Some?
    requires AsksAt(run, i, id) && run.events[i].request == CancelUpload(id)
    requires forall k: nat :: i < k < j ==> !AsksAt(run, k, id)
    ensures run.replies[i] == Refused
    ensures id in run.states[j].uploads <==> forall k: nat :: i < k < j ==> !ExpiresAt(run, i, k, id)
    ensures id in run.states[j].uploads ==> Gathered(run.states[j], id) == Gathered(run.states[i], id)
  {
    assert run.StepsAt(i);
    EveryStateConsistent(run, i);
    RecordedStep(run, i, id);
    Neglected(run, i, j, id);
  }

  /** Upload `id` is as it was after the first i events. */
  ghost predicate Stays(run: Run, i: nat, j: nat, id: string)
    requires i < |run.states| && j < |run.states|
  {
    && id in run.states[j].uploads && Gathered(run.states[j], id) == Gathered(run.states[i], id)
    && run.LastTouch(j, id) == run.LastTouch(i, id)
  }

  /** Whether an upload nobody asks about survives, over a stretch of the run. */
  lemma {:induction false} Neglected(run: Run, i: nat, j: nat, id: string)
    requires run.Valid() && i < j < |run.states| && id in run.states[i].uploads && Stays(run, i, i + 1, id)
    requires forall k: nat :: i < k < j ==> !AsksAt(run, k, id)
    ensures id in run.states[j].uploads <==> forall k: nat :: i < k < j ==> !ExpiresAt(run, i, k, id)
    ensures id in run.states[j].uploads ==> Stays(run, i, j, id)
  {
    var last := j - 1;
    if i < last {
      Neglected(run, i, last, id);
      if id in run.states[last].uploads {
        NeglectedStep(run, i, last, id);
      } else {
        LiveUploads(run, i, id);
        NeverBack(run, last, j, id);
      }
    }
  }

  lemma NeglectedStep(run: Run, i: nat, k: nat, id: string)
    requires run.Valid() && i <= k < |run.events| && Stays(run, i, k, id) && !AsksAt(run, k, id)
    ensures id in run.states[k + 1].uploads <==> !ExpiresAt(run, i, k, id)
    ensures id in run.states[k + 1].uploads ==> Stays(run, i, k + 1, id)
  {
    EveryStateConsistent(run, k);
    FreshStep(run, k);
    ActivityRecorded(run, k, id);
    RecordedStep(run, k, id);
  }

  /** Until its print is over, the backend's flag says whether the backend has taken an abort since the job was
      submitted. One it took before, however shortly, is forgotten. */
  lemma {:induction false} AbortRecorded(run: Run, i: nat, j: nat, id: string)
    requires run.Valid() && run.SubmitsAt(i, id) && i < j < |run.states|
    requires forall k :: i < k < j ==> !run.events[k].PrintEnds?
    ensures run.states[j].cancelRequested <==> exists k :: i < k < j && AbortsAt(run, k)
  {
    var n := j - 1;
    FlagRecorded(run, n);
    if n > i {
      AbortRecorded(run, i, n, id);
      EveryStateConsistent(run, i);
      SubmissionRecorded(run, i, id);
      PrintsAlone(run, i + 1, n);
      RefusedNext(run, n);
    }
  }

  lemma FlagRecorded(run: Run, n: nat)
    requires run.Valid() && n < |run.events|
    ensures run.states[n + 1].cancelRequested <==>
              AbortsAt(run, n) || (run.states[n].cancelRequested && !run.replies[n].Started?)
  {
    assert run.StepsAt(n);
    FlagStep(run.setup, run.states[n], run.events[n]);
  }

  /** Event k is an abort the backend has taken. */
  predicate AbortsAt(run: Run, k: nat) {
    && k < |run.events| && k < |run.replies| && run.events[k].Arrives? && run.events[k].request.AbortPrint?
    && run.replies[k] == Forwarded
  }

  /** While a job prints no other starts. */
  lemma RefusedNext(run: Run, n: nat)
    requires run.Valid() && n < |run.events| && run.states[n].printing.Some?
    ensures !run.replies[n].Started?
  {
    assert run.StepsAt(n);
  }
}
