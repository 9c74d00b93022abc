/** One client's attempt to upload a spool, as the history of the service shows it. */
module UploadAttempt {
  import opened RasterTypes
  import opened ByteCodec
  import opened SpoolFormat
  import opened PrinterService
  import opened UploadSteps
  import opened UploadRuns
  import opened PrinterServer
  import opened UploadHistory

  /** The run has just answered this request. */
  ghost predicate Answered(mid: Run, after: Run, request: Request, reply: Reply, o: Outcome, faulted: bool) {
    && mid.Valid() && after.Valid() && after == Extended(mid, Arrives(request, o)) && Continues(mid, after)
    && after.replies[|mid.events|] == reply
    && (Excused(mid.states[|mid.events|], request, o, mid.setup) || faulted)
  }

  /** How an attempt goes: the event that began the upload, its identifier, the events that are our requests,
      and the run as far as it has been followed. */
  datatype Attempt = Attempt(begin: nat, id: string, ours: set<nat>, seen: Run)

  /** The attempt was announced with this file length, metadata and settings. */
  ghost predicate Opened(run: Run, b: nat, fileBytes: nat, spool: SpoolInfo, settings: Settings) {
    && b < |run.events| && run.events[b].Arrives? && run.events[b].request.BeginUpload?
    && run.events[b].request.fileBytes == fileBytes && run.events[b].request.spool == spool &&
       run.events[b].request.settings == settings
  }

  /** `ours` names nothing but the announcement and requests about this upload. */
  ghost predicate OwnRequests(a: Attempt) {
    forall k :: k in a.ours ==> a.begin <= k < |a.seen.events| && (k == a.begin || Concerns(a.seen.events[k], a.id))
  }

  predicate Concerns(e: Event, id: string) {
    && e.Arrives?
    && match e.request
       case AppendChunk(uploadId, _, _) => uploadId == id
       case CommitUpload(uploadId) => uploadId == id
       case _ => false
  }

  /** Others stood in the way: the announcement came at a bad moment, or a later request of ours did, or the
      upload was meddled with. */
  ghost predicate Obstructed(a: Attempt) {
    if a.seen.BeginsAt(a.begin, a.id)
    then Hindered(a.seen, a.ours) || Meddled(a.seen, a.begin, |a.seen.events|, a.id, a.ours)
    else HinderedAt(a.seen, a.begin)
  }

  /** The attempt was begun at event `from` or later, by an announcement of this file, and everything that is
      counted as ours concerns its upload. */
  ghost predicate Began(a: Attempt, from: nat, fileBytes: nat, spool: SpoolInfo, settings: Settings) {
    && from <= a.begin && a.begin in a.ours && Opened(a.seen, a.begin, fileBytes, spool, settings) && OwnRequests(a)
    && (a.seen.BeginsAt(a.begin, a.id) || a.ours == {a.begin})
  }

  /** Of the events in `sent`, those not in `base` are this attempt's: up to the run followed they are exactly
      the ones counted as ours, and none of them has submitted anything but `handed`. */
  ghost predicate Ledger(a: Attempt, base: set<nat>, sent: set<nat>, run: Run, handed: Option<nat>) {
    && base <= sent && (forall k :: k in sent ==> k < |run.events|)
    && (forall k :: k in a.ours <==> k in sent && k !in base && k < |a.seen.events|)
    && (forall k: nat, id :: k in sent && k !in base && run.SubmitsAt(k, id) ==> handed == Some(k))
  }

  lemma LedgerContinues(a: Attempt, base: set<nat>, sent: set<nat>, run: Run, handed: Option<nat>, after: Run)
    requires Ledger(a, base, sent, run, handed) && Continues(run, after) && |run.replies| == |run.events|
    ensures Ledger(a, base, sent, after, handed)
  {
    forall k: nat, id | k in sent && k !in base && after.SubmitsAt(k, id)
      ensures handed == Some(k)
    {
      assert after.events[k] == run.events[k] && after.replies[k] == run.replies[k];
      assert run.SubmitsAt(k, id);
    }
  }

  /** Following the attempt further, while nothing of ours has happened. */
  lemma LedgerFollows(a: Attempt, base: set<nat>, sent: set<nat>, run: Run, handed: Option<nat>)
    requires Ledger(a, base, sent, run, handed) && forall k :: k in sent && k !in base ==> k < |a.seen.events|
    ensures Ledger(a.(seen := run), base, sent, run, handed)
  {
  }

  /** One more request of ours. */
  lemma LedgerGrows(a: Attempt, base: set<nat>, sent: set<nat>, mid: Run, after: Run, request: Request, o: Outcome,
                    handed: Option<nat>)
    requires Ledger(a, base, sent, mid, None) && a.seen == mid && mid.Valid() && after.Valid()
    requires after == Extended(mid, Arrives(request, o)) && Continues(mid, after) &&
             (forall k :: k in base ==> k < |mid.events|)
    requires forall id :: after.SubmitsAt(|mid.events|, id) ==> handed == Some(|mid.events|)
    ensures Ledger(a.(ours := a.ours + {|mid.events|}, seen := after), base, sent + {|mid.events|}, after, handed)
  {
    LedgerContinues(a, base, sent, mid, None, after);
  }

  /** One more request that was delivered although its sender does not know. */
  lemma LedgerLoses(a: Attempt, base: set<nat>, sent: set<nat>, mid: Run, after: Run, request: Request)
    requires Ledger(a, base, sent, mid, None) && mid.Valid() && after.Valid() && Continues(mid, after)
    requires |a.seen.events| <= |mid.events| < |after.events| && !request.CommitUpload?
    requires after.events[|mid.events|].Arrives? && after.events[|mid.events|].request == request
    ensures Ledger(a, base, sent + {|mid.events|}, after, None)
  {
    LedgerContinues(a, base, sent, mid, None, after);
  }

  /** So far the upload has been announced and `sent` bytes of the file have been sent. */
  ghost predicate Underway(a: Attempt, file: seq<Byte>, sent: nat, spool: SpoolInfo, settings: Settings) {
    Sending(a.seen, a.begin, a.id, a.ours, file, sent) && Opened(a.seen, a.begin, |file|, spool, settings) &&
      OwnRequests(a)
  }

  lemma UnderwayContinues(a: Attempt, after: Run, file: seq<Byte>, sent: nat, spool: SpoolInfo, settings: Settings)
    requires Underway(a, file, sent, spool, settings) && Continues(a.seen, after) && after.Valid()
    ensures Underway(a.(seen := after), file, sent, spool, settings)
  {
    SendingContinues(a.seen, after, a.begin, a.id, a.ours, file, sent);
    assert after.events[a.begin] == a.seen.events[a.begin];
  }

  /** A chunk of ours is accepted, or refused for a cause outside the client. */
  lemma ChunkAnswered(a: Attempt, after: Run, file: seq<Byte>, sent: UInt64, chunk: seq<Byte>, spool: SpoolInfo,
                      settings: Settings, reply: Reply, o: Outcome, faulted: bool)
    requires Underway(a, file, sent, spool, settings) &&
             Answered(a.seen, after, AppendChunk(a.id, sent, chunk), reply, o, faulted)
    requires 0 < |chunk| <= CHUNK_BYTES && sent as int + |chunk| <= |file| && chunk == file[sent..sent as int + |chunk|]
    ensures var a' := a.(ours := a.ours + {|a.seen.events|}, seen := after);
            && OwnRequests(a')
            && if reply.Received?
               then Underway(a', file, sent as int + |chunk|, spool, settings) else faulted || Obstructed(a')
  {
    var n := |a.seen.events|;
    var a' := a.(ours := a.ours + {n}, seen := after);
    assert after.events[a.begin] == a.seen.events[a.begin];
    if reply.Received? {
      SendingExtends(a.seen, after, a.begin, a.id, a.ours, file, sent, chunk, o);
    } else if !Obstructed(a') {
      StillUnmeddled(a, after);
      AnnouncedBy(a.seen, n, a.begin, a.id);
      ChunksSame(a.seen, after, n, a.id);
      ChunkRefused(after, n, a.id, sent, chunk, o);
    }
  }

  /** An attempt that is not obstructed later was not meddled with before. */
  lemma StillUnmeddled(a: Attempt, after: Run)
    requires Continues(a.seen, after) && a.seen.Valid() && after.Valid()
    requires !Meddled(after, a.begin, |after.events|, a.id, a.ours + {|a.seen.events|})
    ensures !Meddled(a.seen, a.begin, |a.seen.events|, a.id, a.ours)
  {
    forall k: nat | a.begin <= k < |a.seen.events| && k !in a.ours
      ensures !a.seen.ExtendsAt(k, a.id) && !a.seen.EndsAt(k, a.id)
    {
      assert after.events[k] == a.seen.events[k] && after.replies[k] == a.seen.replies[k] &&
             after.states[k] == a.seen.states[k];
      assert !after.ExtendsAt(k, a.id) && !after.EndsAt(k, a.id);
    }
  }

  lemma BeginReply(run: Run, k: nat, fileBytes: UInt64, spool: SpoolInfo, settings: Settings, o: Outcome)
    requires run.Valid() && k < |run.events| && run.events[k] == Arrives(BeginUpload(fileBytes, spool, settings), o)
    requires run.replies[k].Begun?
    ensures run.BeginsAt(k, run.replies[k].uploadId) && run.replies[k].chunkBytes == CHUNK_BYTES
  {
    assert run.StepsAt(k);
  }

  /** Whatever name the service stores this file under, it reads back as a spool with this metadata. */
  ghost predicate Sendable(setup: Setup, spool: SpoolInfo, file: seq<Byte>) {
    && |file| <= U64_MAX && Announceable(spool, |file|)
    && forall path :: setup.validate(file, path).Some? && SameJob(setup.validate(file, path).value, spool)
  }

  /** Event k handed the backend exactly this file. */
  ghost predicate Handed(run: Run, k: nat, id: string, file: seq<Byte>, spool: SpoolInfo, settings: Settings) {
    && run.SubmitsAt(k, id) && k + 1 < |run.states| && run.states[k + 1].printing.Some?
    && var s, job := run.states[k + 1], run.states[k + 1].printing.value;
       && job.uploadId == id && job.settings == settings && SameJob(job.spool, spool)
       && job.path in s.files && s.files[job.path] == file && run.setup.validate(file, job.path) == Some(job.spool)
  }

  /** A commit after the whole file hands exactly the file to the backend, or is refused for a cause outside
      the client. */
  lemma CommitAnswered(a: Attempt, after: Run, file: seq<Byte>, spool: SpoolInfo, settings: Settings,
                       reply: Reply, o: Outcome, faulted: bool)
    requires Underway(a, file, |file|, spool, settings) &&
             Answered(a.seen, after, CommitUpload(a.id), reply, o, faulted)
    ensures var n := |a.seen.events|; var a' := a.(ours := a.ours + {n}, seen := after);
            && OwnRequests(a')
            && if reply.Started? then Handed(after, n, a.id, file, spool, settings)
               else Sendable(after.setup, spool, file) ==> faulted || Obstructed(a')
  {
    var n := |a.seen.events|;
    var a' := a.(ours := a.ours + {n}, seen := after);
    assert after.events[a.begin] == a.seen.events[a.begin];
    ChunksSame(a.seen, after, n, a.id);
    assert file[..|file|] == file;
    if reply.Started? {
      CommitHands(after, n, a.begin, a.id, file, o);
    } else if Sendable(after.setup, spool, file) && !faulted && !Obstructed(a') {
      StillUnmeddled(a, after);
      CommitExcused(after, n, a.id, o);
      AnnouncedBy(a.seen, n, a.begin, a.id);
      CompleteUploadSubmits(after, n, a.id, o);
    }
  }

  lemma CommitHands(run: Run, n: nat, b: nat, id: string, file: seq<Byte>, o: Outcome)
    requires run.Valid() && n < |run.events| && run.events[n] == Arrives(CommitUpload(id), o) && run.replies[n].Started?
    requires run.BeginsAt(b, id) && run.events[b].request.fileBytes == |file| && file <= run.Chunks(n, id)
    ensures Handed(run, n, id, file, run.events[b].request.spool, run.events[b].request.settings)
  {
    CommitSubmits(run, n, id, o);
    var c: nat :| Delivery(run, n, c, id);
    assert b == c;
  }

  /** Where the files of a live upload are, only a failure can keep the commit from working. */
  lemma CommitExcused(run: Run, n: nat, id: string, o: Outcome)
    requires run.Valid() && n < |run.events| && run.events[n] == Arrives(CommitUpload(id), o) &&
             id in run.states[n].uploads
    requires Excused(run.states[n], CommitUpload(id), o, run.setup)
    ensures (o.works && o.readable) || HinderedAt(run, n)
  {
    EveryStateConsistent(run, n);
    assert Owns(run.setup, run.states[n], id);
    RenamedIsFinal(run.setup.directory, id);
  }

  /** What goes over the wire: the metadata without the sender's path. */
  function Transmitted(spool: SpoolInfo): SpoolInfo {
    spool.(path := "")
  }
}
