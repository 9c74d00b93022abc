/** What an uploading client can conclude from a run it takes part in. */
module UploadHistory {
  import opened RasterTypes
  import opened ByteCodec
  import opened SpoolFormat
  import opened PrinterService
  import opened UploadSteps
  import opened UploadRuns
  import opened PrinterServer

  /** Accepted chunks are never taken back. */
  lemma {:induction false} ChunksGrow(run: Run, i: nat, j: nat, id: string)
    requires i <= j
    ensures run.Chunks(i, id) <= run.Chunks(j, id)
  {
    if i < j {
      ChunksGrow(run, i, j - 1, id);
    }
  }

  /** The past does not change. */
  lemma {:induction false} ChunksSame(before: Run, after: Run, i: nat, id: string)
    requires Continues(before, after) && i <= |before.events| == |before.replies|
    ensures before.Chunks(i, id) == after.Chunks(i, id)
  {
    if i > 0 {
      ChunksSame(before, after, i - 1, id);
      assert after.events[i - 1] == before.events[i - 1] && after.replies[i - 1] == before.replies[i - 1];
    }
  }

  /** Some event that is not among `ours` extended or ended upload `id` between b and n. */
  ghost predicate Meddled(run: Run, b: nat, n: nat, id: string, ours: set<nat>) {
    exists k: nat :: b <= k < n && k !in ours && (run.ExtendsAt(k, id) || run.EndsAt(k, id))
  }

  /** An upload nobody meddles with waits for its client. */
  lemma Waits(run: Run, b: nat, i: nat, j: nat, id: string, ours: set<nat>)
    requires run.Valid() && b <= i <= j < |run.states| && id in run.states[i].uploads
    requires !Meddled(run, b, j, id, ours) && (forall k :: k in ours ==> k < i)
    ensures id in run.states[j].uploads && run.Chunks(j, id) == run.Chunks(i, id)
  {
    forall k: nat | i <= k < j
      ensures !run.ExtendsAt(k, id) && !run.EndsAt(k, id)
    {
      assert k !in ours;
    }
    Undisturbed(run, i, j, id);
    LiveUploads(run, i, id);
    LiveUploads(run, j, id);
  }

  /** An accepted chunk starts where the upload ended and is there afterwards. */
  lemma ChunkAccepted(run: Run, k: nat, id: string, offset: UInt64, chunk: seq<Byte>, o: Outcome)
    requires run.Valid() && k < |run.events| && run.events[k] == Arrives(AppendChunk(id, offset, chunk), o)
    requires run.replies[k].Received?
    ensures run.ExtendsAt(k, id) && |run.Chunks(k, id)| == offset && run.Chunks(k + 1, id) == run.Chunks(k, id) + chunk
    ensures id in run.states[k + 1].uploads
  {
    assert run.StepsAt(k);
    assert id in run.states[k].uploads;
    LiveUploads(run, k, id);
    ChunksStep(run, k, id);
  }

  /** Why a chunk that fits is refused. */
  lemma ChunkRefused(run: Run, k: nat, id: string, offset: UInt64, chunk: seq<Byte>, o: Outcome)
    requires run.Valid() && k < |run.events| && run.events[k] == Arrives(AppendChunk(id, offset, chunk), o)
    requires id in run.states[k].uploads && |run.Chunks(k, id)| == offset && 0 < |chunk| <= CHUNK_BYTES
    requires offset as int + |chunk| <= run.states[k].uploads[id].expectedBytes as int
    ensures run.replies[k].Received? || HinderedAt(run, k) || !o.works
  {
    assert run.StepsAt(k);
    LiveUploads(run, k, id);
    Unwrapped(offset as int + |chunk|);
  }

  /** What an accepted commit submits. */
  lemma CommitSubmits(run: Run, k: nat, id: string, o: Outcome)
    requires run.Valid() && k < |run.events| && run.events[k] == Arrives(CommitUpload(id), o) && run.replies[k].Started?
    ensures run.SubmitsAt(k, id) && run.states[k + 1].printing.Some? && exists b: nat :: Delivery(run, k, b, id)
  {
    OnlyCompleteUploadsPrint(run, k, id);
  }

  /** A complete upload that validates is submitted unless a file operation fails, the final name is taken or
      another job prints. */
  lemma CompleteUploadSubmits(run: Run, k: nat, id: string, o: Outcome)
    requires run.Valid() && k < |run.events| && run.events[k] == Arrives(CommitUpload(id), o)
    requires id in run.states[k].uploads && |run.Chunks(k, id)| == run.states[k].uploads[id].expectedBytes
    requires var uploaded := run.setup.validate(run.Chunks(k, id), FinalOf(run.setup.directory, id));
             uploaded.Some? && SameJob(uploaded.value, run.states[k].uploads[id].expected)
    requires o.works && o.readable
    ensures run.replies[k].Started? || HinderedAt(run, k)
  {
    assert run.StepsAt(k);
    EveryStateConsistent(run, k);
    LiveUploads(run, k, id);
    if run.states[k].printing.None? {
      CommitAccepted(run.setup, run.states[k], id, o);
    }
  }

  /** The upload begun by event b has been sent `sent` bytes of the file. */
  ghost predicate Sending(run: Run, b: nat, id: string, ours: set<nat>, file: seq<Byte>, sent: nat)
  {
    && run.Valid() && sent <= |file| && run.BeginsAt(b, id)
    && (forall k :: k in ours ==> k < |run.events|)
    && file[..sent] <= run.Chunks(|run.events|, id)
    && (!Meddled(run, b, |run.events|, id, ours) ==>
          id in run.states[|run.events|].uploads && run.Chunks(|run.events|, id) == file[..sent])
  }

  /** Others pass by. */
  lemma SendingContinues(before: Run, after: Run, b: nat, id: string, ours: set<nat>, file: seq<Byte>, sent: nat)
    requires Sending(before, b, id, ours, file, sent) && Continues(before, after) && after.Valid()
    ensures Sending(after, b, id, ours, file, sent)
  {
    var i, j := |before.events|, |after.events|;
    ChunksSame(before, after, i, id);
    ChunksGrow(after, i, j, id);
    assert after.BeginsAt(b, id);
    if !Meddled(after, b, j, id, ours) {
      MeddledBefore(before, after, b, id, ours);
      assert after.states[i] == before.states[i];
      Waits(after, b, i, j, id, ours);
    }
  }

  lemma MeddledBefore(before: Run, after: Run, b: nat, id: string, ours: set<nat>)
    requires Continues(before, after) && before.Valid() && after.Valid()
    ensures Meddled(before, b, |before.events|, id, ours) ==> Meddled(after, b, |after.events|, id, ours)
  {
    if k: nat :| b <= k < |before.events| && k !in ours && (before.ExtendsAt(k, id) || before.EndsAt(k, id)) {
      assert after.events[k] == before.events[k] && after.replies[k] == before.replies[k] &&
        after.states[k] == before.states[k];
      assert after.ExtendsAt(k, id) || after.EndsAt(k, id);
    }
  }

  /** A client's own accepted chunk is added to what was sent: had another client added or removed anything,
      the offset would not have been accepted. */
  lemma SendingExtends(before: Run, after: Run, b: nat, id: string, ours: set<nat>, file: seq<Byte>, sent: UInt64,
                       chunk: seq<Byte>, o: Outcome)
    requires Sending(before, b, id, ours, file, sent) &&
             after == Extended(before, Arrives(AppendChunk(id, sent, chunk), o)) && after.Valid()
    requires Continues(before, after) && after.replies[|before.events|].Received?
    requires sent as int + |chunk| <= |file| && chunk == file[sent..sent as int + |chunk|]
    ensures Sending(after, b, id, ours + {|before.events|}, file, sent as int + |chunk|)
  {
    var n := |before.events|;
    ChunkAccepted(after, n, id, sent, chunk, o);
    ChunksSame(before, after, n, id);
    assert after.Chunks(n, id) == file[..sent];
    assert file[..sent] + chunk == file[..sent as int + |chunk|];
    assert after.BeginsAt(b, id);
  }

  /** A live upload is held to the announcement of the event that began it. */
  lemma AnnouncedBy(run: Run, n: nat, b: nat, id: string)
    requires run.Valid() && n < |run.states| && id in run.states[n].uploads && run.BeginsAt(b, id)
    ensures run.Announced(b, run.states[n].uploads[id])
  {
    LiveUploads(run, n, id);
    var c: nat :| c < n && run.BeginsAt(c, id) && run.Announced(c, run.states[n].uploads[id]);
    assert b == c;
  }

  /** A request that arrived at a bad moment: while a job was printing, when storage was short, or with a file
      of the upload's final name in the way. */
  ghost predicate HinderedAt(run: Run, k: nat) {
    && k < |run.events| && k < |run.states| && run.events[k].Arrives?
    && var s, request, o := run.states[k], run.events[k].request, run.events[k].outcome;
       || s.printing.Some?
       || (request.BeginUpload? && (o.available.None? || o.available.value < StorageNeeded(request.fileBytes)))
       || (request.CommitUpload? && FinalOf(run.setup.directory, request.uploadId) in s.files)
  }

  /** One of our requests arrived at a bad moment. */
  ghost predicate Hindered(run: Run, ours: set<nat>) {
    exists k :: k in ours && HinderedAt(run, k)
  }

  /** An announced upload begins unless it is hindered. */
  lemma BeginAccepted(run: Run, k: nat, fileBytes: UInt64, spool: SpoolInfo, settings: Settings, o: Outcome)
    requires run.Valid() && k < |run.events| && run.events[k] == Arrives(BeginUpload(fileBytes, spool, settings), o)
    requires Announceable(spool, fileBytes) && o.works
    ensures (run.replies[k].Begun? && run.replies[k].chunkBytes == CHUNK_BYTES &&
            run.BeginsAt(k, run.replies[k].uploadId)) ||
            HinderedAt(run, k)
  {
    assert run.StepsAt(k);
  }

  /** An upload that has just begun. */
  lemma SendingStarts(run: Run, k: nat, id: string, ours: set<nat>, file: seq<Byte>)
    requires run.Valid() && |run.events| == k + 1 && run.BeginsAt(k, id) && (forall j :: j in ours ==> j <= k)
    ensures Sending(run, k, id, ours, file, 0)
  {
    BeginRecords(run, k, id);
    LiveUploads(run, k + 1, id);
    EveryStateConsistent(run, k);
    FreshStep(run, k);
    assert run.Unused(k, id);
    ChunksStep(run, k, id);
  }
}
