/** The uploading client: announces a spool, sends it chunk by chunk and commits it. */
module UploadClient {
  import opened RasterTypes
  import opened ByteCodec
  import opened SpoolFormat
  import opened Cancellation
  import opened PrinterService
  import opened UploadRuns
  import opened PrinterServer
  import opened UploadHistory
  import opened UploadAttempt

  /** The connection to the service and the open spool file; both may fail at any time. */
  class Link {
    /** How often it has failed. */
    ghost var failures: nat
    /** The events of the service that were requests over this connection. */
    ghost var sent: set<nat>

    constructor ()
      ensures failures == 0 && sent == {}
    {
      failures, sent := 0, {};
    }

    method Works() returns (ok: bool)
      modifies this`failures
      ensures failures == old(failures) + (if ok then 0 else 1)
    {
      ok := *;
      failures := failures + (if ok then 0 else 1);
    }

    /** Reads up to `limit` bytes of the spool; nothing only when reading fails. */
    method ReadSome(file: seq<Byte>, offset: nat, limit: nat) returns (chunk: seq<Byte>)
      requires offset < |file| && 0 < limit
      modifies this`failures
      ensures old(failures) <= failures
      ensures |chunk| <= limit && offset + |chunk| <= |file| && chunk == file[offset..offset + |chunk|]
      ensures chunk == [] ==> old(failures) < failures
    {
      var ok := Works();
      var size: nat := *;
      chunk := if ok then file[offset..offset + Clamp(size, 1, Min(limit, |file| - offset))] else [];
    }
  }

  /** A request has been sent in run `mid`: either it has not reached the service, or it has, and an answer that came
      back is the service's. */
  ghost predicate Exchanged(mid: Run, after: Run, before: set<nat>, sent: set<nat>, request: Request,
                            reply: Option<Reply>, o: Outcome, faulted: bool)
    requires mid.Valid()
  {
    && (reply.Some? ==> sent == before + {|mid.events|} && Answered(mid, after, request, reply.value, o, faulted))
    && (sent == before || (sent == before + {|mid.events|} && after == Extended(mid, Arrives(request, o))))
  }

  /** Sends one request, after whatever others have done, and waits for the reply. The request reaches the
      service in run `mid`, if it reaches it. */
  method Exchange(server: Server, link: Link, request: Request)
    returns (reply: Option<Reply>, ghost mid: Run, ghost o: Outcome)
    requires server.Valid()
    modifies server, server.disk, server.ids, link
    ensures server.Valid() && Continues(old(server.run), mid) && mid.Valid() && Continues(mid, server.run)
    ensures old(server.disk.faults) <= server.disk.faults && old(link.failures) <= link.failures
    ensures reply.None? ==> old(link.failures) < link.failures
    ensures Exchanged(mid, server.run, old(link.sent), link.sent, request, reply, o,
                      old(server.disk.faults) < server.disk.faults)
  {
    reply, mid, o := Deliver(server, link, request);
    var received := link.Works();
    if !received {
      reply := None;
    }
  }

  /** Sends one request, after whatever others have done, and has it answered, if it reaches the service. */
  method Deliver(server: Server, link: Link, request: Request)
    returns (answer: Option<Reply>, ghost mid: Run, ghost o: Outcome)
    requires server.Valid()
    modifies server, server.disk, server.ids, link
    ensures server.Valid() && Continues(old(server.run), mid) && mid.Valid() && Continues(mid, server.run)
    ensures old(server.disk.faults) <= server.disk.faults && old(link.failures) <= link.failures
    ensures answer.None? ==> old(link.failures) < link.failures && link.sent == old(link.sent)
    ensures answer.Some? ==>
              && link.sent == old(link.sent) + {|mid.events|}
              && Answered(mid, server.run, request, answer.value, o, old(server.disk.faults) < server.disk.faults)
              && (answer.value.Started? ==> server.printInProgress)
  {
    server.Interleave(false);
    mid, o := server.run, Outcome(0, None, "", true, true, true, []);
    var delivered := link.Works();
    if !delivered {
      return None, mid, o;
    }
    var reply;
    reply, o := server.HandleRequest(request);
    if reply.Started? {
      StartedPrints(server.run, |mid.events|);
    }
    link.sent := link.sent + {|mid.events|};
    answer := Some(reply);
  }

  lemma StartedPrints(run: Run, k: nat)
    requires run.Valid() && k < |run.events| && run.replies[k].Started?
    ensures run.states[k + 1].printing.Some?
  {
    assert run.StepsAt(k);
  }

  /** One chunk of the loop; returns its size, or 0 when it was not accepted. */
  method SendChunk(server: Server, link: Link, cancel: CancelFlag, file: seq<Byte>, id: string, offset: UInt64,
                   chunkBytes: int, ghost a: Attempt, ghost spool: SpoolInfo, ghost settings: Settings,
                   ghost base: set<nat>)
    returns (size: nat, ghost a': Attempt)
    requires server.Valid() && offset < |file| && 0 < chunkBytes <= CHUNK_BYTES
    requires a.seen == server.run && a.id == id && Underway(a, file, offset, spool, settings)
    requires Ledger(a, base, link.sent, server.run, None)
    modifies server, server.disk, server.ids, link, cancel`raises
    ensures server.Valid() && a' == a.(ours := a'.ours, seen := a'.seen) && OwnRequests(a') && a.ours <= a'.ours
    ensures old(server.disk.faults) <= server.disk.faults
    ensures old(link.failures) <= link.failures && old(cancel.raises) <= cancel.raises
    ensures Continues(old(server.run), a'.seen) && Continues(a'.seen, server.run)
    ensures Ledger(a', base, link.sent, server.run, None)
    ensures 0 < size ==> offset as int + size <= |file| && a'.seen == server.run
    ensures 0 < size ==> Underway(a', file, offset as int + size, spool, settings)
    ensures size == 0 ==>
              || cancel.Raised() || old(link.failures) < link.failures
              || old(server.disk.faults) < server.disk.faults || Obstructed(a')
  {
    var chunk := NextChunk(link, cancel, file, offset, chunkBytes);
    if chunk == [] {
      return 0, a;
    }
    size, a' := PushChunk(server, link, file, id, offset, chunk, a, spool, settings, base);
  }

  /** The next bytes of the file; nothing when cancelled or when the file cannot be read. */
  method NextChunk(link: Link, cancel: CancelFlag, file: seq<Byte>, offset: nat, chunkBytes: int)
    returns (chunk: seq<Byte>)
    requires offset < |file| && 0 < chunkBytes
    modifies link`failures, cancel`raises
    ensures old(link.failures) <= link.failures && old(cancel.raises) <= cancel.raises
    ensures |chunk| <= chunkBytes && offset + |chunk| <= |file| && chunk == file[offset..offset + |chunk|]
    ensures chunk == [] ==> cancel.Raised() || old(link.failures) < link.failures
  {
    var canceled := cancel.Poll();
    if canceled {
      return [];
    }
    chunk := link.ReadSome(file, offset, chunkBytes);
  }

  method PushChunk(server: Server, link: Link, file: seq<Byte>, id: string, offset: UInt64, chunk: seq<Byte>,
                   ghost a: Attempt, ghost spool: SpoolInfo, ghost settings: Settings, ghost base: set<nat>)
    returns (size: nat, ghost a': Attempt)
    requires server.Valid() && 0 < |chunk| <= CHUNK_BYTES
    requires offset as int + |chunk| <= |file| && chunk == file[offset..offset as int + |chunk|]
    requires a.seen == server.run && a.id == id && Underway(a, file, offset, spool, settings)
    requires Ledger(a, base, link.sent, server.run, None)
    modifies server, server.disk, server.ids, link
    ensures server.Valid() && a' == a.(ours := a'.ours, seen := a'.seen) && OwnRequests(a') && a.ours <= a'.ours
    ensures old(server.disk.faults) <= server.disk.faults && old(link.failures) <= link.failures
    ensures Continues(old(server.run), a'.seen) && Continues(a'.seen, server.run)
    ensures Ledger(a', base, link.sent, server.run, None)
    ensures 0 < size ==>
              size == |chunk| && a'.seen == server.run && Underway(a', file, offset as int + size, spool, settings)
    ensures size == 0 ==>
              || old(link.failures) < link.failures || old(server.disk.faults) < server.disk.faults || Obstructed(a')
  {
    ghost var sent := link.sent;
    var reply, mid, o := Exchange(server, link, AppendChunk(id, offset, chunk));
    a' := ChunkOutcome(a, base, sent, link.sent, mid, server.run, file, offset, chunk, spool, settings, reply, o,
                       old(server.disk.faults) < server.disk.faults);
    size := if reply.Some? && reply.value.Received? then |chunk| else 0;
  }

  /** The attempt after one exchange about a chunk. */
  lemma ChunkOutcome(a: Attempt, base: set<nat>, before: set<nat>, sent: set<nat>, mid: Run, after: Run,
                     file: seq<Byte>, offset: UInt64, chunk: seq<Byte>, spool: SpoolInfo, settings: Settings,
                     reply: Option<Reply>, o: Outcome, faulted: bool)
    returns (a': Attempt)
    requires Underway(a, file, offset, spool, settings) && Ledger(a, base, before, a.seen, None)
    requires 0 < |chunk| <= CHUNK_BYTES
    requires offset as int + |chunk| <= |file| && chunk == file[offset..offset as int + |chunk|]
    requires Continues(a.seen, mid) && mid.Valid() && after.Valid() && Continues(mid, after)
    requires Exchanged(mid, after, before, sent, AppendChunk(a.id, offset, chunk), reply, o, faulted)
    ensures a' == a.(ours := a'.ours, seen := a'.seen) && OwnRequests(a') && a.ours <= a'.ours
    ensures Continues(a.seen, a'.seen) && Continues(a'.seen, after) && Ledger(a', base, sent, after, None)
    ensures reply.Some? ==> a'.seen == after
    ensures reply.Some? && reply.value.Received? ==> Underway(a', file, offset as int + |chunk|, spool, settings)
    ensures reply.Some? && !reply.value.Received? ==> faulted || Obstructed(a')
  {
    ContinuesOn(a.seen, mid, after);
    a' := ChunkLedger(a, base, before, sent, mid, after, AppendChunk(a.id, offset, chunk), o, reply.Some?);
    if reply.Some? {
      UnderwayContinues(a, mid, file, offset, spool, settings);
      ChunkAnswered(a.(seen := mid), after, file, offset, chunk, spool, settings, reply.value, o, faulted);
    }
  }

  lemma ChunkLedger(a: Attempt, base: set<nat>, before: set<nat>, sent: set<nat>, mid: Run, after: Run,
                    request: Request, o: Outcome, answered: bool)
    returns (a': Attempt)
    requires a.seen.Valid() && Ledger(a, base, before, a.seen, None) && request.AppendChunk?
    requires Continues(a.seen, mid) && mid.Valid() && after.Valid() && Continues(mid, after)
    requires answered ==> sent == before + {|mid.events|} && after == Extended(mid, Arrives(request, o))
    requires sent == before || (sent == before + {|mid.events|} && after == Extended(mid, Arrives(request, o)))
    ensures Ledger(a', base, sent, after, None)
    ensures a' == if answered then a.(ours := a.ours + {|mid.events|}, seen := after) else a
  {
    LedgerContinues(a, base, before, a.seen, None, mid);
    if answered {
      LedgerFollows(a, base, before, mid, None);
      LedgerGrows(a.(seen := mid), base, before, mid, after, request, o, None);
      a' := a.(ours := a.ours + {|mid.events|}, seen := after);
    } else {
      a' := a;
      if sent == before {
        LedgerContinues(a, base, before, mid, None, after);
      } else {
        LedgerLoses(a, base, before, mid, after, request);
      }
    }
  }

  /** Sends the file chunk by chunk. Every chunk is accepted unless something outside the client prevents it. */
  method SendFile(server: Server, link: Link, cancel: CancelFlag, file: seq<Byte>, id: string, chunkBytes: int,
                  ghost start: Attempt, ghost spool: SpoolInfo, ghost settings: Settings, ghost base: set<nat>)
    returns (ok: bool, ghost a: Attempt)
    requires server.Valid() && |file| <= U64_MAX && 0 < chunkBytes <= CHUNK_BYTES
    requires start.seen == server.run && start.id == id && Underway(start, file, 0, spool, settings)
    requires Ledger(start, base, link.sent, server.run, None)
    modifies server, server.disk, server.ids, link, cancel`raises
    ensures server.Valid() && a == start.(ours := a.ours, seen := a.seen) && OwnRequests(a) && start.ours <= a.ours
    ensures Continues(start.seen, a.seen) && Continues(a.seen, server.run)
    ensures Ledger(a, base, link.sent, server.run, None)
    ensures old(server.disk.faults) <= server.disk.faults
    ensures old(link.failures) <= link.failures && old(cancel.raises) <= cancel.raises
    ensures ok ==> a.seen == server.run && Underway(a, file, |file|, spool, settings)
    ensures !ok ==>
              || cancel.Raised() || old(link.failures) < link.failures
              || old(server.disk.faults) < server.disk.faults || Obstructed(a)
  {
    a := start;
    var offset := 0;
    while offset < |file|
      invariant 0 <= offset <= |file| && server.Valid()
      invariant a == start.(ours := a.ours, seen := server.run) && start.ours <= a.ours && Continues(start.seen, a.seen)
      invariant Underway(a, file, offset, spool, settings) && Ledger(a, base, link.sent, server.run, None)
      invariant old(server.disk.faults) <= server.disk.faults
      invariant old(link.failures) <= link.failures && old(cancel.raises) <= cancel.raises
    {
      ghost var before := a;
      var size;
      size, a := SendChunk(server, link, cancel, file, id, offset, chunkBytes, a, spool, settings, base);
      ContinuesOn(start.seen, before.seen, a.seen);
      if size == 0 {
        GiveUp(server, link, id, a, base);
        return false, a;
      }
      offset := offset + size;
    }
    var canceled := cancel.Poll();
    if canceled {
      GiveUp(server, link, id, a, base);
      return false, a;
    }
    ok := true;
  }

  /** Asks the service to drop the upload; whether it does no longer matters to this client. */
  method GiveUp(server: Server, link: Link, id: string, ghost a: Attempt, ghost base: set<nat>)
    requires server.Valid() && Continues(a.seen, server.run) && Ledger(a, base, link.sent, server.run, None)
    modifies server, server.disk, server.ids, link
    ensures server.Valid() && Continues(a.seen, server.run) && Ledger(a, base, link.sent, server.run, None)
    ensures old(server.disk.faults) <= server.disk.faults && old(link.failures) <= link.failures
  {
    ghost var before, sent := server.run, link.sent;
    var _, mid, o := Exchange(server, link, CancelUpload(id));
    LedgerContinues(a, base, sent, before, None, mid);
    ContinuesOn(a.seen, before, mid);
    ContinuesOn(a.seen, mid, server.run);
    if link.sent == sent {
      LedgerContinues(a, base, sent, mid, None, server.run);
    } else {
      LedgerLoses(a, base, sent, mid, server.run, CancelUpload(id));
    }
  }

  /** Announces the upload. */
  method Announce(server: Server, link: Link, fileBytes: UInt64, spool: SpoolInfo, settings: Settings,
                  ghost file: seq<Byte>)
    returns (id: string, chunkBytes: nat, ghost a: Attempt)
    requires server.Valid() && |file| == fileBytes && (forall k :: k in link.sent ==> k < |server.run.events|)
    modifies server, server.disk, server.ids, link
    ensures server.Valid() && Continues(old(server.run), server.run) && a.id == id
    ensures Continues(old(server.run), a.seen) && Continues(a.seen, server.run)
    ensures Ledger(a, old(link.sent), link.sent, server.run, None)
    ensures old(server.disk.faults) <= server.disk.faults && old(link.failures) <= link.failures
    ensures chunkBytes <= CHUNK_BYTES
    ensures 0 < chunkBytes ==> a.seen == server.run && Underway(a, file, 0, spool, settings)
    ensures 0 < chunkBytes ==> Began(a, |old(server.run).events|, fileBytes, spool, settings)
    ensures chunkBytes == 0 && Announceable(spool, fileBytes) ==>
              || old(link.failures) < link.failures || old(server.disk.faults) < server.disk.faults
              || (Began(a, |old(server.run).events|, fileBytes, spool, settings) && Obstructed(a))
  {
    ghost var before, base := server.run, link.sent;
    var reply, mid, o := Exchange(server, link, BeginUpload(fileBytes, spool, settings));
    a := AnnounceOutcome(before, mid, server.run, base, link.sent, file, fileBytes, spool, settings, reply, o,
                         old(server.disk.faults) < server.disk.faults);
    id, chunkBytes := "", 0;
    if reply.Some? && reply.value.Begun? {
      id, chunkBytes := reply.value.uploadId, Clamp(reply.value.chunkBytes, 1, CHUNK_BYTES);
    }
  }

  /** The attempt after its announcement. */
  lemma AnnounceOutcome(before: Run, mid: Run, after: Run, base: set<nat>, sent: set<nat>, file: seq<Byte>,
                        fileBytes: UInt64, spool: SpoolInfo, settings: Settings, reply: Option<Reply>, o: Outcome,
                        faulted: bool)
    returns (a: Attempt)
    requires before.Valid() && mid.Valid() && after.Valid() && Continues(before, mid) && Continues(mid, after)
    requires (forall k :: k in base ==> k < |before.events|) && |file| == fileBytes
    requires Exchanged(mid, after, base, sent, BeginUpload(fileBytes, spool, settings), reply, o, faulted)
    ensures Continues(before, a.seen) && Continues(a.seen, after) && Continues(before, after)
    ensures Ledger(a, base, sent, after, None)
    ensures a.id == (if reply.Some? && reply.value.Begun? then reply.value.uploadId else "")
    ensures reply.Some? && reply.value.Begun? ==>
              && a.seen == after && reply.value.chunkBytes == CHUNK_BYTES && Underway(a, file, 0, spool, settings)
              && Began(a, |before.events|, fileBytes, spool, settings)
    ensures reply.Some? && !reply.value.Begun? && Announceable(spool, fileBytes) ==>
              faulted || (Began(a, |before.events|, fileBytes, spool, settings) && Obstructed(a))
  {
    ContinuesOn(before, mid, after);
    if reply.None? {
      a := Unanswered(before, mid, after, base, sent, BeginUpload(fileBytes, spool, settings), o, faulted);
    } else {
      a := Announced(before, mid, after, base, sent, file, fileBytes, spool, settings, reply.value, o, faulted);
    }
  }

  /** An announcement that has not been answered. */
  lemma Unanswered(before: Run, mid: Run, after: Run, base: set<nat>, sent: set<nat>, request: Request, o: Outcome,
                   faulted: bool)
    returns (a: Attempt)
    requires before.Valid() && mid.Valid() && after.Valid() && Continues(before, mid) && Continues(mid, after)
    requires (forall k :: k in base ==> k < |before.events|) && request.BeginUpload?
    requires Exchanged(mid, after, base, sent, request, None, o, faulted)
    ensures a.id == "" && Continues(before, a.seen) && Continues(a.seen, after) && Ledger(a, base, sent, after, None)
  {
    a := Attempt(|mid.events|, "", {}, mid);
    LedgerContinues(Attempt(0, "", {}, before), base, base, before, None, mid);
    if sent == base {
      LedgerContinues(a, base, base, mid, None, after);
    } else {
      LedgerLoses(a, base, base, mid, after, request);
    }
  }

  /** An announcement that has been answered: the upload has begun, or others stand in the way. */
  lemma Announced(before: Run, mid: Run, after: Run, base: set<nat>, sent: set<nat>, file: seq<Byte>,
                  fileBytes: UInt64, spool: SpoolInfo, settings: Settings, reply: Reply, o: Outcome, faulted: bool)
    returns (a: Attempt)
    requires before.Valid() && mid.Valid() && after.Valid() && Continues(before, mid) && Continues(mid, after)
    requires (forall k :: k in base ==> k < |before.events|) && |file| == fileBytes
    requires Exchanged(mid, after, base, sent, BeginUpload(fileBytes, spool, settings), Some(reply), o, faulted)
    ensures a.seen == after && Continues(before, after) && Ledger(a, base, sent, after, None)
    ensures a.id == (if reply.Begun? then reply.uploadId else "")
    ensures reply.Begun? ==> reply.chunkBytes == CHUNK_BYTES && Underway(a, file, 0, spool, settings)
    ensures reply.Begun? ==> Began(a, |before.events|, fileBytes, spool, settings)
    ensures !reply.Begun? && Announceable(spool, fileBytes) ==>
              faulted || (Began(a, |before.events|, fileBytes, spool, settings) && Obstructed(a))
  {
    var k := |mid.events|;
    a := Attempt(k, if reply.Begun? then reply.uploadId else "", {k}, after);
    ContinuesOn(before, mid, after);
    LedgerContinues(Attempt(0, "", {}, before), base, base, before, None, mid);
    LedgerGrows(Attempt(k, a.id, {}, mid), base, base, mid, after, BeginUpload(fileBytes, spool, settings), o, None);
    if reply.Begun? {
      BeginReply(after, k, fileBytes, spool, settings, o);
      SendingStarts(after, k, a.id, {k}, file);
    } else {
      if Announceable(spool, fileBytes) && o.works {
        BeginAccepted(after, k, fileBytes, spool, settings, o);
      }
      NotBegun(after, k, "");
    }
  }

  lemma NotBegun(run: Run, k: nat, id: string)
    requires k < |run.replies| && !run.replies[k].Begun?
    ensures !run.BeginsAt(k, id)
  {
  }

  /** Commits the upload and waits until the backend is done. The submission, if any, is event `handed`. */
  method Commit(server: Server, link: Link, id: string, ghost start: Attempt, ghost file: seq<Byte>,
                ghost spool: SpoolInfo, ghost settings: Settings, ghost base: set<nat>)
    returns (committed: bool, ghost a: Attempt, ghost handed: Option<nat>)
    requires server.Valid() && start.seen == server.run && start.id == id
    requires Underway(start, file, |file|, spool, settings) && Ledger(start, base, link.sent, server.run, None)
    modifies server, server.disk, server.ids, link
    ensures server.Valid() && a == start.(ours := a.ours, seen := a.seen) && OwnRequests(a) && start.ours <= a.ours
    ensures Continues(start.seen, a.seen) && Continues(a.seen, server.run)
    ensures Ledger(a, base, link.sent, server.run, handed)
    ensures old(server.disk.faults) <= server.disk.faults && old(link.failures) <= link.failures
    ensures committed ==> handed.Some?
    ensures handed.Some? ==> handed.value in a.ours && Handed(a.seen, handed.value, id, file, spool, settings)
    ensures handed.None? && Sendable(server.setup, spool, file) ==>
              || old(link.failures) < link.failures || old(server.disk.faults) < server.disk.faults || Obstructed(a)
  {
    ghost var sent := link.sent;
    var answer, mid, o := Deliver(server, link, CommitUpload(id));
    committed, handed, a := false, None, start;
    ContinuesOn(start.seen, mid, server.run);
    if answer.None? {
      LedgerContinues(start, base, sent, start.seen, None, server.run);
      return;
    }
    handed := if answer.value.Started? then Some(|mid.events|) else None;
    a := CommitOutcome(start, base, sent, mid, server.run, file, spool, settings, o, handed,
                       old(server.disk.faults) < server.disk.faults);
    if answer.value.Started? {
      ghost var printing := server.run;
      committed := AwaitPrint(server, link, printing);
      LedgerContinues(a, base, link.sent, printing, handed, server.run);
    }
  }

  /** The attempt after its commit has been answered. */
  lemma CommitOutcome(start: Attempt, base: set<nat>, sent: set<nat>, mid: Run, after: Run, file: seq<Byte>,
                      spool: SpoolInfo, settings: Settings, o: Outcome, handed: Option<nat>, faulted: bool)
    returns (a: Attempt)
    requires Underway(start, file, |file|, spool, settings) && Ledger(start, base, sent, start.seen, None)
    requires Continues(start.seen, mid) && mid.Valid()
    requires |mid.events| < |after.replies| &&
             Answered(mid, after, CommitUpload(start.id), after.replies[|mid.events|], o, faulted)
    requires handed == if after.replies[|mid.events|].Started? then Some(|mid.events|) else None
    ensures a == start.(ours := start.ours + {|mid.events|}, seen := after) && Continues(start.seen, after)
    ensures OwnRequests(a) && Ledger(a, base, sent + {|mid.events|}, after, handed)
    ensures handed.Some? ==> Handed(after, handed.value, start.id, file, spool, settings)
    ensures handed.None? && Sendable(after.setup, spool, file) ==> faulted || Obstructed(a)
  {
    UnderwayContinues(start, mid, file, |file|, spool, settings);
    CommitAnswered(start.(seen := mid), after, file, spool, settings, after.replies[|mid.events|], o, faulted);
    a := CommitLedger(start, base, sent, mid, after, start.id, o, handed);
  }

  lemma CommitLedger(start: Attempt, base: set<nat>, sent: set<nat>, mid: Run, after: Run, id: string, o: Outcome,
                     handed: Option<nat>)
    returns (a: Attempt)
    requires start.seen.Valid() && Ledger(start, base, sent, start.seen, None)
    requires Continues(start.seen, mid) && mid.Valid() && after.Valid() && Continues(mid, after)
    requires after == Extended(mid, Arrives(CommitUpload(id), o))
    requires handed == if after.replies[|mid.events|].Started? then Some(|mid.events|) else None
    ensures a == start.(ours := start.ours + {|mid.events|}, seen := after) && Continues(start.seen, after)
    ensures Ledger(a, base, sent + {|mid.events|}, after, handed)
  {
    LedgerContinues(start, base, sent, start.seen, None, mid);
    LedgerFollows(start, base, sent, mid, None);
    LedgerGrows(start.(seen := mid), base, sent, mid, after, CommitUpload(id), o, handed);
    ContinuesOn(start.seen, mid, after);
    a := start.(ours := start.ours + {|mid.events|}, seen := after);
  }

  /** The backend prints while the service answers nested requests; then the reply is sent. */
  method AwaitPrint(server: Server, link: Link, ghost seen: Run) returns (printed: bool)
    requires server.Valid() && server.printInProgress && seen == server.run
    modifies server, server.disk, server.ids, link`failures
    ensures server.Valid() && Continues(seen, server.run)
    ensures old(server.disk.faults) <= server.disk.faults && old(link.failures) <= link.failures
    ensures PrintedOnce(seen, server.run)
  {
    server.Interleave(true);
    ghost var printing := server.run;
    server.EndPrint();
    ContinuesOn(seen, printing, server.run);
    assert server.run.events[|printing.events|].PrintEnds?;
    var received := link.Works();
    printed := *;
    printed := printed && received;
  }

  /** The print that was under way in `seen` has ended since, once. */
  ghost predicate PrintedOnce(seen: Run, after: Run) {
    && Continues(seen, after) && |seen.events| < |after.events| && after.events[|after.events| - 1].PrintEnds?
    && forall k :: |seen.events| <= k < |after.events| - 1 ==> !after.events[k].PrintEnds?
  }

  /** Checks the spool before anything is sent. */
  method CheckSpool(sha: Sha256, spool: SpoolInfo, file: seq<Byte>, cancel: CancelFlag) returns (ok: bool)
    modifies cancel`raises
    ensures old(cancel.raises) <= cancel.raises
    ensures ok ==> |file| <= U64_MAX
    ensures !ok ==> cancel.Raised() || !Presentable(sha, spool, file)
  {
    var canceled := cancel.Poll();
    ok := !canceled && Presentable(sha, spool, file);
  }

  /** The file is the spool it is said to be, and as long as its metadata says. */
  predicate Presentable(sha: Sha256, spool: SpoolInfo, file: seq<Byte>) {
    Verified(sha, file, spool.path, spool.sha256) && |file| == Wrapped(spool.bodyOffset as int + spool.bodyBytes as int)
  }

  /** Uploads a spool and has it printed. Whatever other clients do, no request of this call hands the backend
      anything but, once, exactly the spool's bytes; and it does hand them over if the spool is in order, no
      connection or file operation fails during the call, nobody cancels it, and nobody else obstructs its own
      upload. A flag still up from before is lowered first. */
  method SubmitSpooledJob(server: Server, link: Link, sha: Sha256, spool: SpoolInfo, file: seq<Byte>,
                          settings: Settings, cancel: CancelFlag)
    returns (committed: bool, ghost a: Attempt, ghost handed: Option<nat>)
    requires server.Valid() && forall k :: k in link.sent ==> k < |server.run.events|
    modifies server, server.disk, server.ids, link, cancel
    ensures server.Valid() && Continues(old(server.run), server.run) && Continues(a.seen, server.run)
    ensures old(server.disk.faults) <= server.disk.faults
    ensures old(link.failures) <= link.failures && old(cancel.raises) <= cancel.raises
    ensures Ledger(a, old(link.sent), link.sent, server.run, handed)
    ensures committed ==> handed.Some?
    ensures handed.Some? ==>
              && Began(a, |old(server.run).events|, |file|, Transmitted(spool), settings)
              && handed.value in a.ours && Handed(a.seen, handed.value, a.id, file, Transmitted(spool), settings)
    ensures handed.None? && Sendable(server.setup, Transmitted(spool), file) && Presentable(sha, spool, file) ==>
              || old(cancel.raises) < cancel.raises || old(link.failures) < link.failures
              || old(server.disk.faults) < server.disk.faults
              || (Began(a, |old(server.run).events|, |file|, Transmitted(spool), settings) && Obstructed(a))
  {
    cancel.Lower();
    committed, handed, a := false, None, Attempt(0, "", {}, server.run);
    var ok := CheckSpool(sha, spool, file, cancel);
    if ok {
      committed, a, handed := Upload(server, link, Transmitted(spool), file, settings, cancel);
    }
  }

  /** Announces, sends and commits. */
  method Upload(server: Server, link: Link, spool: SpoolInfo, file: seq<Byte>, settings: Settings, cancel: CancelFlag)
    returns (committed: bool, ghost a: Attempt, ghost handed: Option<nat>)
    requires server.Valid() && |file| <= U64_MAX && forall k :: k in link.sent ==> k < |server.run.events|
    modifies server, server.disk, server.ids, link, cancel`raises
    ensures server.Valid() && Continues(old(server.run), server.run) && Continues(a.seen, server.run)
    ensures old(server.disk.faults) <= server.disk.faults
    ensures old(link.failures) <= link.failures && old(cancel.raises) <= cancel.raises
    ensures Ledger(a, old(link.sent), link.sent, server.run, handed)
    ensures committed ==> handed.Some?
    ensures handed.Some? ==>
              && Began(a, |old(server.run).events|, |file|, spool, settings)
              && handed.value in a.ours && Handed(a.seen, handed.value, a.id, file, spool, settings)
    ensures handed.None? && Sendable(server.setup, spool, file) ==>
              || cancel.Raised() || old(link.failures) < link.failures || old(server.disk.faults) < server.disk.faults
              || (Began(a, |old(server.run).events|, |file|, spool, settings) && Obstructed(a))
  {
    committed, handed := false, None;
    ghost var before, base := server.run, link.sent;
    var id, chunkBytes;
    id, chunkBytes, a := Announce(server, link, |file|, spool, settings, file);
    if chunkBytes == 0 {
      return;
    }
    ghost var announced := a;
    var ok;
    ok, a := SendFile(server, link, cancel, file, id, chunkBytes, a, spool, settings, base);
    ContinuesOn(before, announced.seen, a.seen);
    ContinuesOn(before, a.seen, server.run);
    BeganStays(announced, a, |before.events|, |file|, spool, settings);
    if !ok {
      return;
    }
    ghost var sent := a;
    committed, a, handed := Commit(server, link, id, a, file, spool, settings, base);
    ContinuesOn(before, sent.seen, a.seen);
    ContinuesOn(before, a.seen, server.run);
    BeganStays(sent, a, |before.events|, |file|, spool, settings);
  }

  /** An attempt that began stays begun. */
  lemma BeganStays(a: Attempt, b: Attempt, from: nat, fileBytes: nat, spool: SpoolInfo, settings: Settings)
    requires Began(a, from, fileBytes, spool, settings) && a.seen.BeginsAt(a.begin, a.id)
    requires b == a.(ours := b.ours, seen := b.seen) && a.ours <= b.ours && OwnRequests(b) && Continues(a.seen, b.seen)
    ensures Began(b, from, fileBytes, spool, settings) && b.seen.BeginsAt(b.begin, b.id)
  {
    assert b.seen.events[a.begin] == a.seen.events[a.begin] && b.seen.replies[a.begin] == a.seen.replies[a.begin];
  }
}
