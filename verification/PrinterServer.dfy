/** The printer service as a program. Its history is a run of the protocol. */
module PrinterServer {
  import opened RasterTypes
  import opened ByteCodec
  import opened SpoolFormat
  import opened Storage
  import opened PrinterService
  import opened UploadSteps
  import opened UploadRuns

  /** A source of identifiers that never repeats itself. */
  class IdSource {
    var issued: set<string>

    constructor ()
      ensures issued == {}
    {
      issued := {};
    }

    method Create() returns (id: string)
      modifies this
      ensures id !in old(issued) && issued == old(issued) + {id}
    {
      SomeIdLeft(issued);
      id :| id !in issued;
      issued := issued + {id};
    }
  }

  /** Finitely many identifiers leave one unused. */
  lemma SomeIdLeft(issued: set<string>)
    ensures exists id: string :: id !in issued
  {
    var bound := LongerThanAll(issued);
    var id := seq(bound, _ => '0');
    assert id !in issued;
  }

  lemma {:induction false} LongerThanAll(issued: set<string>) returns (bound: nat)
    ensures forall id :: id in issued ==> |id| < bound
  {
    bound := 0;
    if issued != {} {
      var one :| one in issued;
      var rest := LongerThanAll(issued - {one});
      bound := Max(rest, |one| + 1);
    }
  }

  /** The run with one more event. */
  ghost function Extended(run: Run, e: Event): Run
    requires run.states != []
  {
    var s := run.states[|run.states| - 1];
    run.(states := run.states + [Next(run.setup, s, e)], events := run.events + [e],
      replies := run.replies + [ReplyTo(run.setup, s, e)])
  }

  /** One run continues another. */
  ghost predicate Continues(before: Run, after: Run) {
    && after.setup == before.setup
    && |before.states| <= |after.states| && after.states[..|before.states|] == before.states
    && |before.events| <= |after.events| && after.events[..|before.events|] == before.events
    && |before.replies| <= |after.replies| && after.replies[..|before.replies|] == before.replies
  }

  /** A step of the service prolongs a run, provided a new upload gets a new identifier. */
  lemma RunExtends(run: Run, e: Event)
    requires run.Valid()
    requires forall id :: Begins(run.setup, run.states[|run.events|], e, id) ==> !run.Used(|run.events|, id)
    ensures Extended(run, e).Valid() && Continues(run, Extended(run, e))
    ensures forall i: nat, id :: Extended(run, e).BeginsAt(i, id) ==>
              run.BeginsAt(i, id) || (i == |run.events| && Begins(run.setup, run.states[i], e, id))
  {
    var longer, n := Extended(run, e), |run.events|;
    forall i: nat | i < n + 1
      ensures longer.StepsAt(i)
    {
      assert i < n ==> run.StepsAt(i);
    }
    forall i: nat, j: nat, id: string | i < j && longer.BeginsAt(i, id)
      ensures !longer.BeginsAt(j, id)
    {
      assert run.BeginsAt(i, id) || i == n;
      if j == n && longer.BeginsAt(j, id) {
        assert run.Used(n, id);
      } else if j < n {
        assert longer.BeginsAt(j, id) <==> run.BeginsAt(j, id);
      }
    }
  }

  lemma ReplacedOne(a: map<string, seq<Byte>>, b: map<string, seq<Byte>>, path: string)
    requires SameElsewhere(a, b, {path})
    ensures path in b ==> b == a[path := b[path]]
    ensures b - {path} == a - {path}
  {
  }

  /** The state of a sweep once the uploads in `done` have been looked at. */
  ghost predicate Swept(before: Service, now: int, done: set<string>, stuck: set<string>, uploads: map<string, Upload>,
                        files: map<string, seq<Byte>>) {
    var gone := ExpiredAmong(before.uploads, done, now);
    stuck <= gone && uploads == before.uploads - gone && files == before.files - PathsOf(before.uploads, gone - stuck)
  }

  lemma SweptOne(before: Service, now: int, done: set<string>, stuck: set<string>, uploads: map<string, Upload>,
                 files: map<string, seq<Byte>>, id: string, remains: bool)
    requires Swept(before, now, done, stuck, uploads, files) && id in before.uploads && id !in done
    ensures id in uploads && uploads[id] == before.uploads[id]
    ensures if Expired(before.uploads[id], now)
            then Swept(before, now, done + {id}, if remains then stuck + {id} else stuck, uploads - {id},
                       if remains then files else files - {before.uploads[id].partialPath})
            else Swept(before, now, done + {id}, stuck, uploads, files)
  {
    var gone := ExpiredAmong(before.uploads, done, now);
    if Expired(before.uploads[id], now) {
      assert ExpiredAmong(before.uploads, done + {id}, now) == gone + {id};
      if remains {
        assert gone + {id} - (stuck + {id}) == gone - stuck;
      } else {
        assert gone + {id} - stuck == gone - stuck + {id};
        assert PathsOf(before.uploads, gone - stuck + {id}) == PathsOf(before.uploads,
          gone - stuck) + {before.uploads[id].partialPath};
      }
    } else {
      assert ExpiredAmong(before.uploads, done + {id}, now) == gone;
    }
  }

  lemma SweptAll(before: Service, now: int, stuck: set<string>, uploads: map<string, Upload>,
                 files: map<string, seq<Byte>>, done: set<string>)
    requires Swept(before, now, done, stuck, uploads, files) && done == before.uploads.Keys
    ensures before.(uploads := uploads, files := files) == HandleSweep(before, now, stuck)
  {
  }

  lemma ContinuesOn(first: Run, second: Run, third: Run)
    requires Continues(first, second) && Continues(second, third)
    ensures Continues(first, third)
  {
  }

  /** No file operation failed the request, unless it never came to one. */
  ghost predicate Excused(s: Service, request: Request, o: Outcome, setup: Setup) {
    match request
    case BeginUpload(fileBytes, spool, _) =>
      o.works || s.printing.Some? || !Announceable(spool, fileBytes) || o.available.None? ||
        o.available.value < StorageNeeded(fileBytes)
    case AppendChunk(_, _, _) => o.works
    case CommitUpload(id) =>
      (o.works && o.readable) || s.printing.Some? || id !in s.uploads ||
      Renamed(s.uploads[id].partialPath) in s.files || s.uploads[id].partialPath !in s.files
    case _ => true
  }

  class Server {
    const disk: Disk
    const ids: IdSource
    const setup: Setup
    var uploads: map<string, Upload>
    var printInProgress: bool
    /** The backend's cancellation flag. */
    var cancelRequested: bool
    /** The job the suspended commit has handed to the backend. */
    var job: Option<Job>
    /** Everything that has happened so far. */
    ghost var run: Run

    ghost function State(): Service
      reads this, disk
    {
      Service(uploads, disk.files, job, cancelRequested)
    }

    /** The history is a run that has led to the present state. */
    ghost predicate Valid()
      reads this, disk, ids
    {
      && run.Valid() && run.setup == setup && run.states[|run.events|] == State()
      && (printInProgress <==> job.Some?)
      && forall i: nat, id: string :: run.BeginsAt(i, id) ==> id in ids.issued
    }

    constructor (disk: Disk, ids: IdSource, setup: Setup)
      ensures Valid() && this.disk == disk && this.ids == ids && this.setup == setup
      ensures run == Run(setup, [Service(map[], disk.files, None, false)], [], [])
    {
      this.disk, this.ids, this.setup := disk, ids, setup;
      uploads, printInProgress, cancelRequested, job := map[], false, false, None;
      run := Run(setup, [Service(map[], disk.files, None, false)], [], []);
    }

    method BeginRasterUpload(fileBytes: UInt64, spool: SpoolInfo, settings: Settings) returns (reply: Reply,
                             ghost o: Outcome)
      modifies this`uploads, disk, ids
      ensures (State(), reply) == HandleBegin(setup, old(State()), fileBytes, spool, settings, o)
      ensures ids.issued >= old(ids.issued)
      ensures reply.Begun? ==> reply.uploadId !in old(ids.issued) && reply.uploadId in ids.issued
      ensures reply.Refused? ==>
                || !Announceable(spool, fileBytes) || o.available.None?
                || o.available.value < StorageNeeded(fileBytes) || old(disk.faults) < disk.faults
      ensures old(disk.faults) <= disk.faults
    {
      var ready: bool := *;
      var free: nat := *;
      var available: Option<nat> := if ready then Some(free) else None;
      var now: int := *;
      o := Outcome(now, available, "", false, false, false, []);
      if !Announceable(spool, fileBytes) || available.None? || available.value < StorageNeeded(fileBytes) {
        return Refused, o;
      }
      var uploadId := ids.Create();
      var path := PartialOf(setup.directory, uploadId);
      var ok := disk.Create(path);
      o := Outcome(now, available, uploadId, ok, false, false, []);
      if !ok {
        return Refused, o;
      }
      uploads := uploads[uploadId := Upload(path, fileBytes, 0, now, spool, settings)];
      reply := Begun(uploadId, CHUNK_BYTES);
    }

    method AppendRasterChunk(uploadId: string, offset: UInt64, chunk: seq<Byte>) returns (reply: Reply,
                             ghost o: Outcome)
      modifies this`uploads, disk
      ensures (State(), reply) == HandleAppend(old(State()), uploadId, offset, chunk, o)
      ensures o.works || old(disk.faults) < disk.faults
      ensures old(disk.faults) <= disk.faults
    {
      var now: int := *;
      o := Outcome(now, None, "", true, false, true, []);
      if uploadId !in uploads || !Fits(uploads[uploadId], offset, chunk) {
        return Refused, o;
      }
      var upload := uploads[uploadId];
      var ok := disk.Append(upload.partialPath, chunk);
      if !ok {
        ReplacedOne(old(disk.files), disk.files, upload.partialPath);
        ghost var debris := disk.files[upload.partialPath];
        ghost var removed := Discard(upload.partialPath);
        uploads := uploads - {uploadId};
        o := Outcome(now, None, "", false, false, removed, debris);
        return Refused, o;
      }
      var total := Wrapped(upload.receivedBytes as int + |chunk|);
      uploads := uploads[uploadId := upload.(receivedBytes := total, lastActivityMs := now)];
      reply := Received(total);
    }

    method CancelRasterUpload(uploadId: string) returns (reply: Reply, ghost o: Outcome)
      modifies this`uploads, disk
      ensures (State(), reply) == HandleCancel(old(State()), uploadId, o)
      ensures old(disk.faults) <= disk.faults
    {
      o := Outcome(0, None, "", true, false, true, []);
      if uploadId in uploads {
        ghost var remains := DropUpload(uploadId);
        o := o.(removed := !remains);
      }
      reply := Done;
    }

    /** The part of a commit up to the submission. */
    method CommitRasterUpload(uploadId: string) returns (reply: Reply, ghost o: Outcome)
      requires !printInProgress && job.None?
      modifies this`uploads, this`printInProgress, this`cancelRequested, this`job, disk
      ensures (State(), reply) == HandleCommit(setup, old(State()), uploadId, o)
      ensures printInProgress <==> job.Some?
      ensures (o.works && o.readable) || old(disk.faults) < disk.faults || uploadId !in old(uploads) ||
              Renamed(old(uploads)[uploadId].partialPath) in old(disk.files) ||
                old(uploads)[uploadId].partialPath !in old(disk.files)
      ensures old(disk.faults) <= disk.faults
    {
      o := Outcome(0, None, "", true, true, true, []);
      if uploadId !in uploads {
        return Refused, o;
      }
      var upload := uploads[uploadId];
      uploads := uploads - {uploadId};
      var final := Renamed(upload.partialPath);
      var ok := upload.receivedBytes == upload.expectedBytes;
      if ok {
        ok := disk.Rename(upload.partialPath, final);
        o := o.(works := ok);
      }
      if !ok {
        ghost var removed := Discard(upload.partialPath);
        o := o.(removed := removed);
        return Refused, o;
      }
      var readable := disk.Succeeds();
      var uploaded := if readable then setup.validate(disk.files[final], final) else None;
      if uploaded.None? || !SameJob(uploaded.value, upload.expected) {
        ghost var removed := Discard(final);
        o := o.(readable := readable, removed := removed);
        return Refused, o;
      }
      printInProgress, job := true, Some(Job(uploadId, final, uploaded.value, upload.settings));
      cancelRequested := false;
      o := o.(readable := readable);
      reply := Started;
    }

    /** The timer's sweep over all uploads. */
    method RemoveExpiredUploads() returns (ghost e: Event)
      modifies this`uploads, disk
      ensures e.Sweep? && State() == HandleSweep(old(State()), e.now, e.stuck)
      ensures old(disk.faults) <= disk.faults
    {
      var now: int := *;
      var remaining := uploads.Keys;
      ghost var before, stuck, done: set<string> := State(), {}, {};
      while remaining != {}
        invariant remaining !! done && remaining + done == before.uploads.Keys
        invariant Swept(before, now, done, stuck, uploads, disk.files)
        invariant old(disk.faults) <= disk.faults
        decreases |remaining|
      {
        var id :| id in remaining;
        stuck := SweepUpload(id, now, before, done, stuck);
        remaining, done := remaining - {id}, done + {id};
      }
      SweptAll(before, now, stuck, uploads, disk.files, done);
      e := Sweep(now, stuck);
    }

    method SweepUpload(id: string, now: int, ghost before: Service, ghost done: set<string>, ghost stuck: set<string>)
      returns (ghost stuck': set<string>)
      requires Swept(before, now, done, stuck, uploads, disk.files) && id in before.uploads && id !in done
      modifies this`uploads, disk
      ensures Swept(before, now, done + {id}, stuck', uploads, disk.files)
      ensures old(disk.faults) <= disk.faults
    {
      stuck' := stuck;
      SweptOne(before, now, done, stuck, uploads, disk.files, id, true);
      SweptOne(before, now, done, stuck, uploads, disk.files, id, false);
      if Expired(uploads[id], now) {
        ghost var remains := DropUpload(id);
        stuck' := if remains then stuck + {id} else stuck;
      }
    }

    /** Removes a file if it can. */
    method Discard(path: string) returns (ghost removed: bool)
      modifies disk
      ensures disk.files == Without(old(disk.files), path, removed)
      ensures old(disk.faults) <= disk.faults
    {
      disk.Remove(path);
      removed := disk.files == old(disk.files) - {path};
    }

    /** Forgets an upload and removes its file, unless the file `remains`. */
    method DropUpload(id: string) returns (ghost remains: bool)
      requires id in uploads
      modifies this`uploads, disk
      ensures uploads == old(uploads) - {id}
      ensures disk.files == if remains then old(disk.files) else old(disk.files) - {old(uploads)[id].partialPath}
      ensures old(disk.faults) <= disk.faults
    {
      var path := uploads[id].partialPath;
      ghost var removed := Discard(path);
      remains := !removed;
      uploads := uploads - {id};
    }

    /** The rest of the commit, once the backend is done. */
    method FinishPrint() returns (ghost e: Event)
      requires printInProgress && job.Some?
      modifies this`printInProgress, this`job, disk
      ensures e.PrintEnds? && State() == HandlePrintEnd(old(State()), e.removed)
      ensures !printInProgress && job.None?
      ensures old(disk.faults) <= disk.faults
    {
      var path := job.value.path;
      printInProgress, job := false, None;
      ghost var removed := Discard(path);
      e := PrintEnds(removed);
    }

    /** Answers one request, up to the submission if it is a commit. */
    method HandleRequest(request: Request) returns (reply: Reply, ghost o: Outcome)
      requires Valid()
      modifies this, disk, ids
      ensures Valid() && run == Extended(old(run), Arrives(request, o)) && Continues(old(run), run)
      ensures reply == run.replies[|old(run).events|]
      ensures old(printInProgress) ==> printInProgress
      ensures printInProgress <==> run.states[|run.events|].printing.Some?
      ensures old(disk.faults) <= disk.faults
      ensures Excused(old(run).states[|old(run).events|], request, o, setup) || old(disk.faults) < disk.faults
    {
      ghost var before, n := State(), |run.events|;
      o := Outcome(0, None, "", true, true, true, []);
      if printInProgress && !request.Ping? && !request.AbortPrint? {
        reply := Refused;
      } else {
        reply, o := Dispatch(request);
      }
      assert (State(), reply) == PrinterService.HandleRequest(setup, before, request, o);
      RunExtends(run, Arrives(request, o));
      run := Extended(run, Arrives(request, o));
    }

    method Dispatch(request: Request) returns (reply: Reply, ghost o: Outcome)
      requires (printInProgress <==> job.Some?) && !Gated(State(), request)
      modifies this`uploads, this`printInProgress, this`cancelRequested, this`job, disk, ids
      ensures (State(), reply) == PrinterService.HandleRequest(setup, old(State()), request, o)
      ensures printInProgress <==> job.Some?
      ensures ids.issued >= old(ids.issued)
      ensures reply.Begun? ==> reply.uploadId !in old(ids.issued) && reply.uploadId in ids.issued
      ensures old(disk.faults) <= disk.faults
      ensures Excused(old(State()), request, o, setup) || old(disk.faults) < disk.faults
    {
      o := Outcome(0, None, "", true, true, true, []);
      match request
      case Ping => reply := Done;
      case AbortPrint =>
        var ok := true;
        if printInProgress {
          ok := disk.Succeeds();
          o := o.(works := ok);
        }
        cancelRequested := cancelRequested || ok;
        reply := if ok then Forwarded else Refused;
      case OtherCommand(_) => reply := Forwarded;
      case BeginUpload(fileBytes, spool, settings) => reply, o := BeginRasterUpload(fileBytes, spool, settings);
      case AppendChunk(uploadId, offset, chunk) => reply, o := AppendRasterChunk(uploadId, offset, chunk);
      case CancelUpload(uploadId) => reply, o := CancelRasterUpload(uploadId);
      case CommitUpload(uploadId) => reply, o := CommitRasterUpload(uploadId);
    }

    /** The timer's sweep, recorded. */
    method Timeout()
      requires Valid()
      modifies this, disk
      ensures Valid() && Continues(old(run), run) && printInProgress == old(printInProgress)
      ensures |run.events| == |old(run).events| + 1 && run.events[|old(run).events|].Sweep?
      ensures old(disk.faults) <= disk.faults
    {
      ghost var e := RemoveExpiredUploads();
      RunExtends(run, e);
      run := Extended(run, e);
    }

    /** The backend is done with the job. */
    method EndPrint()
      requires Valid() && printInProgress
      modifies this, disk
      ensures Valid() && !printInProgress && Continues(old(run), run)
      ensures |run.events| == |old(run).events| + 1 && run.events[|old(run).events|].PrintEnds?
      ensures old(disk.faults) <= disk.faults
    {
      ghost var e := FinishPrint();
      RunExtends(run, e);
      run := Extended(run, e);
    }

    /** Whatever other clients, the timer and the backend do meanwhile. With `busy` the present job stays with
        the backend. */
    method Interleave(busy: bool)
      requires Valid() && (busy ==> printInProgress)
      modifies this, disk, ids
      ensures Valid() && Continues(old(run), run) && (busy ==> printInProgress)
      ensures busy ==> forall k :: |old(run).events| <= k < |run.events| ==> !run.events[k].PrintEnds?
      ensures old(disk.faults) <= disk.faults
    {
      var n: nat := *;
      while n > 0
        invariant Valid() && Continues(old(run), run) && (busy ==> printInProgress)
        invariant busy ==> forall k :: |old(run).events| <= k < |run.events| ==> !run.events[k].PrintEnds?
        invariant old(disk.faults) <= disk.faults
      {
        ghost var before := run;
        var kind: int := *;
        if kind == 0 && printInProgress && !busy {
          EndPrint();
        } else if kind == 1 {
          Timeout();
        } else {
          var request: Request := *;
          ghost var _, o := HandleRequest(request);
        }
        ContinuesOn(old(run), before, run);
        n := n - 1;
      }
    }
  }
}
