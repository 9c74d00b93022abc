/** A client that is cancelled from another thread while it uploads and prints. */
module CancelRace {
  import opened RasterTypes
  import opened PrinterService
  import opened UploadSteps

  /** Where the uploading thread is: about to clear its flag, about to announce itself, polling, past its last
      poll, done uploading, turned down by the service, printing with the backend polling before each line,
      printing with the backend past its last poll, or through: printed to the end, stopped by the backend, given
      up during the upload, or failed for a reason of its own. */
  datatype Uploader =
    | Clearing | Announcing | Polling | Passed | Released | TurnedDown | Printing | Ending
    | Printed | Stopped | GaveUp | Broken

  /** The cancelling thread: not started, has seen an active upload or none, has raised the client's flag, or has
      been told by the service that its abort was taken or that it was not. */
  datatype Canceller = Waiting | SawActive | SawIdle | Raised | Aborted | Denied

  datatype Race = Race(
    uploader: Uploader,
    canceller: Canceller,
    cancelUpload: bool,
    uploadActive: bool,
    service: Service)

  /** Which thread moves next; for a poll, whether it is the last one. Or the job fails. */
  datatype Move = Advance(last: bool) | Fail | Cancel

  /** The service the commit will reach, and what the environment contributes to the commit and to the abort. */
  datatype Scene = Scene(setup: Setup, service: Service, uploadId: string, outcome: Outcome, abort: Outcome)

  function Start(scene: Scene): Race {
    Race(Clearing, Waiting, false, false, scene.service)
  }

  function StepUpload(scene: Scene, r: Race, last: bool): Race {
    match r.uploader
    case Clearing => r.(uploader := Announcing, cancelUpload := false)
    case Announcing => r.(uploader := Polling, uploadActive := true)
    case Polling =>
      if r.cancelUpload then r.(uploader := GaveUp, uploadActive := false)
      else r.(uploader := if last then Passed else Polling)
    case Passed => r.(uploader := Released, uploadActive := false)
    case Released =>
      var service := Next(scene.setup, r.service, Arrives(CommitUpload(scene.uploadId), scene.outcome));
      r.(uploader := if service.printing.Some? then Printing else TurnedDown, service := service)
    case Printing =>
      if r.service.cancelRequested then r.(uploader := Stopped, service := PrintOver(scene, r.service))
      else r.(uploader := if last then Ending else Printing)
    case Ending => r.(uploader := Printed, service := PrintOver(scene, r.service))
    case _ => r
  }

  function PrintOver(scene: Scene, s: Service): Service {
    Next(scene.setup, s, PrintEnds(scene.outcome.removed))
  }

  function StepFail(scene: Scene, r: Race): Race {
    match r.uploader
    case TurnedDown | Printed | Stopped | GaveUp | Broken => r
    case Printing | Ending => r.(uploader := Broken, service := PrintOver(scene, r.service))
    case _ => r.(uploader := Broken, uploadActive := false)
  }

  function StepCancel(scene: Scene, r: Race): Race {
    match r.canceller
    case Waiting => r.(canceller := if r.uploadActive then SawActive else SawIdle)
    case SawActive => r.(canceller := Raised, cancelUpload := true)
    case SawIdle =>
      var e := Arrives(AbortPrint, scene.abort);
      r.(canceller := if ReplyTo(scene.setup, r.service, e) == Forwarded then Aborted else Denied,
         service := Next(scene.setup, r.service, e))
    case _ => r
  }

  /** The state after the first i moves of a schedule. */
  function After(scene: Scene, moves: seq<Move>, i: nat): Race
    requires i <= |moves|
  {
    if i == 0 then Start(scene)
    else
      match moves[i - 1]
      case Advance(last) => StepUpload(scene, After(scene, moves, i - 1), last)
      case Fail => StepFail(scene, After(scene, moves, i - 1))
      case Cancel => StepCancel(scene, After(scene, moves, i - 1))
  }

  /** The upload no longer polls the client's flag, although it has neither given up nor failed. */
  predicate PastPolls(r: Race) {
    && !r.uploader.Clearing? && !r.uploader.Announcing? && !r.uploader.Polling?
    && !r.uploader.GaveUp? && !r.uploader.Broken?
  }

  /** Move i raises the client's flag although the upload has polled it for the last time. */
  predicate RaisedTooLate(scene: Scene, moves: seq<Move>, i: nat) {
    && i < |moves| && moves[i].Cancel?
    && After(scene, moves, i).canceller.SawActive? && PastPolls(After(scene, moves, i))
  }

  /** The abort of move i is taken while nothing prints: before the commit starts the job, or after the job. */
  predicate AbortMissed(scene: Scene, moves: seq<Move>, i: nat) {
    && i < |moves| && moves[i].Cancel?
    && After(scene, moves, i).canceller.SawIdle? && After(scene, moves, i).service.printing.None?
  }

  /** The abort of move i is taken while the job prints, but the backend has polled its flag for the last time. */
  predicate AbortTooLate(scene: Scene, moves: seq<Move>, i: nat) {
    && i < |moves| && moves[i].Cancel? && scene.abort.works
    && After(scene, moves, i).canceller.SawIdle? && After(scene, moves, i).uploader.Ending?
  }

  ghost predicate Late(scene: Scene, moves: seq<Move>, i: nat)
    requires i <= |moves|
  {
    exists j :: 0 <= j < i && RaisedTooLate(scene, moves, j)
  }

  ghost predicate Missed(scene: Scene, moves: seq<Move>, i: nat)
    requires i <= |moves|
  {
    exists j :: 0 <= j < i && (AbortMissed(scene, moves, j) || AbortTooLate(scene, moves, j))
  }

  /** What the flags of a reachable state mean, given whether its cancellation came too late or was missed. */
  predicate Consistent(r: Race, late: bool, missed: bool) {
    && (r.uploadActive <==> r.uploader.Polling? || r.uploader.Passed?)
    && (r.cancelUpload <==> r.canceller.Raised?) && (r.uploader.GaveUp? ==> r.canceller.Raised?)
    && (r.uploader.Clearing? || r.uploader.Announcing? ==> !r.canceller.SawActive? && !r.canceller.Raised?)
    && (late ==> r.canceller.Raised?) && (!r.uploader.Broken? ==> (late <==> r.canceller.Raised? && PastPolls(r)))
    && (r.service.printing.Some? <==> r.uploader.Printing? || r.uploader.Ending?)
    && (missed ==> r.canceller.Aborted?)
    && (r.uploader.Printing? ==> (r.service.cancelRequested <==> r.canceller.Aborted? && !missed))
    && (r.canceller.Aborted? && !missed ==> r.uploader.Printing? || r.uploader.Stopped? || r.uploader.Broken?)
    && (r.uploader.Stopped? ==> r.canceller.Aborted? && !missed)
  }

  lemma UploadKeeps(scene: Scene, r: Race, last: bool, late: bool, missed: bool)
    requires Consistent(r, late, missed)
    ensures Consistent(StepUpload(scene, r, last), late, missed)
  {
    if r.uploader.Released? {
      FlagStep(scene.setup, r.service, Arrives(CommitUpload(scene.uploadId), scene.outcome));
    }
  }

  lemma FailKeeps(scene: Scene, r: Race, late: bool, missed: bool)
    requires Consistent(r, late, missed)
    ensures Consistent(StepFail(scene, r), late, missed)
  {
  }

  lemma CancelKeeps(scene: Scene, r: Race, late: bool, missed: bool)
    requires Consistent(r, late, missed)
    ensures var useless := r.service.printing.None? || (scene.abort.works && r.uploader.Ending?);
            Consistent(StepCancel(scene, r), late || (r.canceller.SawActive? && PastPolls(r)),
                       missed || (r.canceller.SawIdle? && useless))
  {
    FlagStep(scene.setup, r.service, Arrives(AbortPrint, scene.abort));
  }

  lemma {:induction false} EveryMoment(scene: Scene, moves: seq<Move>, i: nat)
    requires i <= |moves| && scene.service.printing.None?
    ensures Consistent(After(scene, moves, i), Late(scene, moves, i), Missed(scene, moves, i))
  {
    if i > 0 {
      var n := i - 1;
      var r := After(scene, moves, n);
      EveryMoment(scene, moves, n);
      LateGrows(scene, moves, n);
      match moves[n]
      case Advance(last) => UploadKeeps(scene, r, last, Late(scene, moves, n), Missed(scene, moves, n));
      case Fail => FailKeeps(scene, r, Late(scene, moves, n), Missed(scene, moves, n));
      case Cancel => CancelKeeps(scene, r, Late(scene, moves, n), Missed(scene, moves, n));
    }
  }

  lemma LateGrows(scene: Scene, moves: seq<Move>, n: nat)
    requires n < |moves|
    ensures Late(scene, moves, n + 1) <==> Late(scene, moves, n) || RaisedTooLate(scene, moves, n)
    ensures Missed(scene, moves, n + 1) <==>
            Missed(scene, moves, n) || AbortMissed(scene, moves, n) || AbortTooLate(scene, moves, n)
  {
  }

  /** Both threads are through: the job neither was turned down nor failed of its own, and the canceller has not
      been told that its abort was not taken. */
  predicate Over(r: Race) {
    && (r.uploader.Printed? || r.uploader.Stopped? || r.uploader.GaveUp?)
    && (r.canceller.Raised? || r.canceller.Aborted?)
  }

  /** However the threads interleave, a cancelled job is printed to the end all the same exactly when the client's
      flag was raised after its last poll, or the abort was taken while nothing printed, or the abort was taken
      after the backend's last poll. */
  lemma CancelLost(scene: Scene, moves: seq<Move>)
    requires scene.service.printing.None? && Over(After(scene, moves, |moves|))
    ensures After(scene, moves, |moves|).uploader.Printed? <==>
              exists i :: 0 <= i < |moves| &&
                (RaisedTooLate(scene, moves, i) || AbortMissed(scene, moves, i) || AbortTooLate(scene, moves, i))
  {
    EveryMoment(scene, moves, |moves|);
  }

  const RAISED_TOO_LATE: seq<Move> :=
    [Advance(false), Advance(false), Cancel, Advance(true), Cancel, Advance(false), Advance(false), Advance(true),
     Advance(false)]

  const ABORTED_TOO_EARLY: seq<Move> :=
    [Advance(false), Advance(false), Advance(true), Advance(false), Cancel, Cancel, Advance(false), Advance(true),
     Advance(false)]

  const ABORTED_TOO_LATE: seq<Move> :=
    [Advance(false), Advance(false), Advance(true), Advance(false), Advance(false), Cancel, Advance(true), Cancel,
     Advance(false)]

  /** The commit of the scene starts its job. */
  predicate Commits(scene: Scene, service: Service) {
    Submits(scene.setup, service, Arrives(CommitUpload(scene.uploadId), scene.outcome), scene.uploadId)
  }

  ghost predicate Lost(scene: Scene, moves: seq<Move>) {
    Over(After(scene, moves, |moves|)) && After(scene, moves, |moves|).uploader.Printed?
  }

  /** Every way of losing a cancellation can happen, to any commit that starts its job: the flag raised between
      the last poll and the end of the upload, the abort taken between that and the commit, and the abort taken
      between the backend's last poll and the end of the print. */
  lemma LosingSchedules(scene: Scene)
    requires scene.service.printing.None? && Commits(scene, scene.service)
    ensures Lost(scene, RAISED_TOO_LATE) && Lost(scene, ABORTED_TOO_EARLY)
    ensures scene.abort.works ==> Lost(scene, ABORTED_TOO_LATE)
  {
    RaisedSchedule(scene);
    EarlySchedule(scene);
    if scene.abort.works {
      LateSchedule(scene);
    }
  }

  /** A commit is answered the same whether or not an abort has been answered before. */
  lemma FlagIgnored(scene: Scene)
    requires scene.service.printing.None?
    ensures var e := Arrives(CommitUpload(scene.uploadId), scene.outcome);
            var aborted := Next(scene.setup, scene.service, Arrives(AbortPrint, scene.abort));
            && aborted == scene.service.(cancelRequested := true)
            && ReplyTo(scene.setup, aborted, e) == ReplyTo(scene.setup, scene.service, e)
            && Next(scene.setup, aborted, e).printing == Next(scene.setup, scene.service, e).printing
  {
  }

  lemma RaisedSchedule(scene: Scene)
    requires scene.service.printing.None? && Commits(scene, scene.service)
    ensures Lost(scene, RAISED_TOO_LATE)
  {
    var s, moves := scene.service, RAISED_TOO_LATE;
    assert After(scene, moves, 2) == Race(Polling, Waiting, false, true, s) by {
      assert After(scene, moves, 1) == Race(Announcing, Waiting, false, false, s);
    }
    assert After(scene, moves, 3) == Race(Polling, SawActive, false, true, s);
    assert After(scene, moves, 4) == Race(Passed, SawActive, false, true, s);
    assert After(scene, moves, 5) == Race(Passed, Raised, true, true, s);
    assert After(scene, moves, 6) == Race(Released, Raised, true, false, s);
    PrintsOut(scene, moves);
  }

  /** The upload is done, and nobody has cancelled so far. */
  lemma Uncancelled(scene: Scene, moves: seq<Move>)
    requires 4 <= |moves| && moves[..4] == [Advance(false), Advance(false), Advance(true), Advance(false)]
    ensures After(scene, moves, 4) == Race(Released, Waiting, false, false, scene.service)
  {
    var s := scene.service;
    assert forall i :: 0 <= i < 4 ==> moves[i] == moves[..4][i];
    assert After(scene, moves, 1) == Race(Announcing, Waiting, false, false, s);
    assert After(scene, moves, 2) == Race(Polling, Waiting, false, true, s);
    assert After(scene, moves, 3) == Race(Passed, Waiting, false, true, s);
  }

  lemma EarlySchedule(scene: Scene)
    requires scene.service.printing.None? && Commits(scene, scene.service)
    ensures Lost(scene, ABORTED_TOO_EARLY)
  {
    var s, moves := scene.service, ABORTED_TOO_EARLY;
    Uncancelled(scene, moves);
    assert After(scene, moves, 5) == Race(Released, SawIdle, false, false, s);
    FlagIgnored(scene);
    assert After(scene, moves, 6) == Race(Released, Aborted, false, false, s.(cancelRequested := true));
    PrintsOut(scene, moves);
  }

  lemma LateSchedule(scene: Scene)
    requires scene.service.printing.None? && Commits(scene, scene.service) && scene.abort.works
    ensures Lost(scene, ABORTED_TOO_LATE)
  {
    var s, moves := scene.service, ABORTED_TOO_LATE;
    Uncancelled(scene, moves);
    var printing := StepUpload(scene, Race(Released, Waiting, false, false, s), false);
    FlagStep(scene.setup, s, Arrives(CommitUpload(scene.uploadId), scene.outcome));
    assert After(scene, moves, 5) == printing && printing.uploader.Printing?;
    assert After(scene, moves, 6) == printing.(canceller := SawIdle);
    assert After(scene, moves, 7) == printing.(canceller := SawIdle, uploader := Ending);
    assert After(scene, moves, 8) == StepCancel(scene, After(scene, moves, 7));
    assert After(scene, moves, 9) == StepUpload(scene, After(scene, moves, 8), false);
  }

  /** A commit that starts its job, followed by the last poll of the print and its end. */
  lemma PrintsOut(scene: Scene, moves: seq<Move>)
    requires |moves| == 9 && moves[6] == Advance(false) && moves[7] == Advance(true) && moves[8] == Advance(false)
    requires After(scene, moves, 6).uploader.Released?
    requires var e := Arrives(CommitUpload(scene.uploadId), scene.outcome);
             ReplyTo(scene.setup, After(scene, moves, 6).service, e).Started?
    ensures After(scene, moves, 9).uploader.Printed?
    ensures After(scene, moves, 9).canceller == After(scene, moves, 6).canceller
  {
    var r := After(scene, moves, 6);
    FlagStep(scene.setup, r.service, Arrives(CommitUpload(scene.uploadId), scene.outcome));
    assert After(scene, moves, 7) == StepUpload(scene, r, false);
    assert After(scene, moves, 8) == StepUpload(scene, After(scene, moves, 7), true);
    assert After(scene, moves, 9) == StepUpload(scene, After(scene, moves, 8), false);
  }
}
