/** The multi-ink job: like the X-33 job it is built in memory or in strips, for any ink set. */
module MultiInkJob {
  import opened Arithmetic
  import opened RasterTypes
  import opened ByteCodec
  import opened PixelScreening
  import opened Promotion
  import opened Packing
  import opened ScreenSpec
  import opened ScreenEngine
  import opened BoundedPipeline
  import opened ToneStage
  import opened MultiInkTones
  import opened SpoolFormat
  import opened SpoolBody
  import opened SpoolWriter
  import opened RasterBuild
  import opened Storage
  import opened Cancellation

  const MULTI_INK_FORMAT: UInt8 := 2

  function MaskKeys(mode: InkMode, whiteKey: string, varnishKey: string): (keys: seq<string>)
    ensures |keys| == mode.Channels()
  {
    match mode
    case FourColor => ["c", "m", "y", "k"]
    case FiveColor => ["c", "m", "y", "k", whiteKey]
    case SixColor => ["c", "m", "y", "k", "lm", "lc"]
    case SevenColor => ["c", "m", "y", "k", "lm", "lc", whiteKey]
    case EightColor => ["c", "m", "y", "k", "lc", "lm", "lk", "llk"]
    case TenColor => ["c", "m", "y", "k", "lc", "lm", "lk", "llk", whiteKey, varnishKey]
  }

  function ChannelOrder(mode: InkMode): seq<Int32> {
    match mode
    case FourColor => [2, 1, 0, 3]
    case FiveColor => [2, 1, 0, 3, 4]
    case SixColor => [2, 1, 0, 3, 4, 5]
    case SevenColor => [2, 1, 0, 3, 4, 5, 6]
    case EightColor => [2, 1, 0, 3, 5, 4, 6, 7]
    case TenColor => [2, 1, 0, 3, 5, 4, 6, 7, 8, 9]
  }

  datatype MultiInkJob = MultiInkJob(
    width: Int32,
    height: Int32,
    xdpi: Int32,
    ydpi: Int32,
    seed: bv32,
    pixels: seq<Tone>,
    alpha: Option<seq<Tone>>,
    mode: InkMode,
    params: map<string, int>,
    combos: Option<Combos>,
    strategy: DotStrategy,
    whiteKey: string,
    varnishKey: string,
    whitePath: string,
    varnishPath: string,
    plates: map<string, seq<Tone>>,
    masks: map<string, Mask>)
  {
    /** The image has pixels, and alpha and plates have its size. */
    ghost predicate Valid() {
      && 0 < width && 0 < height
      && |pixels| == 4 * Pixels() && (alpha.Some? ==> |alpha.value| == Pixels())
      && forall path :: path in plates ==> |plates[path]| == Pixels()
    }

    function Pixels(): (n: nat)
      requires 0 < width && 0 < height
    {
      ProductGrows(0, height, width);
      height as int * width as int
    }

    function Stage(): (stage: InkStage)
      ensures stage.mode == mode && stage.gcr.Valid()
    {
      StageOf(mode, params, combos)
    }

    function Metadata(): SpoolInfo
      requires 0 < width && 0 < height
    {
      SpoolInfo("", ChannelOrder(mode), mode.Channels(), width, height, xdpi, ydpi, LineBytes(width), MULTI_INK_FORMAT,
                seq(12, _ => 0), 0, 0, [])
    }

    predicate IsWhite(c: nat) {
      mode.HasWhite() && c == mode.ColourChannels()
    }

    predicate IsVarnish(c: nat) {
      mode.HasVarnish() && c == 9
    }

    predicate IsLight(c: nat) {
      4 <= c < mode.ColourChannels()
    }

    /** How the bounded path configures channel c. */
    function BoundedChannel(c: nat): ScreenChannel
      requires c < mode.Channels()
    {
      var key := MaskKeys(mode, whiteKey, varnishKey)[c];
      var kLike := InferredKLike(key);
      var white, varnish := IsWhite(c) && Flag(params, "whiteUseOwnDotStrategy"), IsVarnish(c) &&
        Flag(params, "varnishUseOwnDotStrategy");
      ScreenChannel(
        key,
        if Flag(params, "useLightInkMinThresholdOverride") && IsLight(c)
        then Clamp(MapInt(params, "lightInkMinThreshold", 2), 0, 254) else strategy.minInkThreshold,
        if varnish then Clamp(MapInt(params, "varnishSmallDotThreshold", 104), 0, 255)
        else if white then Clamp(MapInt(params, "whiteSmallDotThreshold", 104), 0, 255) else strategy.smallDotThreshold,
        if varnish then Clamp(MapInt(params, "varnishMedDotThreshold", 168), 0, 255)
        else if white then Clamp(MapInt(params, "whiteMedDotThreshold", 168), 0, 255) else strategy.medDotThreshold,
        if kLike then strategy.floorRangeK else strategy.floorRangeCMY,
        if kLike then strategy.floorMaxK else strategy.floorMaxCMY,
        strategy.enableDotSwap,
        if varnish then Flag(params, "varnishEnablePromotion")
        else if white then Flag(params, "whiteEnablePromotion") else strategy.enablePromotion,
        true)
    }

    function BoundedChannels(): (channels: seq<ScreenChannel>)
      ensures |channels| == mode.Channels() && forall c :: 0 <= c < |channels| ==> channels[c] == BoundedChannel(c)
    {
      seq(mode.Channels(), c requires 0 <= c < mode.Channels() => BoundedChannel(c))
    }

    /** How the in-memory path asks for channel c. */
    function MemoryChannel(c: nat, plane: seq<Tone>): ChannelRequest
      requires c < mode.Channels()
    {
      var base := ChannelRequest(MaskKeys(mode, whiteKey, varnishKey)[c], Some(plane), IsLight(c), false, 104, 168,
        false, true, -1);
      if IsVarnish(c) && Flag(params, "varnishUseOwnDotStrategy") then
        base.(useOwnDotStrategy := true,
              ownSmallDotThreshold := Clamp(MapInt(params, "varnishSmallDotThreshold", 104), 0, 255),
              ownMedDotThreshold := Clamp(MapInt(params, "varnishMedDotThreshold", 168), 0, 255),
              ownEnablePromotion := Flag(params, "varnishEnablePromotion"))
      else if IsWhite(c) && Flag(params, "whiteUseOwnDotStrategy") then
        base.(useOwnDotStrategy := true,
              ownSmallDotThreshold := Clamp(MapInt(params, "whiteSmallDotThreshold", 104), 0, 255),
              ownMedDotThreshold := Clamp(MapInt(params, "whiteMedDotThreshold", 168), 0, 255),
              ownEnablePromotion := Flag(params, "whiteEnablePromotion"))
      else base
    }

    function MemoryRequest(planes: seq<seq<Tone>>): ScreenRequest
      requires |planes| == mode.Channels()
    {
      ScreenRequest(width, height, seed, params, strategy,
                    seq(mode.Channels(), c requires 0 <= c < mode.Channels() => MemoryChannel(c, planes[c])))
    }

    /** A plate as the in-memory path loads it. */
    function MemoryPlate(path: string): Option<seq<Tone>> {
      if path in plates then Some(plates[path]) else None
    }

    /** A plate as the bounded path finds it: both plates are prepared only if their mode asks for them, and the
        one to use is picked by comparing paths. */
    function BoundedPlate(path: string): Option<seq<Tone>> {
      if path == whitePath then (if Stage().white.mode == 3 then MemoryPlate(whitePath) else None)
      else if Stage().varnish.mode == 3 then MemoryPlate(varnishPath) else None
    }

    /** The plates the tone builder gets to see on either path. */
    function WhiteSeen(bounded: bool): Option<seq<Tone>> {
      if Stage().white.mode != 3 then None else if bounded then BoundedPlate(whitePath) else MemoryPlate(whitePath)
    }

    function VarnishSeen(bounded: bool): Option<seq<Tone>> {
      if !mode.HasVarnish() || Stage().varnish.mode != 3 then None
      else if bounded then BoundedPlate(varnishPath) else MemoryPlate(varnishPath)
    }

    /** The varnish plate is the file configured for white, and white does not use it. */
    predicate PlateConflict() {
      && mode.HasVarnish() && Stage().varnish.mode == 3 && Stage().white.mode != 3
      && varnishPath == whitePath && varnishPath in plates
    }

    /** Whole tone planes of the image. */
    function TonePlanes(bounded: bool): (planes: seq<seq<Tone>>)
      requires Valid()
      ensures |planes| == mode.Channels() && forall c :: 0 <= c < |planes| ==> |planes[c]| == Pixels()
    {
      PlanesOf(Stage(), PixelsOf(Scaled(pixels, alpha), Pixels()), WhiteSeen(bounded), VarnishSeen(bounded))
    }

    function Plan(bounded: bool): ScreenPlan
      requires Valid()
    {
      ScreenPlan(width, height, seed, params, BoundedChannels(), masks, TonePlanes(bounded))
    }
  }

  /** The two paths see the same plates unless the job has a plate conflict. */
  lemma PlatesAgree(job: MultiInkJob)
    ensures job.WhiteSeen(true) == job.WhiteSeen(false)
    ensures job.VarnishSeen(true) == job.VarnishSeen(false) <==> !job.PlateConflict()
  {
  }

  /** In a conflict the bounded path lays down no varnish at all. */
  lemma ConflictBlanksVarnish(job: MultiInkJob, i: nat)
    requires job.Valid() && job.PlateConflict() && i < job.Pixels()
    ensures job.TonePlanes(true)[9][i] == job.Stage().varnishCurve(0)
    ensures job.TonePlanes(false)[9][i] ==
            job.Stage().varnishCurve(ThresholdDensity(job.plates[job.varnishPath][i], job.Stage().varnish.threshold,
                                                      job.Stage().varnish.density))
  {
    var px := PixelsOf(Scaled(job.pixels, job.alpha), job.Pixels());
    var stage := job.Stage();
    assert job.VarnishSeen(true) == None && job.VarnishSeen(false) == Some(job.plates[job.varnishPath]);
    VarnishPlane(stage, px, job.WhiteSeen(true), None, i);
    VarnishPlane(stage, px, job.WhiteSeen(false), Some(job.plates[job.varnishPath]), i);
  }

  /** The two paths configure every channel alike. */
  lemma ChannelsAgree(job: MultiInkJob, planes: seq<seq<Tone>>, c: nat)
    requires |planes| == job.mode.Channels() && c < job.mode.Channels()
    ensures Resolve(job.MemoryRequest(planes), job.MemoryRequest(planes).channels[c]) == job.BoundedChannel(c)
    ensures job.MemoryRequest(planes).channels[c].toneBytes == Some(planes[c])
  {
  }

  lemma RequestMirrorsPlan(job: MultiInkJob)
    requires job.Valid()
    ensures Mirrors(job.MemoryRequest(job.TonePlanes(false)), job.Plan(false))
  {
    RequestMirrors(job, job.TonePlanes(false), job.Plan(false));
  }

  lemma RequestMirrors(job: MultiInkJob, planes: seq<seq<Tone>>, plan: ScreenPlan)
    requires 0 < job.width && 0 < job.height
    requires |planes| == job.mode.Channels() && forall c :: 0 <= c < |planes| ==> |planes[c]| == job.Pixels()
    requires plan == ScreenPlan(job.width, job.height, job.seed, job.params, job.BoundedChannels(), job.masks, planes)
    ensures Mirrors(job.MemoryRequest(planes), plan)
  {
    forall c | 0 <= c < job.mode.Channels()
      ensures var ch := job.MemoryRequest(planes).channels[c];
              Resolve(job.MemoryRequest(planes), ch) == plan.channels[c] && ch.toneBytes == Some(planes[c])
    {
      ChannelsAgree(job, planes, c);
    }
  }

  /** `result` describes the job's finished file, which is on the disk. */
  ghost predicate Delivered(disk: Disk, sha: Sha256, job: MultiInkJob, bounded: bool, result: SpoolInfo)
    reads disk
  {
    && job.Valid() && job.Plan(bounded).Valid()
    && Holds(disk.files, sha, Prepared(job.Metadata()), Flatten(job.Plan(bounded).Lines()), result)
  }

  lemma SamplesZip(raw: seq<Tone>, count: nat)
    requires |raw| == 4 * count
    ensures Zips(Samples(raw, 0, count), Samples(raw, 1, count), Samples(raw, 2, count), Samples(raw, 3, count),
                 PixelsOf(raw, count))
  {
  }

  /** Why a job cannot be rastered however often it is tried. */
  ghost predicate Impossible(job: MultiInkJob)
    requires job.Valid()
  {
    !job.Plan(true).Valid() || !MetadataIsValid(Prepared(job.Metadata()))
  }

  /** Whole separations: separate, scale by alpha, build the tones. */
  method BuildTonesInMemory(job: MultiInkJob) returns (tones: seq<seq<Tone>>)
    requires job.Valid()
    ensures tones == job.TonePlanes(false)
  {
    tones := TonesOf(job.Stage(), job.pixels, job.alpha, job.WhiteSeen(false), job.VarnishSeen(false), job.Pixels());
  }

  method TonesOf(stage: InkStage, raw: seq<Tone>, alpha: Option<seq<Tone>>, white: Option<seq<Tone>>,
                 varnish: Option<seq<Tone>>, count: nat)
    returns (tones: seq<seq<Tone>>)
    requires stage.gcr.Valid() && |raw| == 4 * count && (alpha.Some? ==> |alpha.value| == count)
    requires (white.Some? ==> |white.value| == count) && (varnish.Some? ==> |varnish.value| == count)
    ensures tones == PlanesOf(stage, PixelsOf(Scaled(raw, alpha), count), white, varnish)
  {
    var c, m, y, k := ToneStage.Separate(raw, count);
    ScalePlane(c, raw, alpha, 0, count);
    ScalePlane(m, raw, alpha, 1, count);
    ScalePlane(y, raw, alpha, 2, count);
    ScalePlane(k, raw, alpha, 3, count);
    SamplesZip(Scaled(raw, alpha), count);
    tones := BuildToneChannels(stage, c, m, y, k, white, varnish, PixelsOf(Scaled(raw, alpha), count));
  }

  /** The in-memory path. */
  method BuildInMemory(job: MultiInkJob, disk: Disk, sha: Sha256, directory: string, token: string, cancel: CancelFlag)
    returns (result: Option<SpoolInfo>)
    requires job.Valid()
    modifies disk, cancel`raises
    ensures old(disk.faults) <= disk.faults && old(cancel.raises) <= cancel.raises
    ensures result.Some? ==> Delivered(disk, sha, job, false, result.value)
    ensures result.None? ==>
              !job.Plan(false).Valid() || !MetadataIsValid(Prepared(job.Metadata())) || cancel.Raised() ||
              old(disk.faults) < disk.faults || FinalPath(directory, token) in old(disk.files)
    ensures result.None? ==> SameElsewhere(old(disk.files), disk.files, {PartialPath(directory, token)})
  {
    var tones := BuildTonesInMemory(job);
    RequestMirrorsPlan(job);
    var packed := ScreenPlanned(job.MemoryRequest(tones), job.masks, cancel, job.Plan(false));
    if packed.None? {
      return None;
    }
    PlanLines(job.Metadata(), job.Plan(false));
    result := SpoolPlanes(job.Metadata(), packed.value, disk, sha, directory, token, cancel);
  }

  /** The tones of rows first..first + count. */
  function StripInks(stage: InkStage, scratch: Scratch, bytes: seq<Tone>, white: Option<seq<Tone>>,
                     varnish: Option<seq<Tone>>, width: nat, height: nat, first: int,
                     count: int): Option<seq<seq<Tone>>>
    requires stage.gcr.Valid() && |bytes| == 4 * (height * width)
    requires (white.Some? ==> |white.value| == height * width) && (varnish.Some? ==> |varnish.value| == height * width)
  {
    if first < 0 || count <= 0 || height < first + count || !scratch.restores(first, count) then None
    else
      ProductGrows(first + count, height, width);
      ProductGrows(first, first + count, width);
      ProductGrows(0, first, width);
      var from, to := first * width, (first + count) * width;
      Some(PlanesOf(stage, PixelsOf(bytes[4 * from..4 * to], to - from), Stretch(white, from, to),
                    Stretch(varnish, from, to)))
  }

  function InkProvider(stage: InkStage, scratch: Scratch, bytes: seq<Tone>, white: Option<seq<Tone>>,
                       varnish: Option<seq<Tone>>, width: nat, height: nat): ToneProvider
    requires stage.gcr.Valid() && |bytes| == 4 * (height * width)
    requires (white.Some? ==> |white.value| == height * width) && (varnish.Some? ==> |varnish.value| == height * width)
  {
    (first, count) => StripInks(stage, scratch, bytes, white, varnish, width, height, first, count)
  }

  /** The strip provider of the job, step by step. */
  method ProvideInkStrip(stage: InkStage, canonical: CanonicalFile, white: Option<seq<Tone>>,
                         varnish: Option<seq<Tone>>, first: int, count: int)
    returns (tones: Option<seq<seq<Tone>>>)
    requires stage.gcr.Valid() && |canonical.bytes| == 4 * (canonical.height * canonical.width)
    requires (white.Some? ==> |white.value| == canonical.height * canonical.width)
    requires (varnish.Some? ==> |varnish.value| == canonical.height * canonical.width)
    ensures tones ==
            StripInks(stage, canonical.scratch, canonical.bytes, white, varnish, canonical.width, canonical.height,
                      first, count)
  {
    var raw := canonical.ReadRows(first, count);
    if raw.None? {
      return None;
    }
    var width, height := canonical.width, canonical.height;
    ProductGrows(first + count, height, width);
    ProductGrows(first, first + count, width);
    ProductGrows(0, first, width);
    var from, to := first * width, (first + count) * width;
    var planes := TonesOf(stage, raw.value, None, Stretch(white, from, to), Stretch(varnish, from, to), to - from);
    tones := Some(planes);
  }

  /** Strips are slices of the whole planes, wherever they are cut. */
  lemma StripIsSlice(stage: InkStage, scratch: Scratch, bytes: seq<Tone>, white: Option<seq<Tone>>,
                     varnish: Option<seq<Tone>>, width: nat, height: nat, planes: seq<seq<Tone>>, first: nat,
                     count: nat)
    requires stage.gcr.Valid() && |bytes| == 4 * (height * width)
    requires (white.Some? ==> |white.value| == height * width) && (varnish.Some? ==> |varnish.value| == height * width)
    requires planes == PlanesOf(stage, PixelsOf(bytes, height * width), white, varnish)
    requires 0 < count && first + count <= height && scratch.restores(first, count)
    ensures StripInks(stage, scratch, bytes, white, varnish, width, height, first, count).Some?
    ensures var tones := StripInks(stage, scratch, bytes, white, varnish, width, height, first, count).value;
            WellSized(tones, |planes|, count * width) && StripOf(tones, planes, width, height, first, count)
  {
    var tones := StripInks(stage, scratch, bytes, white, varnish, width, height, first, count).value;
    ProductGrows(first + count, height, width);
    ProductGrows(first, first + count, width);
    ProductGrows(0, first, width);
    var from, to := first * width, (first + count) * width;
    assert to - from == count * width;
    PixelsOfStretch(bytes, height * width, from, to);
    forall c | 0 <= c < |planes|
      ensures tones[c] == planes[c][from..to]
    {
      PlanesOfPart(stage, PixelsOf(bytes, height * width), white, varnish, from, to, c);
    }
    RangeIsStrip(tones, planes, width, height, first, count);
  }

  lemma InkProviderDelivers(stage: InkStage, scratch: Scratch, bytes: seq<Tone>, white: Option<seq<Tone>>,
                            varnish: Option<seq<Tone>>, width: nat, height: nat, planes: seq<seq<Tone>>)
    requires stage.gcr.Valid() && |bytes| == 4 * (height * width)
    requires (white.Some? ==> |white.value| == height * width) && (varnish.Some? ==> |varnish.value| == height * width)
    requires planes == PlanesOf(stage, PixelsOf(bytes, height * width), white, varnish)
    ensures SlicesPlanes(InkProvider(stage, scratch, bytes, white, varnish, width, height), planes, width, height)
    ensures var provider := InkProvider(stage, scratch, bytes, white, varnish, width, height);
            ProviderFails(provider, |planes|, width, height) ==> scratch.Fails(height)
  {
    var provider := InkProvider(stage, scratch, bytes, white, varnish, width, height);
    forall first: nat, count: nat | 0 < count && first + count <= height && scratch.restores(first, count)
      ensures provider(first, count).Some? && WellSized(provider(first, count).value, |planes|, count * width)
      ensures StripOf(provider(first, count).value, planes, width, height, first, count)
    {
      StripIsSlice(stage, scratch, bytes, white, varnish, width, height, planes, first, count);
      assert provider(first, count) == StripInks(stage, scratch, bytes, white, varnish, width, height, first, count);
    }
  }

  /** The bounded path. */
  method BuildBounded(job: MultiInkJob, disk: Disk, sha: Sha256, directory: string, token: string, cancel: CancelFlag,
                      scratch: Scratch, canonicalRows: nat, requestedRows: int)
    returns (result: Option<SpoolInfo>)
    requires job.Valid() && 1 <= canonicalRows
    modifies disk, cancel`raises
    ensures old(disk.faults) <= disk.faults && old(cancel.raises) <= cancel.raises
    ensures result.Some? ==> Delivered(disk, sha, job, true, result.value)
    ensures result.None? ==>
              || Impossible(job) || scratch.Fails(job.height) || cancel.Raised() || old(disk.faults) < disk.faults
              || FinalPath(directory, token) in old(disk.files)
    ensures result.None? ==> SameElsewhere(old(disk.files), disk.files, {PartialPath(directory, token)})
  {
    var canonical := new CanonicalFile(scratch);
    var ok := canonical.Create(job.pixels, job.alpha, job.width, job.height, canonicalRows, cancel);
    if !ok {
      return None;
    }
    result := SpoolCanonical(job, canonical.bytes, disk, sha, directory, token, cancel, scratch, requestedRows);
  }

  lemma StripsReady(job: MultiInkJob, bytes: seq<Tone>, scratch: Scratch)
    requires job.Valid() && bytes == Scaled(job.pixels, job.alpha)
    ensures var provider := InkProvider(job.Stage(), scratch, bytes, job.WhiteSeen(true), job.VarnishSeen(true),
                                        job.width, job.height);
            && StripsFor(job.Metadata(), job.seed, job.params, job.BoundedChannels(), job.masks, provider,
                         job.Plan(true))
            && (ProviderFails(provider, |job.BoundedChannels()|, job.width, job.height) ==> scratch.Fails(job.height))
  {
    InkProviderDelivers(job.Stage(), scratch, bytes, job.WhiteSeen(true), job.VarnishSeen(true), job.width, job.height,
                        job.TonePlanes(true));
  }

  /** Spools the strips of the canonical image. */
  method SpoolCanonical(job: MultiInkJob, bytes: seq<Tone>, disk: Disk, sha: Sha256, directory: string, token: string,
                        cancel: CancelFlag, scratch: Scratch, requestedRows: int)
    returns (result: Option<SpoolInfo>)
    requires job.Valid() && bytes == Scaled(job.pixels, job.alpha)
    modifies disk, cancel`raises
    ensures old(disk.faults) <= disk.faults && old(cancel.raises) <= cancel.raises
    ensures result.Some? ==> Delivered(disk, sha, job, true, result.value)
    ensures result.None? ==>
              || Impossible(job) || scratch.Fails(job.height) || cancel.Raised() || old(disk.faults) < disk.faults
              || FinalPath(directory, token) in old(disk.files)
    ensures result.None? ==> SameElsewhere(old(disk.files), disk.files, {PartialPath(directory, token)})
  {
    var provider := InkProvider(job.Stage(), scratch, bytes, job.WhiteSeen(true), job.VarnishSeen(true), job.width,
                                job.height);
    StripsReady(job, bytes, scratch);
    result := SpoolStrips(job.Metadata(), job.seed, job.params, job.BoundedChannels(), job.masks, provider, disk, sha,
                          directory, token, cancel, requestedRows, job.Plan(true));
  }

  /** The tone the in-memory path gives the varnish of pixel i in a conflict. */
  function VarnishTone(job: MultiInkJob, i: nat): Tone
    requires job.Valid() && job.PlateConflict() && i < job.Pixels()
  {
    job.Stage().varnishCurve(ThresholdDensity(job.plates[job.varnishPath][i], job.Stage().varnish.threshold,
                                              job.Stage().varnish.density))
  }

  /** Both paths follow one plan exactly when the job has no plate conflict, or the plate lays down nowhere but
      what no plate lays down. */
  lemma PlansAgree(job: MultiInkJob)
    requires job.Valid()
    ensures job.Plan(true) == job.Plan(false) <==>
              || !job.PlateConflict()
              || forall i :: 0 <= i < job.Pixels() ==> VarnishTone(job, i) == job.Stage().varnishCurve(0)
  {
    PlatesAgree(job);
    if job.PlateConflict() {
      ConflictPlanes(job);
    }
  }

  /** In a conflict the varnish plane is the only one that can differ. */
  lemma ConflictPlanes(job: MultiInkJob)
    requires job.Valid() && job.PlateConflict()
    ensures job.TonePlanes(true) == job.TonePlanes(false) <==>
              forall i :: 0 <= i < job.Pixels() ==> VarnishTone(job, i) == job.Stage().varnishCurve(0)
  {
    var a, b := job.TonePlanes(true), job.TonePlanes(false);
    forall i | 0 <= i < job.Pixels()
      ensures a[9][i] == job.Stage().varnishCurve(0) && b[9][i] == VarnishTone(job, i)
    {
      ConflictBlanksVarnish(job, i);
    }
    forall c | 0 <= c < 9
      ensures a[c] == b[c]
    {
      OtherPlanes(job, c);
    }
    if forall i :: 0 <= i < job.Pixels() ==> VarnishTone(job, i) == job.Stage().varnishCurve(0) {
      assert a[9] == b[9];
    }
  }

  lemma OtherPlanes(job: MultiInkJob, c: nat)
    requires job.Valid() && job.PlateConflict() && c < 9
    ensures job.TonePlanes(true)[c] == job.TonePlanes(false)[c]
  {
    var px := PixelsOf(Scaled(job.pixels, job.alpha), job.Pixels());
    PlatesAgree(job);
    PlanesAre(job.Stage(), px, job.WhiteSeen(true), job.VarnishSeen(true), c);
    PlanesAre(job.Stage(), px, job.WhiteSeen(false), job.VarnishSeen(false), c);
  }

  /** A one-pixel job whose only ink is a full varnish plate, configured for white as well. */
  const CONFLICT: MultiInkJob :=
    MultiInkJob(1, 1, 720, 720, 0, [0, 0, 0, 0], None, TenColor, map["varnishMode" := 3], None,
                DotStrategy(0, 104, 168, false, 0, 0, 0, 0, false), "w", "v", "plate", "plate", map["plate" := [255]],
                map["c" := DOT_MASK, "m" := DOT_MASK, "y" := DOT_MASK, "k" := DOT_MASK, "lc" := DOT_MASK,
                    "lm" := DOT_MASK, "lk" := DOT_MASK, "llk" := DOT_MASK, "w" := DOT_MASK, "v" := DOT_MASK])

  const DOT_MASK: Mask := Mask(1, 1, [0])

  /** The only dot of a one-pixel plane without promotion. */
  lemma OnlyDot(plan: ScreenPlan, c: nat)
    requires plan.Valid() && plan.width == plan.height == 1 && c < |plan.channels| && !plan.channels[c].enablePromotion
    ensures plan.FinalOf(c)[0] == [RawDot(plan.channels[c], plan.MaskOf(c), plan.OffsetOf(c), plan.planes[c][0], 0, 0)]
  {
    assert Row(plan.planes[c], 1, 1, 0) == plan.planes[c];
  }

  /** Without a minimum a blank pixel gets no dot, and over a zero mask a full one gets some. */
  lemma BlankOrDotted(c: ScreenChannel, mask: Mask, offset: MaskOffset, u: Tone)
    requires mask == DOT_MASK && c.minInkThreshold == 0 && c.floorRange == 0 && (u == 0 || u == 255)
    ensures RawDot(c, mask, offset, u, 0, 0) == 0 <==> u == 0
  {
    if u == 255 {
      assert Normalized(0, 255) == 255;
      assert Threshold(mask, offset, 0, 0) == 0;
    }
  }

  /** Rows of different dots pack to different lines. */
  lemma PackedDiffer(a: seq<Dot>, b: seq<Dot>)
    requires |a| == |b| && a != b
    ensures PackedLine(a) != PackedLine(b)
  {
    UnpackPacked(a);
    UnpackPacked(b);
  }

  lemma ConflictJob()
    ensures CONFLICT.Valid() && CONFLICT.PlateConflict() && CONFLICT.Pixels() == 1
    ensures CONFLICT.Stage().varnishCurve(0) == 0 && VarnishTone(CONFLICT, 0) == 255
  {
    assert CONFLICT.Stage().varnish == SpecialtyConfig(3, 8, 255);
    assert ThresholdDensity(255, 8, 255) == 255;
  }

  lemma ConflictChannel()
    ensures CONFLICT.BoundedChannel(9).minInkThreshold == 0 && CONFLICT.BoundedChannel(9).floorRange == 0
    ensures CONFLICT.BoundedChannel(9).maskPath == "v" && !CONFLICT.BoundedChannel(9).enablePromotion
  {
  }

  lemma ConflictPlans()
    ensures CONFLICT.Valid() && CONFLICT.Plan(true).Valid() && CONFLICT.Plan(false).Valid()
  {
    ConflictJob();
    ConflictMasks();
  }

  lemma ConflictMasks()
    ensures DOT_MASK.Valid()
    ensures forall c :: 0 <= c < 10 ==>
              && CONFLICT.BoundedChannel(c).maskPath in CONFLICT.masks
              && CONFLICT.masks[CONFLICT.BoundedChannel(c).maskPath] == DOT_MASK
  {
    forall c | 0 <= c < 10
      ensures CONFLICT.BoundedChannel(c).maskPath in CONFLICT.masks &&
              CONFLICT.masks[CONFLICT.BoundedChannel(c).maskPath] == DOT_MASK
    {
    }
  }

  /** In a conflict the choice of path can change the bytes: this job comes out with a varnish dot on one path
      and without on the other. */
  lemma ConflictChangesOutput()
    ensures CONFLICT.Valid() && CONFLICT.PlateConflict() && CONFLICT.Plan(true).Valid() && CONFLICT.Plan(false).Valid()
    ensures CONFLICT.Plan(true).Lines() != CONFLICT.Plan(false).Lines()
  {
    ConflictJob();
    ConflictPlans();
    ConflictChannel();
    ConflictBlanksVarnish(CONFLICT, 0);
    VarnishDots(CONFLICT.Plan(true), CONFLICT.Plan(false));
  }

  /** Two one-pixel plans that differ in a full last plane differ in their lines. */
  lemma VarnishDots(blank: ScreenPlan, full: ScreenPlan)
    requires blank.Valid() && full.Valid() && blank.width == blank.height == full.width == full.height == 1
    requires |blank.channels| == 10 && blank.channels == full.channels && blank.masks == full.masks
    requires blank.MaskOf(9) == DOT_MASK && !blank.channels[9].enablePromotion
    requires blank.channels[9].minInkThreshold == 0 && blank.channels[9].floorRange == 0
    requires blank.planes[9][0] == 0 && full.planes[9][0] == 255
    ensures blank.Lines() != full.Lines()
  {
    OnlyDot(blank, 9);
    OnlyDot(full, 9);
    BlankOrDotted(blank.channels[9], DOT_MASK, blank.OffsetOf(9), 0);
    BlankOrDotted(full.channels[9], DOT_MASK, full.OffsetOf(9), 255);
    PackedDiffer(blank.FinalOf(9)[0], full.FinalOf(9)[0]);
    assert blank.Lines()[9][0] == PackedLine(blank.FinalOf(9)[0]) &&
           full.Lines()[9][0] == PackedLine(full.FinalOf(9)[0]);
  }

  /** Builds the spool on either path, or falls back from the first to the second; `bounded` says which one
      succeeded. Without a plate conflict the file is the same (PlansAgree). */
  method BuildRasterSpool(job: MultiInkJob, useInMemory: bool, disk: Disk, sha: Sha256, directory: string,
                          firstToken: string, secondToken: string, cancel: CancelFlag, scratch: Scratch,
                          canonicalRows: nat, requestedRows: int)
    returns (result: Option<SpoolInfo>, ghost bounded: bool)
    requires job.Valid() && 1 <= canonicalRows
    modifies disk, cancel`raises
    ensures result.Some? ==> Delivered(disk, sha, job, bounded, result.value)
    ensures result.None? ==>
              || Impossible(job) || scratch.Fails(job.height) || cancel.Raised() || old(disk.faults) < disk.faults
              || FinalPath(directory, secondToken) in old(disk.files)
    ensures result.None? ==>
              SameElsewhere(old(disk.files), disk.files,
                            {PartialPath(directory, firstToken), PartialPath(directory, secondToken)})
  {
    bounded := false;
    if useInMemory {
      var canceled;
      result, canceled := AttemptInMemory(job, disk, sha, directory, firstToken, cancel);
      if result.Some? || canceled {
        return;
      }
      FinalIsNotPartial(directory, secondToken, firstToken);
    }
    bounded := true;
    result := BuildBounded(job, disk, sha, directory, secondToken, cancel, scratch, canonicalRows, requestedRows);
  }

  /** The in-memory attempt, which may also fail for want of memory. */
  method AttemptInMemory(job: MultiInkJob, disk: Disk, sha: Sha256, directory: string, token: string,
                         cancel: CancelFlag)
    returns (result: Option<SpoolInfo>, canceled: bool)
    requires job.Valid()
    modifies disk, cancel`raises
    ensures old(disk.faults) <= disk.faults
    ensures result.Some? ==> Delivered(disk, sha, job, false, result.value)
    ensures result.None? ==> SameElsewhere(old(disk.files), disk.files, {PartialPath(directory, token)})
    ensures canceled ==> result.None? && cancel.Raised()
  {
    result, canceled := None, false;
    var memorySuffices: bool := *;
    if memorySuffices {
      result := BuildInMemory(job, disk, sha, directory, token, cancel);
    }
    if result.None? {
      canceled := cancel.Poll();
    }
  }
}
