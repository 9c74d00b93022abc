/** The X-33 job: builds a raster spool in memory or in bounded strips, and may fall back from the
    first to the second half-way. Every way it can succeed leaves the same file. */
module RasterJob {
  import opened Arithmetic
  import opened RasterTypes
  import opened ByteCodec
  import opened PixelScreening
  import opened ScreenSpec
  import opened ScreenEngine
  import opened BoundedPipeline
  import opened RasterBuild
  import opened ToneStage
  import opened SpoolFormat
  import opened SpoolBody
  import opened SpoolWriter
  import opened Storage
  import opened Cancellation

  const X33_FORMAT: UInt8 := 1

  datatype X33Job = X33Job(
    width: Int32,
    height: Int32,
    xdpi: Int32,
    ydpi: Int32,
    seed: bv32,
    pixels: seq<Tone>,
    alpha: Option<seq<Tone>>,
    plate: Option<seq<Tone>>,
    tone: ToneConfig,
    strategy: DotStrategy,
    whiteKey: string,
    whiteUsesOwnStrategy: bool,
    whiteSmallDot: int,
    whiteMedDot: int,
    whitePromotion: bool,
    printerHeader: Header12,
    masks: map<string, Mask>)
  {
    /** The image has pixels, and alpha and plate have its size. */
    ghost predicate Valid() {
      && 0 < width && 0 < height
      && |pixels| == 4 * Pixels() && (alpha.Some? ==> |alpha.value| == Pixels())
      && (plate.Some? ==> |plate.value| == Pixels())
    }

    function Pixels(): (n: nat)
      requires 0 < width && 0 < height
    {
      ProductGrows(0, height, width);
      height as int * width as int
    }

    function MaskKeys(): (keys: seq<string>)
      ensures |keys| == tone.Channels() && keys[0] != ""
    {
      if tone.whiteMode == Off then ["c", "m", "y", "k"] else ["c", "m", "y", "k", whiteKey]
    }

    function Metadata(): SpoolInfo
      requires 0 < width && 0 < height
    {
      SpoolInfo("", if tone.whiteMode == Off then [2, 1, 0, 3] else [2, 1, 0, 3, 4, 4], tone.Channels(),
                width, height, xdpi, ydpi, LineBytes(width), X33_FORMAT, printerHeader, 0, 0, [])
    }

    /** Whole tone planes of the image. */
    function TonePlanes(): (planes: seq<seq<Tone>>)
      requires Valid()
      ensures |planes| == tone.Channels() && forall c :: 0 <= c < |planes| ==> |planes[c]| == Pixels()
    {
      Planes(tone, Scaled(pixels, alpha), PlateUsed(tone, plate, Pixels()), Pixels())
    }

    /** How the bounded path configures channel c. */
    function BoundedChannel(c: nat): ScreenChannel
      requires c < tone.Channels()
    {
      var own := c == 4 && whiteUsesOwnStrategy;
      ScreenChannel(
        MaskKeys()[c],
        strategy.minInkThreshold,
        if own then whiteSmallDot else strategy.smallDotThreshold,
        if own then whiteMedDot else strategy.medDotThreshold,
        if c == 3 then strategy.floorRangeK else strategy.floorRangeCMY,
        if c == 3 then strategy.floorMaxK else strategy.floorMaxCMY,
        strategy.enableDotSwap,
        if own then whitePromotion else strategy.enablePromotion,
        false)
    }

    function BoundedChannels(): (channels: seq<ScreenChannel>)
      ensures |channels| == tone.Channels() && forall c :: 0 <= c < |channels| ==> channels[c] == BoundedChannel(c)
    {
      seq(tone.Channels(), c requires 0 <= c < tone.Channels() => BoundedChannel(c))
    }

    /** How the in-memory path asks for channel c. */
    function MemoryChannel(c: nat, plane: seq<Tone>): ChannelRequest
      requires c < tone.Channels()
    {
      var own := c == 4 && whiteUsesOwnStrategy;
      ChannelRequest(
        MaskKeys()[c], Some(plane), false, own,
        if own then whiteSmallDot else 104,
        if own then whiteMedDot else 168,
        own && whitePromotion,
        false,
        if c == 3 then 1 else 0)
    }

    function MemoryRequest(planes: seq<seq<Tone>>): (req: ScreenRequest)
      requires |planes| == tone.Channels()
      ensures |req.channels| == tone.Channels() && req.channels[0].maskKey != ""
    {
      ScreenRequest(width, height, seed, map[], strategy,
                    seq(tone.Channels(), c requires 0 <= c < tone.Channels() => MemoryChannel(c, planes[c])))
    }

    function Plan(): ScreenPlan
      requires Valid()
    {
      ScreenPlan(width, height, seed, map[], BoundedChannels(), masks, TonePlanes())
    }

    /** The plane-lines the spool must hold, in file order. */
    function SpoolLines(): seq<seq<Byte>>
      requires Valid() && Plan().Valid()
    {
      Flatten(Plan().Lines())
    }
  }

  /** The two paths configure every channel alike. */
  lemma ConfigurationsAgree(job: X33Job, planes: seq<seq<Tone>>, c: nat)
    requires |planes| == job.tone.Channels() && c < job.tone.Channels()
    ensures Resolve(job.MemoryRequest(planes), job.MemoryRequest(planes).channels[c]) == job.BoundedChannel(c)
  {
  }

  /** The job can be rastered, and `result` describes its finished file, which is on the disk. */
  ghost predicate Delivered(disk: Disk, sha: Sha256, job: X33Job, result: SpoolInfo)
    reads disk
  {
    && job.Valid() && job.Plan().Valid()
    && Holds(disk.files, sha, Prepared(job.Metadata()), job.SpoolLines(), result)
  }

  /** Why a job cannot be rastered however often it is tried. */
  ghost predicate Impossible(job: X33Job)
    requires job.Valid()
  {
    || !job.Plan().Valid() || !MetadataIsValid(Prepared(job.Metadata()))
    || (job.tone.whiteMode == Plate && job.plate.None?)
  }

  /** Whole planes through the full-frame engine. */
  method ScreenInMemory(job: X33Job, cancel: CancelFlag) returns (packed: Option<seq<seq<seq<Byte>>>>)
    requires job.Valid()
    modifies cancel`raises
    ensures old(cancel.raises) <= cancel.raises
    ensures packed.Some? ==> job.Plan().Valid() && packed.value == job.Plan().Lines()
    ensures packed.None? ==> cancel.Raised() || !job.Plan().Valid() || (job.tone.whiteMode == Plate && job.plate.None?)
  {
    var tones := BuildTones(job.tone, job.pixels, job.alpha, job.plate, job.Pixels());
    if tones.None? {
      return None;
    }
    RequestMirrorsPlan(job);
    packed := ScreenPlanned(job.MemoryRequest(tones.value), job.masks, cancel, job.Plan());
  }

  lemma RequestMirrorsPlan(job: X33Job)
    requires job.Valid()
    ensures Mirrors(job.MemoryRequest(job.TonePlanes()), job.Plan())
  {
    forall c | 0 <= c < job.tone.Channels()
      ensures Resolve(job.MemoryRequest(job.TonePlanes()), job.MemoryRequest(job.TonePlanes()).channels[c]) ==
              job.BoundedChannel(c)
    {
      ConfigurationsAgree(job, job.TonePlanes(), c);
    }
  }

  /** The in-memory path: whole planes, full-frame screening, plane after plane into the spool. */
  method BuildInMemory(job: X33Job, disk: Disk, sha: Sha256, directory: string, token: string, cancel: CancelFlag)
    returns (result: Option<SpoolInfo>)
    requires job.Valid()
    modifies disk, cancel`raises
    ensures old(disk.faults) <= disk.faults && old(cancel.raises) <= cancel.raises
    ensures result.Some? ==> Delivered(disk, sha, job, result.value)
    ensures result.None? ==>
              Impossible(job) || cancel.Raised() || old(disk.faults) < disk.faults ||
              FinalPath(directory, token) in old(disk.files)
    ensures result.None? ==> SameElsewhere(old(disk.files), disk.files, {PartialPath(directory, token)})
  {
    var packed := ScreenInMemory(job, cancel);
    if packed.None? {
      return None;
    }
    PlanLines(job.Metadata(), job.Plan());
    result := SpoolPlanes(job.Metadata(), packed.value, disk, sha, directory, token, cancel);
  }

  /** The tones of rows first..first + count, from the canonical bytes and the plate. */
  function StripTones(config: ToneConfig, scratch: Scratch, bytes: seq<Tone>, plate: Option<seq<Tone>>, width: nat,
                      height: nat, first: int, count: int): Option<seq<seq<Tone>>>
    requires |bytes| == 4 * (height * width) && (plate.Some? ==> |plate.value| == height * width)
  {
    if first < 0 || count <= 0 || height < first + count || !scratch.restores(first, count) ||
       (config.whiteMode == Plate && plate.None?)
    then None
    else
      ProductGrows(first + count, height, width);
      ProductGrows(first, first + count, width);
      ProductGrows(0, first, width);
      var from, to := first * width, (first + count) * width;
      assert to - from == count * width;
      Some(Planes(config, bytes[4 * from..4 * to], PlateUsed(config, plate, height * width)[from..to], count * width))
  }

  function ProviderOf(config: ToneConfig, scratch: Scratch, bytes: seq<Tone>, plate: Option<seq<Tone>>, width: nat,
                      height: nat): ToneProvider
    requires |bytes| == 4 * (height * width) && (plate.Some? ==> |plate.value| == height * width)
  {
    (first, count) => StripTones(config, scratch, bytes, plate, width, height, first, count)
  }

  /** The strip provider of the job, step by step: read canonical rows, separate, linearize, add white. */
  method ProvideStrip(config: ToneConfig, canonical: CanonicalFile, plate: Option<seq<Tone>>, first: int, count: int)
    returns (tones: Option<seq<seq<Tone>>>)
    requires |canonical.bytes| == 4 * (canonical.height * canonical.width)
    requires plate.Some? ==> |plate.value| == canonical.height * canonical.width
    ensures tones ==
            StripTones(config, canonical.scratch, canonical.bytes, plate, canonical.width, canonical.height, first,
                       count)
  {
    var raw := canonical.ReadRows(first, count);
    if raw.None? {
      return None;
    }
    var width, height := canonical.width, canonical.height;
    ProductGrows(first + count, height, width);
    ProductGrows(first, first + count, width);
    ProductGrows(0, first, width);
    var from, to := first * width, (first + count) * width;
    assert to - from == count * width;
    PlateStretch(config, plate, height * width, from, to);
    var plateRows := if plate.None? then None else Some(plate.value[from..to]);
    tones := BuildTones(config, raw.value, None, plateRows, to - from);
  }

  /** Strips are slices of the whole planes, wherever they are cut. */
  lemma ProviderSlices(config: ToneConfig, scratch: Scratch, bytes: seq<Tone>, plate: Option<seq<Tone>>, width: nat,
                       height: nat, planes: seq<seq<Tone>>)
    requires |bytes| == 4 * (height * width) && (plate.Some? ==> |plate.value| == height * width)
    requires planes == Planes(config, bytes, PlateUsed(config, plate, height * width), height * width)
    ensures SlicesPlanes(ProviderOf(config, scratch, bytes, plate, width, height), planes, width, height)
  {
    var provider := ProviderOf(config, scratch, bytes, plate, width, height);
    forall first: nat, count: nat |
      provider(first, count).Some? && first + count <= height &&
      WellSized(provider(first, count).value, |planes|, count * width)
      ensures StripOf(provider(first, count).value, planes, width, height, first, count)
    {
      StripIsSlice(config, scratch, bytes, plate, width, height, planes, first, count);
    }
  }

  lemma StripIsSlice(config: ToneConfig, scratch: Scratch, bytes: seq<Tone>, plate: Option<seq<Tone>>, width: nat,
                     height: nat, planes: seq<seq<Tone>>, first: nat, count: nat)
    requires |bytes| == 4 * (height * width) && (plate.Some? ==> |plate.value| == height * width)
    requires planes == Planes(config, bytes, PlateUsed(config, plate, height * width), height * width)
    requires first + count <= height && StripTones(config, scratch, bytes, plate, width, height, first, count).Some?
    requires var tones := StripTones(config, scratch, bytes, plate, width, height, first, count).value;
             WellSized(tones, |planes|, count * width)
    ensures var tones := StripTones(config, scratch, bytes, plate, width, height, first, count).value;
            StripOf(tones, planes, width, height, first, count)
  {
    var tones := StripTones(config, scratch, bytes, plate, width, height, first, count).value;
    ProductGrows(first + count, height, width);
    ProductGrows(first, first + count, width);
    ProductGrows(0, first, width);
    var from, to := first * width, (first + count) * width;
    forall c | 0 <= c < |planes|
      ensures tones[c] == planes[c][from..to]
    {
      PlanesOfStretch(config, bytes, PlateUsed(config, plate, height * width), height * width, from, to, c);
    }
    RangeIsStrip(tones, planes, width, height, first, count);
  }

  /** A strip of the job's rows fails only where the scratch file cannot be read back: the plate, if needed, is
      there, and the sizes agree. */
  lemma ProviderDelivers(config: ToneConfig, scratch: Scratch, bytes: seq<Tone>, plate: Option<seq<Tone>>, width: nat,
                         height: nat)
    requires |bytes| == 4 * (height * width) && (plate.Some? ==> |plate.value| == height * width)
    requires config.whiteMode == Plate ==> plate.Some?
    ensures var provider := ProviderOf(config, scratch, bytes, plate, width, height);
            ProviderFails(provider, config.Channels(), width, height) ==> scratch.Fails(height)
  {
    var provider := ProviderOf(config, scratch, bytes, plate, width, height);
    forall first: nat, count: nat | 0 < count && first + count <= height && scratch.restores(first, count)
      ensures provider(first, count).Some? && WellSized(provider(first, count).value, config.Channels(), count * width)
    {
      assert provider(first, count) == StripTones(config, scratch, bytes, plate, width, height, first, count);
    }
  }

  /** The bounded path: canonical rows on disk, strips through the rolling engine, lines as they settle. */
  method BuildBounded(job: X33Job, disk: Disk, sha: Sha256, directory: string, token: string, cancel: CancelFlag,
                      scratch: Scratch, canonicalRows: nat, requestedRows: int)
    returns (result: Option<SpoolInfo>)
    requires job.Valid() && 1 <= canonicalRows
    modifies disk, cancel`raises
    ensures old(disk.faults) <= disk.faults && old(cancel.raises) <= cancel.raises
    ensures result.Some? ==> Delivered(disk, sha, job, result.value)
    ensures result.None? ==>
              || Impossible(job) || scratch.Fails(job.height) || cancel.Raised() || old(disk.faults) < disk.faults
              || FinalPath(directory, token) in old(disk.files)
    ensures result.None? ==> SameElsewhere(old(disk.files), disk.files, {PartialPath(directory, token)})
  {
    var canonical := new CanonicalFile(scratch);
    var ok := canonical.Create(job.pixels, job.alpha, job.width, job.height, canonicalRows, cancel);
    if !ok || (job.tone.whiteMode == Plate && job.plate.None?) {
      return None;
    }
    result := SpoolCanonical(job, canonical.bytes, disk, sha, directory, token, cancel, scratch, requestedRows);
  }

  lemma StripsReady(job: X33Job, bytes: seq<Tone>, scratch: Scratch)
    requires job.Valid() && bytes == Scaled(job.pixels, job.alpha)
    requires !(job.tone.whiteMode == Plate && job.plate.None?)
    ensures var provider := ProviderOf(job.tone, scratch, bytes, job.plate, job.width, job.height);
            && StripsFor(job.Metadata(), job.seed, map[], job.BoundedChannels(), job.masks, provider, job.Plan())
            && (ProviderFails(provider, |job.BoundedChannels()|, job.width, job.height) ==> scratch.Fails(job.height))
  {
    ProviderSlices(job.tone, scratch, bytes, job.plate, job.width, job.height, job.TonePlanes());
    ProviderDelivers(job.tone, scratch, bytes, job.plate, job.width, job.height);
  }

  /** Spools the strips of the canonical image. */
  method SpoolCanonical(job: X33Job, bytes: seq<Tone>, disk: Disk, sha: Sha256, directory: string, token: string,
                        cancel: CancelFlag, scratch: Scratch, requestedRows: int)
    returns (result: Option<SpoolInfo>)
    requires job.Valid() && bytes == Scaled(job.pixels, job.alpha)
    requires !(job.tone.whiteMode == Plate && job.plate.None?)
    modifies disk, cancel`raises
    ensures old(disk.faults) <= disk.faults && old(cancel.raises) <= cancel.raises
    ensures result.Some? ==> Delivered(disk, sha, job, result.value)
    ensures result.None? ==>
              || Impossible(job) || scratch.Fails(job.height) || cancel.Raised() || old(disk.faults) < disk.faults
              || FinalPath(directory, token) in old(disk.files)
    ensures result.None? ==> SameElsewhere(old(disk.files), disk.files, {PartialPath(directory, token)})
  {
    var provider := ProviderOf(job.tone, scratch, bytes, job.plate, job.width, job.height);
    StripsReady(job, bytes, scratch);
    result := SpoolStrips(job.Metadata(), job.seed, map[], job.BoundedChannels(), job.masks, provider, disk, sha,
                          directory, token, cancel, requestedRows, job.Plan());
  }

  /** Builds the spool: in memory when the strategy says so, and in bounded strips otherwise or when the
      in-memory attempt did not complete. The file is the same whichever attempt succeeds. */
  method BuildRasterSpool(job: X33Job, useInMemory: bool, disk: Disk, sha: Sha256, directory: string,
                          firstToken: string, secondToken: string, cancel: CancelFlag,
                          scratch: Scratch, canonicalRows: nat, requestedRows: int)
    returns (result: Option<SpoolInfo>)
    requires job.Valid() && 1 <= canonicalRows
    modifies disk, cancel`raises
    ensures result.Some? ==> Delivered(disk, sha, job, result.value)
    ensures result.None? ==>
              || Impossible(job) || scratch.Fails(job.height) || cancel.Raised() || old(disk.faults) < disk.faults
              || FinalPath(directory, secondToken) in old(disk.files)
    ensures result.None? ==>
              SameElsewhere(old(disk.files), disk.files,
                {PartialPath(directory, firstToken), PartialPath(directory, secondToken)})
  {
    var memorySuffices: bool := *;
    if useInMemory && memorySuffices {
      result := BuildInMemory(job, disk, sha, directory, firstToken, cancel);
      if result.Some? {
        return;
      }
      FinalIsNotPartial(directory, secondToken, firstToken);
    }
    if useInMemory {
      var canceled := cancel.Poll();
      if canceled {
        return None;
      }
    }
    result := BuildBounded(job, disk, sha, directory, secondToken, cancel, scratch, canonicalRows, requestedRows);
  }
}
