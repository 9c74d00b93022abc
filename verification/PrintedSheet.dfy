/** What a reader finds who follows the channel order of a printed file: which ink each physical plane is, which samples
    of the image it was made of, and how it was screened. */
module PrintedSheet {
  import opened RasterTypes
  import opened PixelScreening
  import opened Promotion
  import opened ScreenSpec
  import opened ToneStage
  import opened ToneLaws
  import opened SpoolFormat
  import opened SpoolReader
  import opened Storage
  import opened NeutralTransfer
  import opened MultiInkTones
  import Packing
  import InkLaws
  import MultiInkJob
  import opened RasterJob
  import opened EndToEnd

  /** One plane of a sheet: the number its mask offset is drawn for, its settings and its tones. */
  datatype Separation = Separation(number: nat, settings: ScreenChannel, tones: seq<Tone>)

  /** Row y of the separation, screened on its own and packed. */
  function SheetLine(separation: Separation, masks: map<string, Mask>, seed: bv32, params: map<string, int>,
                     width: nat, height: nat, y: nat): seq<Byte>
    requires separation.settings.maskPath in masks && masks[separation.settings.maskPath].Valid()
    requires |separation.tones| == height * width && y < height
  {
    ScreenedLines(separation.settings, masks[separation.settings.maskPath], separation.number, seed,
                  ReadParameters(params), separation.tones, width, height)[y]
  }

  /** The plane of every fourth sample from `first` on, through a curve. */
  function EveryFourth(samples: seq<Tone>, first: nat, count: nat, curve: Option<Lut>): (plane: seq<Tone>)
    requires first < 4 && |samples| == 4 * count
    ensures |plane| == count
  {
    seq(count, i requires 0 <= i < count => ToneLaws.Through(curve, samples[4 * i + first]))
  }

  /** How X-33 jobs screen a colour: black has a floor of its own, and dots are sized by the plain tone. */
  function X33Colour(job: X33Job, key: string, black: bool): ScreenChannel {
    ScreenChannel(key, job.strategy.minInkThreshold, job.strategy.smallDotThreshold, job.strategy.medDotThreshold,
                  if black then job.strategy.floorRangeK else job.strategy.floorRangeCMY,
                  if black then job.strategy.floorMaxK else job.strategy.floorMaxCMY,
                  job.strategy.enableDotSwap, job.strategy.enablePromotion, false)
  }

  /** White is screened like a colour, unless it has dot thresholds and promotion of its own. */
  function X33White(job: X33Job): ScreenChannel {
    var colour := X33Colour(job, job.whiteKey, false);
    if job.whiteUsesOwnStrategy then
      colour.(smallDotThreshold := job.whiteSmallDot, medDotThreshold := job.whiteMedDot,
              enablePromotion := job.whitePromotion)
    else colour
  }

  /** The planes of an X-33 sheet in the order they are printed: yellow, magenta, cyan, black and, if there is white,
      white twice. An image pixel is cyan, magenta, yellow, black. */
  ghost function X33Sheet(job: X33Job): (sheet: seq<Separation>)
    requires job.Valid()
  {
    var scaled, n, curves := Scaled(job.pixels, job.alpha), job.Pixels(), job.tone.curves;
    var colours :=
      [Separation(2, X33Colour(job, "y", false), EveryFourth(scaled, 2, n, CurveOf(curves, (l: Curves) => l.y))),
       Separation(1, X33Colour(job, "m", false), EveryFourth(scaled, 1, n, CurveOf(curves, (l: Curves) => l.m))),
       Separation(0, X33Colour(job, "c", false), EveryFourth(scaled, 0, n, CurveOf(curves, (l: Curves) => l.c))),
       Separation(3, X33Colour(job, "k", true), EveryFourth(scaled, 3, n, CurveOf(curves, (l: Curves) => l.k)))];
    if job.tone.whiteMode == Off then colours
    else
      var plate := PlateUsed(job.tone, job.plate, n);
      var white := Separation(4, X33White(job), seq(n, i requires 0 <= i < n => WhiteTone(job.tone, scaled, plate, i)));
      colours + [white, white]
  }

  /** The dots before promotion: each the raw dot of its own sample, read row by row, against the mask from the offset
      drawn for the separation's number. */
  ghost predicate RawDots(separation: Separation, mask: Mask, seed: bv32, f: Frame) {
    && mask.Valid() && f.Valid() && |separation.tones| == f.height * f.width
    && forall x: nat, y: nat {:trigger RawCell(separation, mask, seed, f, x, y)} :: x < f.width && y < f.height ==>
         RawCell(separation, mask, seed, f, x, y)
  }

  ghost predicate RawCell(separation: Separation, mask: Mask, seed: bv32, f: Frame, x: nat, y: nat)
    requires mask.Valid() && f.Valid() && x < f.width && y < f.height
  {
    && y * f.width + x < |separation.tones|
    && f.dots[y][x] == RawDot(separation.settings, mask, OffsetFor(mask, separation.number, seed),
                              separation.tones[y * f.width + x], x, y)
    && f.tones[y][x] == ClassTone(separation.settings, separation.tones[y * f.width + x])
  }

  /** A line of a separation is the packed row of its raw dots, after promotion if it promotes. */
  lemma LineIsPromoted(separation: Separation, masks: map<string, Mask>, seed: bv32, params: map<string, int>,
                       width: nat, height: nat, y: nat)
    returns (f: Frame, goal: seq<seq<Dot>>)
    requires separation.settings.maskPath in masks && masks[separation.settings.maskPath].Valid()
    requires |separation.tones| == height * width && y < height
    ensures f.width == width && f.height == height && |goal| == height
    ensures RawDots(separation, masks[separation.settings.maskPath], seed, f)
    ensures if separation.settings.enablePromotion then Settles(f, ReadParameters(params), goal) else goal == f.dots
    ensures SheetLine(separation, masks, seed, params, width, height, y) == Packing.PackedLine(goal[y])
  {
    var mask := masks[separation.settings.maskPath];
    f := ChannelFrame(separation.settings, mask, OffsetFor(mask, separation.number, seed), separation.tones, width,
                      height);
    goal := FinalRaster(separation.settings, ReadParameters(params), f);
    FrameIsRaw(separation, mask, seed, width, height);
  }

  lemma FrameIsRaw(separation: Separation, mask: Mask, seed: bv32, width: nat, height: nat)
    requires mask.Valid() && |separation.tones| == height * width
    ensures var offset := OffsetFor(mask, separation.number, seed);
            RawDots(separation, mask, seed,
                    ChannelFrame(separation.settings, mask, offset, separation.tones, width, height))
  {
    var offset := OffsetFor(mask, separation.number, seed);
    var f := ChannelFrame(separation.settings, mask, offset, separation.tones, width, height);
    forall x: nat, y: nat | x < width && y < height
      ensures RawCell(separation, mask, seed, f, x, y)
    {
      FrameCell(separation.settings, mask, offset, separation.tones, width, height, x, y);
    }
  }

  lemma FrameCell(c: ScreenChannel, mask: Mask, offset: MaskOffset, tones: seq<Tone>, width: nat, height: nat, x: nat,
                  y: nat)
    requires mask.Valid() && |tones| == height * width && x < width && y < height
    ensures y * width + x < |tones|
    ensures ChannelFrame(c, mask, offset, tones, width, height).dots[y][x] ==
            RawDot(c, mask, offset, tones[y * width + x], x, y)
    ensures ChannelFrame(c, mask, offset, tones, width, height).tones[y][x] == ClassTone(c, tones[y * width + x])
  {
    CellInPlane(x, y, width, height);
    var row := Row(tones, width, height, y);
    assert row[x] == tones[y * width + x];
    assert RawRow(c, mask, offset, row, y)[x] == RawDot(c, mask, offset, row[x], x, y);
    assert ClassRow(c, row)[x] == ClassTone(c, row[x]);
  }

  /** The separation is a channel of the plan. */
  ghost predicate Planned(plan: ScreenPlan, separation: Separation) {
    && separation.number < |plan.channels| == |plan.planes|
    && plan.channels[separation.number] == separation.settings && plan.planes[separation.number] == separation.tones
  }

  /** The file prints the sheet: plane j of its channel order, read line by line, is separation j screened. */
  ghost predicate PrintsSheet(sheet: seq<Separation>, plan: ScreenPlan, spool: SpoolInfo, file: seq<Byte>) {
    && plan.Valid() && MetadataIsValid(spool) && |file| == HEADER_BYTES + ExpectedBodyBytes(spool)
    && |spool.channelOrder| == |sheet| && spool.height == plan.height
    && forall j: nat, y: nat :: j < |sheet| && y < plan.height ==> PrintsLine(sheet[j], plan, spool, file, j, y)
  }

  ghost predicate PrintsLine(separation: Separation, plan: ScreenPlan, spool: SpoolInfo, file: seq<Byte>, j: nat,
                             y: nat)
    requires MetadataIsValid(spool) && |file| == HEADER_BYTES + ExpectedBodyBytes(spool)
    requires j < |spool.channelOrder| && y < spool.height as int && y < plan.height
  {
    && separation.settings.maskPath in plan.masks && plan.masks[separation.settings.maskPath].Valid()
    && |separation.tones| == plan.height * plan.width && spool.channelOrder[j] in spool.channelOrder
    && StoredLine(spool, file, spool.channelOrder[j], y) ==
       SheetLine(separation, plan.masks, plan.seed, plan.parameters, plan.width, plan.height, y)
  }

  lemma SheetOfPlan(metadata: SpoolInfo, plan: ScreenPlan, spool: SpoolInfo, file: seq<Byte>, sheet: seq<Separation>)
    requires PrintsPlan(metadata, plan, spool, file) && |metadata.channelOrder| == |sheet|
    requires forall j :: 0 <= j < |sheet| ==>
               Planned(plan, sheet[j]) && metadata.channelOrder[j] == sheet[j].number
    ensures PrintsSheet(sheet, plan, spool, file)
  {
    forall j: nat, y: nat | j < |sheet| && y < plan.height
      ensures PrintsLine(sheet[j], plan, spool, file, j, y)
    {
      var c := sheet[j].number;
      assert Planned(plan, sheet[j]);
      assert StoredLine(spool, file, c, y) == PlannedLine(plan, c, y);
      assert plan.Lines()[c] == ScreenedLines(plan.channels[c], plan.MaskOf(c), c, plan.seed,
                                              ReadParameters(plan.parameters), plan.planes[c], plan.width, plan.height);
    }
  }

  /** A printed X-33 file carries the sheet of the job, yellow first. */
  lemma X33SheetPrinted(job: X33Job, spool: SpoolInfo, file: seq<Byte>)
    requires job.Valid() && PrintsPlan(job.Metadata(), job.Plan(), spool, file)
    ensures spool.channelOrder == if job.tone.whiteMode == Off then [2, 1, 0, 3] else [2, 1, 0, 3, 4, 4]
    ensures spool.width == job.width && spool.height == job.height && spool.xdpi == job.xdpi && spool.ydpi == job.ydpi
    ensures spool.format == 1 && spool.canonicalHeader == job.printerHeader
    ensures var plan := job.Plan();
            && plan.width == job.width && plan.height == job.height && plan.seed == job.seed && plan.masks == job.masks
            && plan.parameters == map[]
    ensures PrintsSheet(X33Sheet(job), job.Plan(), spool, file)
  {
    var sheet := X33Sheet(job);
    forall j | 0 <= j < |sheet|
      ensures Planned(job.Plan(), sheet[j]) && job.Metadata().channelOrder[j] == sheet[j].number
    {
      X33SeparationPlanned(job, j);
    }
    SheetOfPlan(job.Metadata(), job.Plan(), spool, file, sheet);
  }

  lemma X33SeparationPlanned(job: X33Job, j: nat)
    requires job.Valid() && j < |X33Sheet(job)|
    ensures |job.Metadata().channelOrder| == |X33Sheet(job)|
    ensures Planned(job.Plan(), X33Sheet(job)[j]) && job.Metadata().channelOrder[j] == X33Sheet(job)[j].number
  {
    X33Tones(job, j);
  }

  lemma X33Tones(job: X33Job, j: nat)
    requires job.Valid() && j < |X33Sheet(job)|
    ensures X33Sheet(job)[j].number < job.tone.Channels()
    ensures job.TonePlanes()[X33Sheet(job)[j].number] == X33Sheet(job)[j].tones
  {
    X33Colours(job);
    if 4 <= j {
      X33WhitePlane(job);
    }
  }

  lemma X33Colours(job: X33Job)
    requires job.Valid()
    ensures var scaled, n, curves := Scaled(job.pixels, job.alpha), job.Pixels(), job.tone.curves;
            && job.TonePlanes()[0] == EveryFourth(scaled, 0, n, CurveOf(curves, (l: Curves) => l.c))
            && job.TonePlanes()[1] == EveryFourth(scaled, 1, n, CurveOf(curves, (l: Curves) => l.m))
            && job.TonePlanes()[2] == EveryFourth(scaled, 2, n, CurveOf(curves, (l: Curves) => l.y))
            && job.TonePlanes()[3] == EveryFourth(scaled, 3, n, CurveOf(curves, (l: Curves) => l.k))
  {
    X33ColourPlane(job, 0, CurveOf(job.tone.curves, (l: Curves) => l.c));
    X33ColourPlane(job, 1, CurveOf(job.tone.curves, (l: Curves) => l.m));
    X33ColourPlane(job, 2, CurveOf(job.tone.curves, (l: Curves) => l.y));
    X33ColourPlane(job, 3, CurveOf(job.tone.curves, (l: Curves) => l.k));
  }

  lemma X33ColourPlane(job: X33Job, c: nat, curve: Option<Lut>)
    requires job.Valid() && c < 4 && curve == Curve(job.tone.curves, c)
    ensures job.TonePlanes()[c] == EveryFourth(Scaled(job.pixels, job.alpha), c, job.Pixels(), curve)
  {
    forall i | 0 <= i < job.Pixels()
      ensures job.TonePlanes()[c][i] == ToneLaws.Through(curve, Scaled(job.pixels, job.alpha)[4 * i + c])
    {
      X33Entry(job, c, i);
    }
  }

  lemma X33WhitePlane(job: X33Job)
    requires job.Valid() && job.tone.whiteMode != Off
    ensures var scaled, n := Scaled(job.pixels, job.alpha), job.Pixels();
            job.TonePlanes()[4] ==
            seq(n, i requires 0 <= i < n => WhiteTone(job.tone, scaled, PlateUsed(job.tone, job.plate, n), i))
  {
    forall i | 0 <= i < job.Pixels()
      ensures job.TonePlanes()[4][i] ==
              WhiteTone(job.tone, Scaled(job.pixels, job.alpha), PlateUsed(job.tone, job.plate, job.Pixels()), i)
    {
      X33Entry(job, 4, i);
    }
  }

  lemma X33Entry(job: X33Job, c: nat, i: nat)
    requires job.Valid() && c < job.tone.Channels() && i < job.Pixels()
    ensures job.TonePlanes()[c][i] ==
            ToneOf(job.tone, Scaled(job.pixels, job.alpha), PlateUsed(job.tone, job.plate, job.Pixels()), c, i)
  {
  }

  /** What a finished X-33 build leaves on the disk is a file of that sheet. */
  lemma X33SheetDelivered(disk: Disk, sha: Sha256, job: X33Job, result: SpoolInfo)
    requires Delivered(disk, sha, job, result)
    ensures result.path in disk.files && PrintsSheet(X33Sheet(job), job.Plan(), result, disk.files[result.path])
  {
    DeliveredFile(job.Metadata(), job.Plan(), sha, result.path);
    X33SheetPrinted(job, result, disk.files[result.path]);
  }

  /** The mask an ink is screened with. */
  function KeyOf(job: MultiInkJob.MultiInkJob, ink: InkLaws.Ink): string {
    match ink
    case Yellow => "y"
    case Magenta => "m"
    case Cyan => "c"
    case Black => "k"
    case LightMagenta => "lm"
    case LightCyan => "lc"
    case LightBlack => "lk"
    case LighterBlack => "llk"
    case White => job.whiteKey
    case Varnish => job.varnishKey
  }

  /** How multi-ink jobs screen an ink: dots are sized by the lifted tone; inks with a black-like mask have the floor
      of black; light inks may have a minimum of their own, white and varnish thresholds and promotion of their own. */
  function InkSettings(job: MultiInkJob.MultiInkJob, ink: InkLaws.Ink): ScreenChannel {
    var key, s := KeyOf(job, ink), job.strategy;
    var blackLike := key in {"k", "lk", "llk", "w", "v"};
    var light := ink.LightMagenta? || ink.LightCyan? || ink.LightBlack? || ink.LighterBlack?;
    var base := ScreenChannel(
      key,
      if light && On(job.params, "useLightInkMinThresholdOverride")
      then InkLaws.Bounded(job.params, "lightInkMinThreshold", 2, 254) else s.minInkThreshold,
      s.smallDotThreshold, s.medDotThreshold, if blackLike then s.floorRangeK else s.floorRangeCMY,
      if blackLike then s.floorMaxK else s.floorMaxCMY, s.enableDotSwap, s.enablePromotion, true);
    if ink.White? && On(job.params, "whiteUseOwnDotStrategy") then
      base.(smallDotThreshold := InkLaws.Bounded(job.params, "whiteSmallDotThreshold", 104, 255),
            medDotThreshold := InkLaws.Bounded(job.params, "whiteMedDotThreshold", 168, 255),
            enablePromotion := On(job.params, "whiteEnablePromotion"))
    else if ink.Varnish? && On(job.params, "varnishUseOwnDotStrategy") then
      base.(smallDotThreshold := InkLaws.Bounded(job.params, "varnishSmallDotThreshold", 104, 255),
            medDotThreshold := InkLaws.Bounded(job.params, "varnishMedDotThreshold", 168, 255),
            enablePromotion := On(job.params, "varnishEnablePromotion"))
    else base
  }

  predicate On(params: map<string, int>, key: string) {
    key in params && params[key] != 0
  }

  /** Pixel i of interleaved samples: cyan, magenta, yellow, black. */
  function PixelAt(samples: seq<Tone>, i: nat): Cmyk
    requires 4 * i + 3 < |samples|
  {
    Cmyk(samples[4 * i], samples[4 * i + 1], samples[4 * i + 2], samples[4 * i + 3])
  }

  function SampleOf(plate: Option<seq<Tone>>, i: nat): Option<Tone>
    requires plate.Some? ==> i < |plate.value|
  {
    if plate.None? then None else Some(plate.value[i])
  }

  /** The tone of an ink at pixel i. */
  ghost function InkTone(job: MultiInkJob.MultiInkJob, bounded: bool, ink: InkLaws.Ink, i: nat): Tone
    requires job.Valid() && i < job.Pixels()
  {
    InkLaws.NamedTone(job.mode, job.params, job.combos, ink, PixelAt(Scaled(job.pixels, job.alpha), i),
                      SampleOf(job.WhiteSeen(bounded), i), SampleOf(job.VarnishSeen(bounded), i))
  }

  /** The plane of an ink. */
  ghost function InkPlane(job: MultiInkJob.MultiInkJob, bounded: bool, ink: InkLaws.Ink): (plane: seq<Tone>)
    requires job.Valid()
    ensures |plane| == job.Pixels()
  {
    seq(job.Pixels(), i requires 0 <= i < job.Pixels() => InkTone(job, bounded, ink, i))
  }

  ghost function InkSeparation(job: MultiInkJob.MultiInkJob, bounded: bool, ink: InkLaws.Ink): Separation
    requires job.Valid()
  {
    Separation(InkLaws.NumberOf(job.mode, ink), InkSettings(job, ink), InkPlane(job, bounded, ink))
  }

  /** The planes of a multi-ink sheet in the order they are printed. */
  ghost function InkSheet(job: MultiInkJob.MultiInkJob, bounded: bool): (sheet: seq<Separation>)
    requires job.Valid()
    ensures |sheet| == |InkLaws.InksOf(job.mode)|
  {
    var inks := InkLaws.InksOf(job.mode);
    seq(|inks|, j requires 0 <= j < |inks| => InkSeparation(job, bounded, inks[j]))
  }

  /** A printed multi-ink file carries the inks of its set in order: yellow, magenta, cyan, black, light magenta, light
      cyan, light black, lighter black, white, varnish, as far as the set has them. */
  lemma InkSheetPrinted(job: MultiInkJob.MultiInkJob, bounded: bool, spool: SpoolInfo, file: seq<Byte>)
    requires job.Valid() && PrintsPlan(job.Metadata(), job.Plan(bounded), spool, file)
    ensures spool.width == job.width && spool.height == job.height && spool.xdpi == job.xdpi && spool.ydpi == job.ydpi
    ensures spool.format == 2 && spool.canonicalHeader == [0, 0, 0, 0, 0, 0, 0, 0, 0, 0, 0, 0]
    ensures var plan := job.Plan(bounded);
            && plan.width == job.width && plan.height == job.height && plan.seed == job.seed && plan.masks == job.masks
            && plan.parameters == job.params
    ensures PrintsSheet(InkSheet(job, bounded), job.Plan(bounded), spool, file)
  {
    var sheet := InkSheet(job, bounded);
    OrderLength(job.mode);
    forall j | 0 <= j < |sheet|
      ensures Planned(job.Plan(bounded), sheet[j]) && job.Metadata().channelOrder[j] == sheet[j].number
    {
      InkSeparationPlanned(job, bounded, j);
    }
    SheetOfPlan(job.Metadata(), job.Plan(bounded), spool, file, sheet);
  }

  lemma OrderLength(mode: InkMode)
    ensures |MultiInkJob.ChannelOrder(mode)| == |InkLaws.InksOf(mode)|
    ensures forall j :: 0 <= j < |InkLaws.InksOf(mode)| ==>
              && MultiInkJob.ChannelOrder(mode)[j] == InkLaws.NumberOf(mode, InkLaws.InksOf(mode)[j])
              && InkLaws.Has(mode, InkLaws.InksOf(mode)[j])
  {
  }

  lemma InkSeparationPlanned(job: MultiInkJob.MultiInkJob, bounded: bool, j: nat)
    requires job.Valid() && j < |InkLaws.InksOf(job.mode)|
    ensures Planned(job.Plan(bounded), InkSheet(job, bounded)[j])
    ensures |MultiInkJob.ChannelOrder(job.mode)| == |InkLaws.InksOf(job.mode)|
    ensures job.Metadata().channelOrder[j] == InkSheet(job, bounded)[j].number
  {
    OrderLength(job.mode);
    var ink := InkLaws.InksOf(job.mode)[j];
    PlaneOfInk(job, bounded, ink);
    SettingsOfInk(job, ink);
  }

  lemma PlaneOfInk(job: MultiInkJob.MultiInkJob, bounded: bool, ink: InkLaws.Ink)
    requires job.Valid() && InkLaws.Has(job.mode, ink)
    ensures InkLaws.NumberOf(job.mode, ink) < job.mode.Channels()
    ensures job.TonePlanes(bounded)[InkLaws.NumberOf(job.mode, ink)] == InkPlane(job, bounded, ink)
  {
    NumberWithin(job.mode, ink);
    forall i | 0 <= i < job.Pixels()
      ensures job.TonePlanes(bounded)[InkLaws.NumberOf(job.mode, ink)][i] == InkTone(job, bounded, ink, i)
    {
      ToneEntry(job, bounded, InkLaws.NumberOf(job.mode, ink), i);
      EntryOfInk(job, bounded, ink, i);
    }
  }

  lemma EntryOfInk(job: MultiInkJob.MultiInkJob, bounded: bool, ink: InkLaws.Ink, i: nat)
    requires job.Valid() && InkLaws.Has(job.mode, ink) && i < job.Pixels()
    ensures InkLaws.NumberOf(job.mode, ink) < job.mode.Channels()
    ensures ToneAt(StageOf(job.mode, job.params, job.combos), InkLaws.NumberOf(job.mode, ink),
                   PixelAt(Scaled(job.pixels, job.alpha), i), SampleOf(job.WhiteSeen(bounded), i),
                   SampleOf(job.VarnishSeen(bounded), i)) == InkTone(job, bounded, ink, i)
  {
    InkLaws.TonesByInk(job.mode, job.params, job.combos, ink, PixelAt(Scaled(job.pixels, job.alpha), i),
                       SampleOf(job.WhiteSeen(bounded), i), SampleOf(job.VarnishSeen(bounded), i));
  }

  lemma ToneEntry(job: MultiInkJob.MultiInkJob, bounded: bool, c: nat, i: nat)
    requires job.Valid() && c < job.mode.Channels() && i < job.Pixels()
    ensures job.TonePlanes(bounded)[c][i] ==
            ToneAt(StageOf(job.mode, job.params, job.combos), c, PixelAt(Scaled(job.pixels, job.alpha), i),
                   SampleOf(job.WhiteSeen(bounded), i), SampleOf(job.VarnishSeen(bounded), i))
  {
    var scaled, n := Scaled(job.pixels, job.alpha), job.Pixels();
    PlaneEntry(job.Stage(), PixelsOf(scaled, n), job.WhiteSeen(bounded), job.VarnishSeen(bounded), c, i);
    PixelIs(scaled, n, i);
  }

  /** The plates in memory: those configured for white and varnish, when their mode asks for one. */
  lemma PlatesInMemory(job: MultiInkJob.MultiInkJob)
    ensures job.WhiteSeen(false) ==
            if InkLaws.Bounded(job.params, "whiteMode", 0, 3) == 3 && job.whitePath in job.plates
            then Some(job.plates[job.whitePath]) else None
    ensures job.VarnishSeen(false) ==
            if InkLaws.Bounded(job.params, "varnishMode", 0, 3) == 3 && job.mode.TenColor? &&
               job.varnishPath in job.plates
            then Some(job.plates[job.varnishPath]) else None
  {
    InkLaws.SpecialtySettings(job.mode, job.params, job.combos);
  }

  lemma PixelIs(samples: seq<Tone>, n: nat, i: nat)
    requires |samples| == 4 * n && i < n
    ensures PixelsOf(samples, n)[i] == PixelAt(samples, i)
  {
  }

  lemma NumberWithin(mode: InkMode, ink: InkLaws.Ink)
    requires InkLaws.Has(mode, ink)
    ensures InkLaws.NumberOf(mode, ink) < mode.Channels()
  {
  }

  lemma PlaneEntry(stage: InkStage, px: seq<Cmyk>, white: Option<seq<Tone>>, varnish: Option<seq<Tone>>, c: nat, i: nat)
    requires stage.gcr.Valid() && c < stage.mode.Channels() && i < |px|
    requires (white.Some? ==> |white.value| == |px|) && (varnish.Some? ==> |varnish.value| == |px|)
    ensures PlanesOf(stage, px, white, varnish)[c][i] ==
            ToneAt(stage, c, px[i], SampleOf(white, i), SampleOf(varnish, i))
  {
    PlanesAre(stage, px, white, varnish, c);
  }

  lemma KeyOfInk(job: MultiInkJob.MultiInkJob, ink: InkLaws.Ink)
    requires InkLaws.Has(job.mode, ink)
    ensures InkLaws.NumberOf(job.mode, ink) < job.mode.Channels()
    ensures MultiInkJob.MaskKeys(job.mode, job.whiteKey, job.varnishKey)[InkLaws.NumberOf(job.mode, ink)] ==
            KeyOf(job, ink)
  {
  }

  lemma RoleOfInk(job: MultiInkJob.MultiInkJob, ink: InkLaws.Ink)
    requires InkLaws.Has(job.mode, ink)
    ensures var c := InkLaws.NumberOf(job.mode, ink);
            && (job.IsWhite(c) <==> ink.White?) && (job.IsVarnish(c) <==> ink.Varnish?)
            && (job.IsLight(c) <==> ink.LightMagenta? || ink.LightCyan? || ink.LightBlack? || ink.LighterBlack?)
  {
  }

  lemma SettingsOfInk(job: MultiInkJob.MultiInkJob, ink: InkLaws.Ink)
    requires InkLaws.Has(job.mode, ink)
    ensures InkLaws.NumberOf(job.mode, ink) < job.mode.Channels()
    ensures job.BoundedChannel(InkLaws.NumberOf(job.mode, ink)) == InkSettings(job, ink)
  {
    KeyOfInk(job, ink);
    RoleOfInk(job, ink);
    SettingsByRole(job, ink, InkLaws.NumberOf(job.mode, ink));
  }

  lemma SettingsByRole(job: MultiInkJob.MultiInkJob, ink: InkLaws.Ink, c: nat)
    requires c < job.mode.Channels()
    requires MultiInkJob.MaskKeys(job.mode, job.whiteKey, job.varnishKey)[c] == KeyOf(job, ink)
    requires (job.IsWhite(c) <==> ink.White?) && (job.IsVarnish(c) <==> ink.Varnish?)
    requires job.IsLight(c) <==> ink.LightMagenta? || ink.LightCyan? || ink.LightBlack? || ink.LighterBlack?
    ensures job.BoundedChannel(c) == InkSettings(job, ink)
  {
  }
}
