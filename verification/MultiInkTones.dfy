/** The multi-ink tone stage: from CMYK samples to one tone plane for each ink, for every ink set. */
module MultiInkTones {
  import opened RasterTypes
  import opened ToneStage
  import opened InkSplit
  import opened NeutralTransfer
  import opened Promotion
  import TransferCurves

  datatype InkMode = FourColor | FiveColor | SixColor | SevenColor | EightColor | TenColor {
    function ColourChannels(): nat {
      match this
      case FourColor => 4
      case FiveColor => 4
      case SixColor => 6
      case SevenColor => 6
      case EightColor => 8
      case TenColor => 8
    }

    predicate HasWhite() {
      FiveColor? || SevenColor? || TenColor?
    }

    predicate HasVarnish() {
      TenColor?
    }

    function Channels(): nat {
      ColourChannels() + (if HasWhite() then 1 else 0) + (if HasVarnish() then 1 else 0)
    }
  }

  datatype SpecialtyConfig = SpecialtyConfig(mode: int, threshold: Tone, density: Tone)

  /** What an ink set does to a pixel, in functions of single tones. */
  datatype InkStage = InkStage(
    mode: InkMode,
    gcr: GcrParams,
    cyan: Tone -> Pair,
    magenta: Tone -> Pair,
    black: Tone -> Triple,
    postC: Tone -> Tone,
    postM: Tone -> Tone,
    postY: Tone -> Tone,
    postK: Tone -> Tone,
    white: SpecialtyConfig,
    varnish: SpecialtyConfig,
    whiteCurve: Tone -> Tone,
    varnishCurve: Tone -> Tone)

  function ByteOf(params: map<string, int>, key: string, fallback: int): Tone {
    Clamp(MapInt(params, key, fallback), 0, 255)
  }

  function GcrOf(params: map<string, int>): (p: GcrParams)
    ensures p.Valid()
  {
    GcrParams(
      Flag(params, "gcrEnabled"),
      ByteOf(params, "neutralGate", 14),
      ByteOf(params, "gcrMaxTone", 180),
      ByteOf(params, "gcrStrength", 160),
      ByteOf(params, "kGain", 220),
      ByteOf(params, "kMinInNeutral", 6),
      Clamp(MapInt(params, "lcFadePctInNeutral", 70), 0, 100),
      Clamp(MapInt(params, "lmFadePctInNeutral", 50), 0, 100))
  }

  /** The light-ink ramps; their defaults depend on the ink set. */
  function CyanRamp(mode: InkMode, params: map<string, int>): Split2Params {
    var wide := mode.SevenColor? || mode.TenColor?;
    Split2Params(ByteOf(params, "cLightStart", if wide then 48 else 24),
      ByteOf(params, "cLightEnd", if wide then 160 else 96))
  }

  function MagentaRamp(mode: InkMode, params: map<string, int>): Split2Params {
    var wide := mode.SevenColor? || mode.TenColor?;
    Split2Params(ByteOf(params, "mLightStart", if wide then 48 else 16),
      ByteOf(params, "mLightEnd", if wide then 160 else 80))
  }

  function BlackRamps(mode: InkMode, params: map<string, int>): Split3Params {
    if mode.TenColor? then
      Split3Params(ByteOf(params, "kT1Start", 32), ByteOf(params, "kT1End", 128), ByteOf(params, "kT2Start", 128),
        ByteOf(params, "kT2End", 224))
    else
      Split3Params(ByteOf(params, "kT1Start", 24), ByteOf(params, "kT1End", 112), ByteOf(params, "kT2Start", 120),
        ByteOf(params, "kT2End", 228))
  }

  function Same(tone: Tone): Tone {
    tone
  }

  function Through(lut: Lut): Tone -> Tone {
    (tone: Tone) => lut[tone]
  }

  /** Without tables light inks are cross-faded; with tables every ink has its own. */
  function StageOf(mode: InkMode, params: map<string, int>, combos: Option<Combos>): (stage: InkStage)
    ensures stage.mode == mode && stage.gcr.Valid()
  {
    var gcr := GcrOf(params);
    var white := SpecialtyConfig(Clamp(MapInt(params, "whiteMode", 0), 0, 3), ByteOf(params, "whiteThreshold", 8),
      ByteOf(params, "whiteDensity", 255));
    var varnish := SpecialtyConfig(Clamp(MapInt(params, "varnishMode", 0), 0, 3),
      ByteOf(params, "varnishThreshold", 8), ByteOf(params, "varnishDensity", 255));
    match combos
    case None =>
      var cyan, magenta, black := CyanRamp(mode, params), MagentaRamp(mode, params), BlackRamps(mode, params);
      InkStage(mode, gcr, (v: Tone) => Split2(v, cyan), (v: Tone) => Split2(v, magenta), (v: Tone) => Split3(v, black),
               Same, Same, Same, Same, white, varnish, Same, Same)
    case Some(l) =>
      InkStage(mode, gcr,
               (v: Tone) => Pair(l.cDark[v], l.cLight[v]), (v: Tone) => Pair(l.mDark[v], l.mLight[v]),
               (v: Tone) => Triple(l.kLighter[v], l.kLight[v], l.kDark[v]),
               if mode.ColourChannels() == 4 then Through(l.cDark) else Same,
               if mode.ColourChannels() == 4 then Through(l.mDark) else Same,
               Through(l.y),
               if mode.ColourChannels() <= 6 then Through(l.kDark) else Same,
               white, varnish, Through(l.white), Through(l.varnish))
  }

  /** The pixel after grey replacement and after what linearization changes in place. */
  function Post(stage: InkStage, px: Cmyk): Cmyk {
    var a := Transferred(stage.gcr, px);
    Cmyk(stage.postC(a.c), stage.postM(a.m), stage.postY(a.y), stage.postK(a.k))
  }

  /** Tone of a colour ink. */
  function InkAt(stage: InkStage, channel: nat, px: Cmyk): Tone
    requires channel < stage.mode.ColourChannels() && stage.gcr.Valid()
  {
    var a, post := Transferred(stage.gcr, px), Post(stage, px);
    match stage.mode.ColourChannels()
    case 4 => [post.c, post.m, post.y, post.k][channel]
    case 6 => [stage.cyan(a.c).dark, stage.magenta(a.m).dark, post.y, post.k, stage.magenta(a.m).light,
      stage.cyan(a.c).light][channel]
    case _ =>
      var black := stage.black(a.k);
      [stage.cyan(a.c).dark, stage.magenta(a.m).dark, post.y, black.dark,
       LightInk(stage.gcr, a.c, a.m, post.y, stage.cyan(a.c).light, stage.gcr.cyanFadePct),
       LightInk(stage.gcr, a.c, a.m, post.y, stage.magenta(a.m).light, stage.gcr.magentaFadePct),
       black.light, black.lighter][channel]
  }

  /** Tone of a specialty ink before its curve. A missing plate leaves the ink off. */
  function SpecialtyAt(config: SpecialtyConfig, post: Cmyk, plate: Option<Tone>): Tone {
    if config.mode == 1
    then ThresholdDensity(Heaviest(post.c, post.m, post.y, post.k), config.threshold, config.density)
    else if config.mode == 2 then config.density
    else if config.mode == 3 && plate.Some? then ThresholdDensity(plate.value, config.threshold, config.density)
    else 0
  }

  function ToneAt(stage: InkStage, channel: nat, px: Cmyk, white: Option<Tone>, varnish: Option<Tone>): Tone
    requires channel < stage.mode.Channels() && stage.gcr.Valid()
  {
    if channel < stage.mode.ColourChannels() then InkAt(stage, channel, px)
    else if channel == stage.mode.ColourChannels()
    then stage.whiteCurve(SpecialtyAt(stage.white, Post(stage, px), white))
    else stage.varnishCurve(SpecialtyAt(stage.varnish, Post(stage, px), varnish))
  }

  function CyanTotal(stage: InkStage, px: Cmyk): int
    requires stage.gcr.Valid() && 6 <= stage.mode.ColourChannels()
  {
    InkAt(stage, 0, px) + InkAt(stage, if stage.mode.ColourChannels() == 6 then 5 else 4, px)
  }

  function MagentaTotal(stage: InkStage, px: Cmyk): int
    requires stage.gcr.Valid() && 6 <= stage.mode.ColourChannels()
  {
    InkAt(stage, 1, px) + InkAt(stage, if stage.mode.ColourChannels() == 6 then 4 else 5, px)
  }

  function BlackTotal(stage: InkStage, px: Cmyk): int
    requires stage.gcr.Valid() && 6 <= stage.mode.ColourChannels()
  {
    if stage.mode.ColourChannels() == 6 then InkAt(stage, 3, px)
    else InkAt(stage, 3, px) + InkAt(stage, 6, px) + InkAt(stage, 7, px)
  }

  /** With grey replacement off, nothing but the splits decides how much ink a separation gets. */
  lemma TotalsAreSplits(stage: InkStage, px: Cmyk)
    requires stage.gcr.Valid() && 6 <= stage.mode.ColourChannels() && !stage.gcr.enabled
    ensures CyanTotal(stage, px) == stage.cyan(px.c).dark + stage.cyan(px.c).light
    ensures MagentaTotal(stage, px) == stage.magenta(px.m).dark + stage.magenta(px.m).light
    ensures BlackTotal(stage, px) ==
            if stage.mode.ColourChannels() == 6 then stage.postK(px.k) else Sum(stage.black(px.k))
  {
  }

  lemma CrossfadeSplits(mode: InkMode, params: map<string, int>, v: Tone)
    ensures var stage := StageOf(mode, params, None);
            && stage.cyan(v) == Split2(v, CyanRamp(mode, params)) &&
               stage.magenta(v) == Split2(v, MagentaRamp(mode, params))
            && stage.black(v) == Split3(v, BlackRamps(mode, params)) && stage.postK(v) == v
            && stage.gcr.enabled == Flag(params, "gcrEnabled")
  {
  }

  /** A cross-faded ink set with grey replacement off lays down, in dark and light inks together, exactly the
      separation they come from: always for cyan and magenta, and for black with disjoint bands. */
  lemma CrossfadeConserves(mode: InkMode, params: map<string, int>, px: Cmyk)
    requires !Flag(params, "gcrEnabled") && 6 <= mode.ColourChannels()
    ensures CyanTotal(StageOf(mode, params, None), px) == px.c
    ensures MagentaTotal(StageOf(mode, params, None), px) == px.m
    ensures mode.ColourChannels() == 6 || BandsInOrder(BlackRamps(mode, params)) ==>
              BlackTotal(StageOf(mode, params, None), px) == px.k
  {
    var stage := StageOf(mode, params, None);
    CrossfadeSplits(mode, params, px.c);
    CrossfadeSplits(mode, params, px.m);
    CrossfadeSplits(mode, params, px.k);
    TotalsAreSplits(stage, px);
    Split2Conserves(px.c, CyanRamp(mode, params));
    Split2Conserves(px.m, MagentaRamp(mode, params));
    if BandsInOrder(BlackRamps(mode, params)) {
      Split3Conserves(px.k, BlackRamps(mode, params));
    }
  }

  /** On the cross-faded path the light inks are faded in every pixel grey replacement has changed. */
  lemma CrossfadeFadeCovers(mode: InkMode, params: map<string, int>, px: Cmyk)
    requires mode.ColourChannels() == 8 && Transferred(GcrOf(params), px) != px
    ensures var stage, a := StageOf(mode, params, None), Transferred(GcrOf(params), px);
            && InkAt(stage, 4, px) == Faded(Split2(a.c, CyanRamp(mode, params)).light, stage.gcr.cyanFadePct)
            && InkAt(stage, 5, px) == Faded(Split2(a.m, MagentaRamp(mode, params)).light, stage.gcr.magentaFadePct)
  {
    var stage, a := StageOf(mode, params, None), Transferred(GcrOf(params), px);
    FadeCoversTransfer(stage.gcr, px, Split2(a.c, CyanRamp(mode, params)).light, stage.gcr.cyanFadePct);
    FadeCoversTransfer(stage.gcr, px, Split2(a.m, MagentaRamp(mode, params)).light, stage.gcr.magentaFadePct);
  }

  /** With tables the fade looks at linearized yellow: the light inks of a changed pixel are faded exactly when
      that yellow leaves the pixel neutral. */
  lemma TablesFade(mode: InkMode, params: map<string, int>, l: Combos, px: Cmyk)
    requires mode.ColourChannels() == 8 && Transferred(GcrOf(params), px) != px
    ensures var stage, a := StageOf(mode, params, Some(l)), Transferred(GcrOf(params), px);
            var neutral := Neutral(GcrOf(params), a.c, a.m, l.y[a.y]);
            && InkAt(stage, 4, px) == (if neutral then Faded(l.cLight[a.c], stage.gcr.cyanFadePct) else l.cLight[a.c])
            && InkAt(stage, 5, px) ==
               (if neutral then Faded(l.mLight[a.m], stage.gcr.magentaFadePct) else l.mLight[a.m])
  {
    TransferKeeps(GcrOf(params), px);
  }

  /** Where the light ink of a dark one is, for cyan, magenta and black. */
  function LightChannel(mode: InkMode, dark: nat): nat
    requires 6 <= mode.ColourChannels() && (dark <= 1 || (dark == 3 && mode.ColourChannels() == 8))
  {
    if dark == 3 then 6
    else if mode.ColourChannels() == 8 then (if dark == 0 then 4 else 5)
    else if dark == 0 then 5 else 4
  }

  /** The transfer-curve channel of a light ink. */
  function CurveChannel(dark: nat): nat {
    if dark == 0 then TransferCurves.LC else if dark == 1 then TransferCurves.LM else TransferCurves.LK
  }

  /** Where a light ink has no curve of its own, what is printed with it at a pixel never exceeds what is printed
      with its dark ink, whatever grey replacement and fading do; likewise for the lighter black. */
  lemma DerivedInkAtMostDark(mode: InkMode, params: map<string, int>, entries: seq<Option<TransferCurves.CurveEntry>>,
                             dark: nat, px: Cmyk)
    requires 6 <= mode.ColourChannels() && (dark <= 1 || (dark == 3 && mode.ColourChannels() == 8))
    requires TransferCurves.LastEntry(entries, dark).Some?
    ensures var stage := StageOf(mode, params, Some(TransferCurves.CombosOf(TransferCurves.LoadedLuts(entries))));
            && (TransferCurves.LastEntry(entries, CurveChannel(dark)).None? ==>
                  InkAt(stage, LightChannel(mode, dark), px) <= InkAt(stage, dark, px))
            && (dark == 3 && TransferCurves.LastEntry(entries, TransferCurves.LLK).None? ==>
                  InkAt(stage, 7, px) <= InkAt(stage, 3, px))
  {
    var luts := TransferCurves.LoadedLuts(entries);
    if TransferCurves.LastEntry(entries, CurveChannel(dark)).None? {
      TransferCurves.LoadedAtMostParent(entries, CurveChannel(dark));
      LightInkAtMostDark(mode, params, TransferCurves.CombosOf(luts), dark, px);
    }
    if dark == 3 && TransferCurves.LastEntry(entries, TransferCurves.LLK).None? {
      TransferCurves.LoadedAtMostParent(entries, TransferCurves.LLK);
      LighterInkAtMostDark(mode, params, TransferCurves.CombosOf(luts), px);
    }
  }

  lemma LightInkAtMostDark(mode: InkMode, params: map<string, int>, l: Combos, dark: nat, px: Cmyk)
    requires 6 <= mode.ColourChannels() && (dark <= 1 || (dark == 3 && mode.ColourChannels() == 8))
    requires var (light, full) := if dark == 0 then (l.cLight, l.cDark) else if dark == 1 then (l.mLight, l.mDark)
                                  else (l.kLight, l.kDark);
             TransferCurves.AtMost(light, full)
    ensures InkAt(StageOf(mode, params, Some(l)), LightChannel(mode, dark), px) <=
            InkAt(StageOf(mode, params, Some(l)), dark, px)
  {
  }

  lemma LighterInkAtMostDark(mode: InkMode, params: map<string, int>, l: Combos, px: Cmyk)
    requires mode.ColourChannels() == 8 && TransferCurves.AtMost(l.kLighter, l.kDark)
    ensures InkAt(StageOf(mode, params, Some(l)), 7, px) <= InkAt(StageOf(mode, params, Some(l)), 3, px)
  {
  }

  function Steep(): Lut {
    seq(256, i requires 0 <= i < 256 => Min(255, 2 * i))
  }

  /** Identity tables, except that yellow is lifted. */
  const LIFTED_YELLOW: Combos :=
    var same := IdentityLut();
    Combos(same, same, same, same, Steep(), same, same, same, same, same)

  const GCR_ON: map<string, int> := map["gcrEnabled" := 1]

  lemma GreyReplaced()
    ensures GcrOf(GCR_ON) == GcrParams(true, 14, 180, 160, 220, 6, 70, 50)
    ensures Transferred(GcrOf(GCR_ON), Cmyk(100, 100, 100, 0)) == Cmyk(38, 38, 38, 53)
  {
    assert Fraction(100, 160) == 62 && Fraction(62, 220) == 53;
  }

  /** Which need not be so: with default settings and a table that doubles yellow, grey 100 is replaced, but its
      light inks keep the 38 the tables give them instead of the 11 and 19 the cross-faded path would print. */
  lemma TablesFadeMisses()
    ensures var px := Cmyk(100, 100, 100, 0); var stage := StageOf(EightColor, GCR_ON, Some(LIFTED_YELLOW));
            && Transferred(stage.gcr, px) == Cmyk(38, 38, 38, 53)
            && InkAt(stage, 4, px) == 38 && InkAt(stage, 5, px) == 38
            && stage.gcr.cyanFadePct == 70 && Faded(38, 70) == 11
            && stage.gcr.magentaFadePct == 50 && Faded(38, 50) == 19
  {
    var px := Cmyk(100, 100, 100, 0);
    GreyReplaced();
    TablesFade(EightColor, GCR_ON, LIFTED_YELLOW, px);
  }

  function Mapped(f: Tone -> Tone, tone: seq<Tone>): seq<Tone> {
    seq(|tone|, i requires 0 <= i < |tone| => f(tone[i]))
  }

  /** Applies a table to a plane, in place. */
  method MapPlane(tone: array<Tone>, f: Tone -> Tone)
    modifies tone
    ensures tone[..] == Mapped(f, old(tone[..]))
  {
    var i := 0;
    while i < tone.Length
      invariant 0 <= i <= tone.Length
      invariant forall j :: 0 <= j < i ==> tone[j] == f(old(tone[j]))
      invariant forall j :: i <= j < tone.Length ==> tone[j] == old(tone[j])
    {
      tone[i] := f(tone[i]);
      i := i + 1;
    }
  }

  function DarkOf(f: Tone -> Pair, tone: seq<Tone>): seq<Tone> {
    seq(|tone|, i requires 0 <= i < |tone| => f(tone[i]).dark)
  }

  function LightOf(f: Tone -> Pair, tone: seq<Tone>): seq<Tone> {
    seq(|tone|, i requires 0 <= i < |tone| => f(tone[i]).light)
  }

  method SplitPair(tone: seq<Tone>, f: Tone -> Pair) returns (dark: array<Tone>, light: array<Tone>)
    ensures fresh(dark) && fresh(light) && dark != light
    ensures dark[..] == DarkOf(f, tone) && light[..] == LightOf(f, tone)
  {
    dark, light := new Tone[|tone|](_ => 0), new Tone[|tone|](_ => 0);
    var i := 0;
    while i < |tone|
      invariant 0 <= i <= |tone|
      invariant forall j :: 0 <= j < i ==> dark[j] == f(tone[j]).dark && light[j] == f(tone[j]).light
    {
      dark[i], light[i] := f(tone[i]).dark, f(tone[i]).light;
      i := i + 1;
    }
  }

  function LighterOf3(f: Tone -> Triple, tone: seq<Tone>): seq<Tone> {
    seq(|tone|, i requires 0 <= i < |tone| => f(tone[i]).lighter)
  }

  function LightOf3(f: Tone -> Triple, tone: seq<Tone>): seq<Tone> {
    seq(|tone|, i requires 0 <= i < |tone| => f(tone[i]).light)
  }

  function DarkOf3(f: Tone -> Triple, tone: seq<Tone>): seq<Tone> {
    seq(|tone|, i requires 0 <= i < |tone| => f(tone[i]).dark)
  }

  method SplitTriple(tone: seq<Tone>, f: Tone -> Triple) returns (lighter: seq<Tone>, light: seq<Tone>, dark: seq<Tone>)
    ensures lighter == LighterOf3(f, tone) && light == LightOf3(f, tone) && dark == DarkOf3(f, tone)
  {
    var a, b, c := new Tone[|tone|](_ => 0), new Tone[|tone|](_ => 0), new Tone[|tone|](_ => 0);
    var i := 0;
    while i < |tone|
      invariant 0 <= i <= |tone|
      invariant forall j :: 0 <= j < i ==>
                a[j] == f(tone[j]).lighter && b[j] == f(tone[j]).light && c[j] == f(tone[j]).dark
    {
      a[i], b[i], c[i] := f(tone[i]).lighter, f(tone[i]).light, f(tone[i]).dark;
      i := i + 1;
    }
    lighter, light, dark := a[..], b[..], c[..];
  }

  /** Four planes and the pixels they make up. */
  ghost predicate Zips(c: seq<Tone>, m: seq<Tone>, y: seq<Tone>, k: seq<Tone>, px: seq<Cmyk>) {
    |c| == |m| == |y| == |k| == |px| && forall i :: 0 <= i < |px| ==> px[i] == Cmyk(c[i], m[i], y[i], k[i])
  }

  ghost function Adjusted(stage: InkStage, px: seq<Cmyk>): seq<Cmyk> {
    seq(|px|, i requires 0 <= i < |px| => Transferred(stage.gcr, px[i]))
  }

  ghost function Finished(stage: InkStage, px: seq<Cmyk>): seq<Cmyk> {
    seq(|px|, i requires 0 <= i < |px| => Post(stage, px[i]))
  }

  function InkPlaneOf(stage: InkStage, px: seq<Cmyk>, channel: nat): seq<Tone>
    requires channel < stage.mode.ColourChannels() && stage.gcr.Valid()
  {
    seq(|px|, i requires 0 <= i < |px| => InkAt(stage, channel, px[i]))
  }

  /** The light inks of the six- and seven-colour sets. */
  lemma SixInks(stage: InkStage, px: seq<Cmyk>, c: seq<Tone>, m: seq<Tone>, y: seq<Tone>, k: seq<Tone>,
                yPost: seq<Tone>, kPost: seq<Tone>)
    requires stage.mode.ColourChannels() == 6 && stage.gcr.Valid()
    requires Zips(c, m, y, k, Adjusted(stage, px)) && yPost == Mapped(stage.postY, y) && kPost == Mapped(stage.postK, k)
    ensures DarkOf(stage.cyan, c) == InkPlaneOf(stage, px, 0) && DarkOf(stage.magenta, m) == InkPlaneOf(stage, px, 1)
    ensures yPost == InkPlaneOf(stage, px, 2) && kPost == InkPlaneOf(stage, px, 3)
    ensures LightOf(stage.magenta, m) == InkPlaneOf(stage, px, 4) && LightOf(stage.cyan, c) == InkPlaneOf(stage, px, 5)
  {
    assert forall i :: 0 <= i < |px| ==> Adjusted(stage, px)[i] == Transferred(stage.gcr, px[i]);
  }

  lemma FourInks(stage: InkStage, px: seq<Cmyk>, c: seq<Tone>, m: seq<Tone>, y: seq<Tone>, k: seq<Tone>)
    requires stage.mode.ColourChannels() == 4 && stage.gcr.Valid() && Zips(c, m, y, k, Finished(stage, px))
    ensures c == InkPlaneOf(stage, px, 0) && m == InkPlaneOf(stage, px, 1)
    ensures y == InkPlaneOf(stage, px, 2) && k == InkPlaneOf(stage, px, 3)
  {
    assert forall i :: 0 <= i < |px| ==> Finished(stage, px)[i] == Post(stage, px[i]);
  }

  /** The unfaded inks of the eight- and ten-colour sets. */
  lemma EightInks(stage: InkStage, px: seq<Cmyk>, c: seq<Tone>, m: seq<Tone>, y: seq<Tone>, k: seq<Tone>,
                  yPost: seq<Tone>)
    requires stage.mode.ColourChannels() == 8 && stage.gcr.Valid()
    requires Zips(c, m, y, k, Adjusted(stage, px)) && yPost == Mapped(stage.postY, y)
    ensures DarkOf(stage.cyan, c) == InkPlaneOf(stage, px, 0) && DarkOf(stage.magenta, m) == InkPlaneOf(stage, px, 1)
    ensures yPost == InkPlaneOf(stage, px, 2) && DarkOf3(stage.black, k) == InkPlaneOf(stage, px, 3)
    ensures LightOf3(stage.black, k) == InkPlaneOf(stage, px, 6) &&
            LighterOf3(stage.black, k) == InkPlaneOf(stage, px, 7)
  {
    assert forall i :: 0 <= i < |px| ==> Adjusted(stage, px)[i] == Transferred(stage.gcr, px[i]);
  }

  lemma EightLights(stage: InkStage, px: seq<Cmyk>, c: seq<Tone>, m: seq<Tone>, y: seq<Tone>, k: seq<Tone>,
                    yPost: seq<Tone>, cLight: seq<Tone>, mLight: seq<Tone>)
    requires stage.mode.ColourChannels() == 8 && stage.gcr.Valid()
    requires Zips(c, m, y, k, Adjusted(stage, px)) && yPost == Mapped(stage.postY, y) && |cLight| == |mLight| == |px|
    requires forall i :: 0 <= i < |px| ==>
              cLight[i] == LightInk(stage.gcr, c[i], m[i], yPost[i], LightOf(stage.cyan, c)[i], stage.gcr.cyanFadePct)
    requires forall i :: 0 <= i < |px| ==>
               mLight[i] == LightInk(stage.gcr, c[i], m[i], yPost[i], LightOf(stage.magenta, m)[i],
                                     stage.gcr.magentaFadePct)
    ensures cLight == InkPlaneOf(stage, px, 4) && mLight == InkPlaneOf(stage, px, 5)
  {
    assert forall i :: 0 <= i < |px| ==> Adjusted(stage, px)[i] == Transferred(stage.gcr, px[i]);
  }

  /** Grey replacement, splits, linearization and fade for the colour inks. Leaves the finished separations in
      the four planes. */
  method BuildColourInks(stage: InkStage, c: array<Tone>, m: array<Tone>, y: array<Tone>, k: array<Tone>,
                         ghost px: seq<Cmyk>)
    returns (inks: seq<seq<Tone>>)
    requires stage.gcr.Valid() && c != m && c != y && c != k && m != y && m != k && y != k
    requires Zips(c[..], m[..], y[..], k[..], px)
    modifies c, m, y, k
    ensures |inks| == stage.mode.ColourChannels() && forall ch :: 0 <= ch < |inks| ==>
              inks[ch] == InkPlaneOf(stage, px, ch)
    ensures Zips(c[..], m[..], y[..], k[..], Finished(stage, px))
  {
    ReplaceGrey(stage, c, m, y, k, px);
    var cAdj, mAdj, yAdj, kAdj := c[..], m[..], y[..], k[..];
    FinishPlanes(stage, c, m, y, k, px);
    match stage.mode.ColourChannels()
    case 4 =>
      FourInks(stage, px, c[..], m[..], y[..], k[..]);
      inks := [c[..], m[..], y[..], k[..]];
    case 6 =>
      inks := SplitSix(stage, cAdj, mAdj, yAdj, kAdj, y[..], k[..], px);
    case _ =>
      inks := SplitEight(stage, cAdj, mAdj, yAdj, kAdj, y[..], px);
  }

  method ReplaceGrey(stage: InkStage, c: array<Tone>, m: array<Tone>, y: array<Tone>, k: array<Tone>,
                     ghost px: seq<Cmyk>)
    requires c != m && c != y && c != k && m != y && m != k && y != k && Zips(c[..], m[..], y[..], k[..], px)
    modifies c, m, y, k
    ensures Zips(c[..], m[..], y[..], k[..], Adjusted(stage, px))
  {
    assert forall i ::
           0 <= i < |px| ==> px[i] == Cmyk(c[..][i], m[..][i], y[..][i], k[..][i]) == Cmyk(c[i], m[i], y[i], k[i]);
    ApplyGcr(c, m, y, k, stage.gcr);
  }

  method FinishPlanes(stage: InkStage, c: array<Tone>, m: array<Tone>, y: array<Tone>, k: array<Tone>,
                      ghost px: seq<Cmyk>)
    requires c != m && c != y && c != k && m != y && m != k && y != k &&
             Zips(c[..], m[..], y[..], k[..], Adjusted(stage, px))
    modifies c, m, y, k
    ensures Zips(c[..], m[..], y[..], k[..], Finished(stage, px))
    ensures y[..] == Mapped(stage.postY, old(y[..])) && k[..] == Mapped(stage.postK, old(k[..]))
  {
    MapPlane(c, stage.postC);
    MapPlane(m, stage.postM);
    MapPlane(y, stage.postY);
    MapPlane(k, stage.postK);
    FinishedZip(stage, px, old(c[..]), old(m[..]), old(y[..]), old(k[..]));
  }

  lemma FinishedZip(stage: InkStage, px: seq<Cmyk>, c: seq<Tone>, m: seq<Tone>, y: seq<Tone>, k: seq<Tone>)
    requires Zips(c, m, y, k, Adjusted(stage, px))
    ensures Zips(Mapped(stage.postC, c), Mapped(stage.postM, m), Mapped(stage.postY, y), Mapped(stage.postK, k),
                 Finished(stage, px))
  {
    assert forall i :: 0 <= i < |px| ==> Adjusted(stage, px)[i] == Transferred(stage.gcr, px[i]);
  }

  method SplitSix(stage: InkStage, c: seq<Tone>, m: seq<Tone>, y: seq<Tone>, k: seq<Tone>, yPost: seq<Tone>,
                  kPost: seq<Tone>, ghost px: seq<Cmyk>)
    returns (inks: seq<seq<Tone>>)
    requires stage.mode.ColourChannels() == 6 && stage.gcr.Valid()
    requires Zips(c, m, y, k, Adjusted(stage, px)) && yPost == Mapped(stage.postY, y) && kPost == Mapped(stage.postK, k)
    ensures |inks| == 6 && forall ch :: 0 <= ch < |inks| ==> inks[ch] == InkPlaneOf(stage, px, ch)
  {
    var cDark, cLight := SplitPair(c, stage.cyan);
    var mDark, mLight := SplitPair(m, stage.magenta);
    SixInks(stage, px, c, m, y, k, yPost, kPost);
    inks := [cDark[..], mDark[..], yPost, kPost, mLight[..], cLight[..]];
  }

  method SplitEight(stage: InkStage, c: seq<Tone>, m: seq<Tone>, y: seq<Tone>, k: seq<Tone>, yPost: seq<Tone>,
                    ghost px: seq<Cmyk>)
    returns (inks: seq<seq<Tone>>)
    requires stage.mode.ColourChannels() == 8 && stage.gcr.Valid()
    requires Zips(c, m, y, k, Adjusted(stage, px)) && yPost == Mapped(stage.postY, y)
    ensures |inks| == 8 && forall ch :: 0 <= ch < |inks| ==> inks[ch] == InkPlaneOf(stage, px, ch)
  {
    var cDark, cLight := SplitPair(c, stage.cyan);
    var mDark, mLight := SplitPair(m, stage.magenta);
    var lighter, light, dark := SplitTriple(k, stage.black);
    EightInks(stage, px, c, m, y, k, yPost);
    var cDarks, mDarks := cDark[..], mDark[..];
    var cFaded, mFaded := FadeLights(stage, c, m, y, k, yPost, cLight, mLight, px);
    inks := [cDarks, mDarks, yPost, dark, cFaded, mFaded, light, lighter];
  }

  method FadeLights(stage: InkStage, c: seq<Tone>, m: seq<Tone>, ghost y: seq<Tone>, ghost k: seq<Tone>,
                    yPost: seq<Tone>, cLight: array<Tone>, mLight: array<Tone>, ghost px: seq<Cmyk>)
    returns (cFaded: seq<Tone>, mFaded: seq<Tone>)
    requires stage.mode.ColourChannels() == 8 && stage.gcr.Valid() && cLight != mLight
    requires Zips(c, m, y, k, Adjusted(stage, px)) && yPost == Mapped(stage.postY, y)
    requires cLight[..] == LightOf(stage.cyan, c) && mLight[..] == LightOf(stage.magenta, m)
    modifies cLight, mLight
    ensures cFaded == InkPlaneOf(stage, px, 4) && mFaded == InkPlaneOf(stage, px, 5)
  {
    ghost var cBefore, mBefore := cLight[..], mLight[..];
    ApplyFade(c, m, yPost, cLight, mLight, stage.gcr);
    cFaded, mFaded := cLight[..], mLight[..];
    assert forall i :: 0 <= i < |px| ==>
           cFaded[i] == LightInk(stage.gcr, c[i], m[i], yPost[i], cBefore[i], stage.gcr.cyanFadePct);
    assert forall i :: 0 <= i < |px| ==>
           mFaded[i] == LightInk(stage.gcr, c[i], m[i], yPost[i], mBefore[i], stage.gcr.magentaFadePct);
    EightLights(stage, px, c, m, y, k, yPost, cFaded, mFaded);
  }

  function PlateAt(plate: Option<seq<Tone>>, i: nat): Option<Tone>
    requires plate.Some? ==> i < |plate.value|
  {
    if plate.None? then None else Some(plate.value[i])
  }

  function SpecialtyPlane(config: SpecialtyConfig, curve: Tone -> Tone, post: seq<Cmyk>,
                          plate: Option<seq<Tone>>): seq<Tone>
    requires plate.Some? ==> |plate.value| == |post|
  {
    seq(|post|, i requires 0 <= i < |post| => SpecialtyTone(config, curve, post[i], PlateAt(plate, i)))
  }

  function SpecialtyTone(config: SpecialtyConfig, curve: Tone -> Tone, post: Cmyk, plate: Option<Tone>): Tone {
    curve(SpecialtyAt(config, post, plate))
  }

  /** A specialty ink: coverage of the finished inks, a flood, or a plate; then its curve. */
  method BuildSpecialty(config: SpecialtyConfig, curve: Tone -> Tone, c: seq<Tone>, m: seq<Tone>, y: seq<Tone>,
                        k: seq<Tone>, plate: Option<seq<Tone>>, ghost post: seq<Cmyk>)
    returns (tone: seq<Tone>)
    requires Zips(c, m, y, k, post) && (plate.Some? ==> |plate.value| == |post|)
    ensures tone == SpecialtyPlane(config, curve, post, plate)
  {
    var out := new Tone[|c|](_ => 0);
    if config.mode == 1 || config.mode == 2 || (config.mode == 3 && plate.Some?) {
      var i := 0;
      while i < |c|
        invariant 0 <= i <= |c|
        invariant forall j :: 0 <= j < i ==> out[j] == SpecialtyAt(config, post[j], PlateAt(plate, j))
      {
        if config.mode == 1 {
          out[i] := ThresholdDensity(Max(Max(c[i], m[i]), Max(y[i], k[i])), config.threshold, config.density);
        } else if config.mode == 2 {
          out[i] := config.density;
        } else {
          out[i] := ThresholdDensity(plate.value[i], config.threshold, config.density);
        }
        i := i + 1;
      }
    }
    ghost var before := out[..];
    assert forall j :: 0 <= j < |c| ==> before[j] == SpecialtyAt(config, post[j], PlateAt(plate, j));
    MapPlane(out, curve);
    tone := out[..];
  }

  /** All tone planes of a stretch of pixels. */
  function PlanesOf(stage: InkStage, px: seq<Cmyk>, white: Option<seq<Tone>>,
                    varnish: Option<seq<Tone>>): (planes: seq<seq<Tone>>)
    requires stage.gcr.Valid() && (white.Some? ==> |white.value| == |px|) && (varnish.Some? ==> |varnish.value| == |px|)
    ensures |planes| == stage.mode.Channels() && forall ch :: 0 <= ch < |planes| ==> |planes[ch]| == |px|
  {
    seq(stage.mode.Channels(), ch requires 0 <= ch < stage.mode.Channels() => PointPlane(ToneFunction(stage, ch), px,
      white, varnish))
  }

  type PointFunction = (Cmyk, Option<Tone>, Option<Tone>) -> Tone

  function ToneFunction(stage: InkStage, ch: nat): PointFunction
    requires ch < stage.mode.Channels() && stage.gcr.Valid()
  {
    (px: Cmyk, white: Option<Tone>, varnish: Option<Tone>) => ToneAt(stage, ch, px, white, varnish)
  }

  function PointPlane(f: PointFunction, px: seq<Cmyk>, white: Option<seq<Tone>>,
                      varnish: Option<seq<Tone>>): (plane: seq<Tone>)
    requires (white.Some? ==> |white.value| == |px|) && (varnish.Some? ==> |varnish.value| == |px|)
    ensures |plane| == |px|
  {
    seq(|px|, i requires 0 <= i < |px| => PointTone(f, px[i], PlateAt(white, i), PlateAt(varnish, i)))
  }

  function PointTone(f: PointFunction, px: Cmyk, white: Option<Tone>, varnish: Option<Tone>): Tone {
    f(px, white, varnish)
  }

  lemma PointPart(f: PointFunction, px: seq<Cmyk>, white: Option<seq<Tone>>, varnish: Option<seq<Tone>>, from: nat,
                  to: nat)
    requires (white.Some? ==> |white.value| == |px|) && (varnish.Some? ==> |varnish.value| == |px|) &&
             from <= to <= |px|
    ensures PointPlane(f, px[from..to], Stretch(white, from, to), Stretch(varnish, from, to)) ==
            PointPlane(f, px, white, varnish)[from..to]
  {
    var part := px[from..to];
    forall i | 0 <= i < |part|
      ensures PointPlane(f, part, Stretch(white, from, to), Stretch(varnish, from, to))[i] ==
              PointPlane(f, px, white, varnish)[from..to][i]
    {
      assert part[i] == px[from + i];
      assert PlateAt(Stretch(white, from, to), i) == PlateAt(white, from + i);
      assert PlateAt(Stretch(varnish, from, to), i) == PlateAt(varnish, from + i);
    }
  }

  lemma PlanesAre(stage: InkStage, px: seq<Cmyk>, white: Option<seq<Tone>>, varnish: Option<seq<Tone>>, ch: nat)
    requires stage.gcr.Valid() && (white.Some? ==> |white.value| == |px|) && (varnish.Some? ==> |varnish.value| == |px|)
    requires ch < stage.mode.Channels()
    ensures PlanesOf(stage, px, white, varnish)[ch] ==
            if ch < stage.mode.ColourChannels() then InkPlaneOf(stage, px, ch)
            else if ch == stage.mode.ColourChannels()
            then SpecialtyPlane(stage.white, stage.whiteCurve, Finished(stage, px), white)
            else SpecialtyPlane(stage.varnish, stage.varnishCurve, Finished(stage, px), varnish)
  {
    assert PlanesOf(stage, px, white, varnish)[ch] == PointPlane(ToneFunction(stage, ch), px, white, varnish);
    forall i | 0 <= i < |px|
      ensures PlanesOf(stage, px, white, varnish)[ch][i] ==
              ToneAt(stage, ch, px[i], PlateAt(white, i), PlateAt(varnish, i))
      ensures Finished(stage, px)[i] == Post(stage, px[i])
    {
    }
  }

  /** The varnish plane under a plate mode: blank without a plate, the plate's coverage with one. */
  lemma VarnishPlane(stage: InkStage, px: seq<Cmyk>, white: Option<seq<Tone>>, varnish: Option<seq<Tone>>, i: nat)
    requires stage.gcr.Valid() && stage.mode.TenColor? && stage.varnish.mode == 3 && i < |px|
    requires (white.Some? ==> |white.value| == |px|) && (varnish.Some? ==> |varnish.value| == |px|)
    ensures PlanesOf(stage, px, white, varnish)[9][i] ==
            stage.varnishCurve(
              if varnish.None? then 0
              else ThresholdDensity(varnish.value[i], stage.varnish.threshold, stage.varnish.density))
  {
    PlanesAre(stage, px, white, varnish, 9);
  }

  /** The tone builder: the planes of every ink of the set, from four separations and the loaded plates. */
  method BuildToneChannels(stage: InkStage, c: array<Tone>, m: array<Tone>, y: array<Tone>, k: array<Tone>,
                           white: Option<seq<Tone>>, varnish: Option<seq<Tone>>, ghost px: seq<Cmyk>)
    returns (tones: seq<seq<Tone>>)
    requires stage.gcr.Valid() && c != m && c != y && c != k && m != y && m != k && y != k
    requires Zips(c[..], m[..], y[..], k[..], px)
    requires (white.Some? ==> |white.value| == |px|) && (varnish.Some? ==> |varnish.value| == |px|)
    modifies c, m, y, k
    ensures tones == PlanesOf(stage, px, white, varnish)
  {
    var inks := BuildColourInks(stage, c, m, y, k, px);
    tones := AddSpecialties(stage, inks, c[..], m[..], y[..], k[..], white, varnish, px);
  }

  method AddSpecialties(stage: InkStage, inks: seq<seq<Tone>>, c: seq<Tone>, m: seq<Tone>, y: seq<Tone>, k: seq<Tone>,
                        white: Option<seq<Tone>>, varnish: Option<seq<Tone>>, ghost px: seq<Cmyk>)
    returns (tones: seq<seq<Tone>>)
    requires stage.gcr.Valid() && Zips(c, m, y, k, Finished(stage, px))
    requires (white.Some? ==> |white.value| == |px|) && (varnish.Some? ==> |varnish.value| == |px|)
    requires |inks| == stage.mode.ColourChannels() && forall ch :: 0 <= ch < |inks| ==>
              inks[ch] == InkPlaneOf(stage, px, ch)
    ensures tones == PlanesOf(stage, px, white, varnish)
  {
    tones := inks;
    if stage.mode.HasWhite() {
      var plane := BuildSpecialty(stage.white, stage.whiteCurve, c, m, y, k, white, Finished(stage, px));
      tones := tones + [plane];
    }
    if stage.mode.HasVarnish() {
      var plane := BuildSpecialty(stage.varnish, stage.varnishCurve, c, m, y, k, varnish, Finished(stage, px));
      tones := tones + [plane];
    }
    forall ch | 0 <= ch < |tones|
      ensures tones[ch] == PlanesOf(stage, px, white, varnish)[ch]
    {
      PlanesAre(stage, px, white, varnish, ch);
    }
  }

  /** Interleaved samples as pixels. */
  function PixelsOf(raw: seq<Tone>, count: nat): (px: seq<Cmyk>)
    requires |raw| == 4 * count
    ensures |px| == count
  {
    seq(count, i requires 0 <= i < count => Cmyk(raw[4 * i], raw[4 * i + 1], raw[4 * i + 2], raw[4 * i + 3]))
  }

  lemma PixelsOfStretch(raw: seq<Tone>, count: nat, from: nat, to: nat)
    requires |raw| == 4 * count && from <= to <= count
    ensures PixelsOf(raw[4 * from..4 * to], to - from) == PixelsOf(raw, count)[from..to]
  {
    var part := raw[4 * from..4 * to];
    forall i | 0 <= i < to - from
      ensures PixelsOf(part, to - from)[i] == PixelsOf(raw, count)[from..to][i]
    {
      assert part[4 * i] == raw[4 * (from + i)] && part[4 * i + 1] == raw[4 * (from + i) + 1];
      assert part[4 * i + 2] == raw[4 * (from + i) + 2] && part[4 * i + 3] == raw[4 * (from + i) + 3];
    }
  }

  function Stretch(plate: Option<seq<Tone>>, from: nat, to: nat): (part: Option<seq<Tone>>)
    requires from <= to && (plate.Some? ==> to <= |plate.value|)
    ensures part.Some? ==> |part.value| == to - from
  {
    if plate.None? then None else Some(plate.value[from..to])
  }

  /** The tone stage is pointwise for every ink set: run on a stretch of pixels, with that stretch of the plates,
      it gives that stretch of every plane. */
  lemma PlanesOfPart(stage: InkStage, px: seq<Cmyk>, white: Option<seq<Tone>>, varnish: Option<seq<Tone>>, from: nat,
                     to: nat, ch: nat)
    requires stage.gcr.Valid() && (white.Some? ==> |white.value| == |px|) && (varnish.Some? ==> |varnish.value| == |px|)
    requires from <= to <= |px| && ch < stage.mode.Channels()
    ensures PlanesOf(stage, px[from..to], Stretch(white, from, to), Stretch(varnish, from, to))[ch] ==
            PlanesOf(stage, px, white, varnish)[ch][from..to]
  {
    PointPart(ToneFunction(stage, ch), px, white, varnish, from, to);
  }
}
