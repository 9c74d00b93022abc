/** The tones of the multi-ink sets, ink by ink instead of channel by channel, and the settings they depend on. */
module InkLaws {
  import opened RasterTypes
  import opened ToneStage
  import opened InkSplit
  import opened NeutralTransfer
  import opened MultiInkTones

  datatype Ink =
    | Yellow | Magenta | Cyan | Black | LightMagenta | LightCyan | LightBlack | LighterBlack | White | Varnish

  /** The inks of a set in the order they are printed. */
  function InksOf(mode: InkMode): seq<Ink> {
    match mode
    case FourColor => [Yellow, Magenta, Cyan, Black]
    case FiveColor => [Yellow, Magenta, Cyan, Black, White]
    case SixColor => [Yellow, Magenta, Cyan, Black, LightMagenta, LightCyan]
    case SevenColor => [Yellow, Magenta, Cyan, Black, LightMagenta, LightCyan, White]
    case EightColor => [Yellow, Magenta, Cyan, Black, LightMagenta, LightCyan, LightBlack, LighterBlack]
    case TenColor => [Yellow, Magenta, Cyan, Black, LightMagenta, LightCyan, LightBlack, LighterBlack, White, Varnish]
  }

  /** The number of an ink among the channels of its set: the four colours first, C, M, Y, K. */
  function NumberOf(mode: InkMode, ink: Ink): nat {
    match ink
    case Cyan => 0
    case Magenta => 1
    case Yellow => 2
    case Black => 3
    case LightMagenta => if mode.SixColor? || mode.SevenColor? then 4 else 5
    case LightCyan => if mode.SixColor? || mode.SevenColor? then 5 else 4
    case LightBlack => 6
    case LighterBlack => 7
    case White => if mode.FiveColor? then 4 else if mode.SevenColor? then 6 else 8
    case Varnish => 9
  }

  lemma InkNumbers(mode: InkMode, j: nat)
    requires j < |InksOf(mode)|
    ensures |InksOf(mode)| == mode.Channels() && Has(mode, InksOf(mode)[j])
  {
  }

  /** Light inks of their own for black, too. */
  predicate Wide(mode: InkMode) {
    mode.EightColor? || mode.TenColor?
  }

  predicate Narrow(mode: InkMode) {
    mode.FourColor? || mode.FiveColor?
  }

  /** What the fade of the light inks makes of a light tone: it looks at the replaced colours, at yellow after its
      table. */
  function FadedInk(mode: InkMode, params: map<string, int>, a: Cmyk, yellow: Tone, light: Tone, percent: int): Tone
    requires 0 <= percent <= 100
  {
    if Wide(mode) && GcrOf(params).enabled && Neutral(GcrOf(params), a.c, a.m, yellow) then Faded(light, percent)
    else light
  }

  /** The tone of a colour ink: a function of its own separation alone, after grey replacement, through its own
      table or its own share of the split; and of the other colours only as far as the fade asks whether the pixel
      is neutral. */
  function ColourTone(mode: InkMode, params: map<string, int>, tables: Option<Combos>, ink: Ink, px: Cmyk): Tone
    requires ink != White && ink != Varnish
  {
    var a, gcr := Transferred(GcrOf(params), px), GcrOf(params);
    var yellow := if tables.Some? then tables.value.y[a.y] else a.y;
    var cyan, magenta, black := Split2(a.c, CyanRamp(mode, params)), Split2(a.m, MagentaRamp(mode, params)),
      Split3(a.k, BlackRamps(mode, params));
    match ink
    case Yellow => yellow
    case Cyan => if tables.Some? then tables.value.cDark[a.c] else if Narrow(mode) then a.c else cyan.dark
    case Magenta => if tables.Some? then tables.value.mDark[a.m] else if Narrow(mode) then a.m else magenta.dark
    case Black => if tables.Some? then tables.value.kDark[a.k] else if Wide(mode) then black.dark else a.k
    case LightCyan =>
      FadedInk(mode, params, a, yellow, if tables.Some? then tables.value.cLight[a.c] else cyan.light, gcr.cyanFadePct)
    case LightMagenta =>
      FadedInk(mode, params, a, yellow, if tables.Some? then tables.value.mLight[a.m] else magenta.light,
               gcr.magentaFadePct)
    case LightBlack => if tables.Some? then tables.value.kLight[a.k] else black.light
    case LighterBlack => if tables.Some? then tables.value.kLighter[a.k] else black.lighter
  }

  /** The separations the coverage of white and varnish is taken from: after grey replacement, yellow through its
      table, cyan and magenta through theirs only in sets without light inks, black in sets without light blacks. */
  function Covering(mode: InkMode, params: map<string, int>, tables: Option<Combos>, px: Cmyk): Cmyk {
    var a := Transferred(GcrOf(params), px);
    if tables.None? then a
    else
      var l := tables.value;
      Cmyk(if Narrow(mode) then l.cDark[a.c] else a.c, if Narrow(mode) then l.mDark[a.m] else a.m, l.y[a.y],
           if Wide(mode) then a.k else l.kDark[a.k])
  }

  /** White or varnish: off, the coverage of the pixel or its plate after threshold and density, or the density
      everywhere; a missing plate leaves it off. */
  function Specialty(mode: int, threshold: Tone, density: Tone, px: Cmyk, plate: Option<Tone>): Tone {
    if mode == 1 then ThresholdDensity(Heaviest(px.c, px.m, px.y, px.k), threshold, density)
    else if mode == 2 then density
    else if mode == 3 && plate.Some? then ThresholdDensity(plate.value, threshold, density)
    else 0
  }

  /** A parameter, within bounds. */
  function Bounded(params: map<string, int>, key: string, fallback: int, high: int): int
    requires 0 <= high
  {
    var v := if key in params then params[key] else fallback;
    if v < 0 then 0 else if v > high then high else v
  }

  /** An ink of the set. */
  predicate Has(mode: InkMode, ink: Ink) {
    match ink
    case White => mode.FiveColor? || mode.SevenColor? || mode.TenColor?
    case Varnish => mode.TenColor?
    case LightMagenta => !Narrow(mode)
    case LightCyan => !Narrow(mode)
    case LightBlack => Wide(mode)
    case LighterBlack => Wide(mode)
    case _ => true
  }

  function WhiteTone(mode: InkMode, params: map<string, int>, tables: Option<Combos>, px: Cmyk,
                     plate: Option<Tone>): Tone {
    var tone := Specialty(Bounded(params, "whiteMode", 0, 3), Bounded(params, "whiteThreshold", 8, 255),
                          Bounded(params, "whiteDensity", 255, 255), Covering(mode, params, tables, px), plate);
    if tables.Some? then tables.value.white[tone] else tone
  }

  function VarnishTone(mode: InkMode, params: map<string, int>, tables: Option<Combos>, px: Cmyk,
                       plate: Option<Tone>): Tone {
    var tone := Specialty(Bounded(params, "varnishMode", 0, 3), Bounded(params, "varnishThreshold", 8, 255),
                          Bounded(params, "varnishDensity", 255, 255), Covering(mode, params, tables, px), plate);
    if tables.Some? then tables.value.varnish[tone] else tone
  }

  /** The tone of any ink of a set. */
  function NamedTone(mode: InkMode, params: map<string, int>, tables: Option<Combos>, ink: Ink, px: Cmyk,
                     white: Option<Tone>, varnish: Option<Tone>): Tone
  {
    if ink == White then WhiteTone(mode, params, tables, px, white)
    else if ink == Varnish then VarnishTone(mode, params, tables, px, varnish)
    else ColourTone(mode, params, tables, ink, px)
  }

  /** Every channel of every set has the tone of its ink. */
  lemma TonesByInk(mode: InkMode, params: map<string, int>, tables: Option<Combos>, ink: Ink, px: Cmyk,
                   white: Option<Tone>, varnish: Option<Tone>)
    requires Has(mode, ink)
    ensures NumberOf(mode, ink) < mode.Channels()
    ensures ToneAt(StageOf(mode, params, tables), NumberOf(mode, ink), px, white, varnish) ==
            NamedTone(mode, params, tables, ink, px, white, varnish)
  {
    if ink == White {
      WhiteByInk(mode, params, tables, px, white, varnish);
    } else if ink == Varnish {
      VarnishByInk(mode, params, tables, px, white, varnish);
    } else {
      ColourByInk(mode, params, tables, ink, px);
      ColourIsInk(StageOf(mode, params, tables), NumberOf(mode, ink), px, white, varnish);
    }
  }

  lemma ColourIsInk(stage: InkStage, channel: nat, px: Cmyk, white: Option<Tone>, varnish: Option<Tone>)
    requires channel < stage.mode.ColourChannels() && stage.gcr.Valid()
    ensures channel < stage.mode.Channels() && ToneAt(stage, channel, px, white, varnish) == InkAt(stage, channel, px)
  {
  }

  lemma ColourByInk(mode: InkMode, params: map<string, int>, tables: Option<Combos>, ink: Ink, px: Cmyk)
    requires Has(mode, ink) && ink != White && ink != Varnish
    ensures NumberOf(mode, ink) < mode.ColourChannels()
    ensures InkAt(StageOf(mode, params, tables), NumberOf(mode, ink), px) == ColourTone(mode, params, tables, ink, px)
  {
    var stage := StageOf(mode, params, tables);
    var a := Transferred(stage.gcr, px);
    PostIs(mode, params, tables, px);
    if Wide(mode) {
      WideInk(stage, NumberOf(mode, ink), px);
    } else if !Narrow(mode) {
      MiddleInk(stage, NumberOf(mode, ink), px);
    }
  }

  lemma PostIs(mode: InkMode, params: map<string, int>, tables: Option<Combos>, px: Cmyk)
    ensures Post(StageOf(mode, params, tables), px) == Covering(mode, params, tables, px)
  {
  }

  lemma WideInk(stage: InkStage, channel: nat, px: Cmyk)
    requires stage.mode.ColourChannels() == 8 && channel < 8 && stage.gcr.Valid()
    ensures var a, post := Transferred(stage.gcr, px), Post(stage, px);
            InkAt(stage, channel, px) ==
            match channel
            case 0 => stage.cyan(a.c).dark
            case 1 => stage.magenta(a.m).dark
            case 2 => post.y
            case 3 => stage.black(a.k).dark
            case 4 => LightInk(stage.gcr, a.c, a.m, post.y, stage.cyan(a.c).light, stage.gcr.cyanFadePct)
            case 5 => LightInk(stage.gcr, a.c, a.m, post.y, stage.magenta(a.m).light, stage.gcr.magentaFadePct)
            case 6 => stage.black(a.k).light
            case _ => stage.black(a.k).lighter
  {
  }

  lemma MiddleInk(stage: InkStage, channel: nat, px: Cmyk)
    requires stage.mode.ColourChannels() == 6 && channel < 6 && stage.gcr.Valid()
    ensures var a, post := Transferred(stage.gcr, px), Post(stage, px);
            InkAt(stage, channel, px) ==
            match channel
            case 0 => stage.cyan(a.c).dark
            case 1 => stage.magenta(a.m).dark
            case 2 => post.y
            case 3 => post.k
            case 4 => stage.magenta(a.m).light
            case _ => stage.cyan(a.c).light
  {
  }

  lemma WhiteByInk(mode: InkMode, params: map<string, int>, tables: Option<Combos>, px: Cmyk, white: Option<Tone>,
                   varnish: Option<Tone>)
    requires Has(mode, White)
    ensures mode.ColourChannels() == NumberOf(mode, White) < mode.Channels()
    ensures ToneAt(StageOf(mode, params, tables), NumberOf(mode, White), px, white, varnish) ==
            WhiteTone(mode, params, tables, px, white)
  {
    PostIs(mode, params, tables, px);
    SpecialtySettings(mode, params, tables);
  }

  lemma VarnishByInk(mode: InkMode, params: map<string, int>, tables: Option<Combos>, px: Cmyk, white: Option<Tone>,
                     varnish: Option<Tone>)
    requires Has(mode, Varnish)
    ensures mode.ColourChannels() < NumberOf(mode, Varnish) < mode.Channels()
    ensures ToneAt(StageOf(mode, params, tables), NumberOf(mode, Varnish), px, white, varnish) ==
            VarnishTone(mode, params, tables, px, varnish)
  {
    PostIs(mode, params, tables, px);
    SpecialtySettings(mode, params, tables);
  }

  lemma SpecialtySettings(mode: InkMode, params: map<string, int>, tables: Option<Combos>)
    ensures StageOf(mode, params, tables).white ==
            SpecialtyConfig(Bounded(params, "whiteMode", 0, 3), Bounded(params, "whiteThreshold", 8, 255),
                            Bounded(params, "whiteDensity", 255, 255))
    ensures StageOf(mode, params, tables).varnish ==
            SpecialtyConfig(Bounded(params, "varnishMode", 0, 3), Bounded(params, "varnishThreshold", 8, 255),
                            Bounded(params, "varnishDensity", 255, 255))
  {
  }

  /** The settings of grey replacement and their defaults: each is limited to a byte or a percentage and moves
      nothing but itself. */
  lemma GreySettings(v: int)
    ensures var d := GcrParams(false, 14, 180, 160, 220, 6, 70, 50);
            var byte := if v < 0 then 0 else if v > 255 then 255 else v;
            var percent := if v < 0 then 0 else if v > 100 then 100 else v;
            && GcrOf(map[]) == d
            && GcrOf(map["gcrEnabled" := v]) == d.(enabled := v != 0)
            && GcrOf(map["neutralGate" := v]) == d.(neutralGate := byte)
            && GcrOf(map["gcrMaxTone" := v]) == d.(gcrMaxTone := byte)
            && GcrOf(map["gcrStrength" := v]) == d.(gcrStrength := byte)
            && GcrOf(map["kGain" := v]) == d.(kGain := byte)
            && GcrOf(map["kMinInNeutral" := v]) == d.(kMinInNeutral := byte)
            && GcrOf(map["lcFadePctInNeutral" := v]) == d.(cyanFadePct := percent)
            && GcrOf(map["lmFadePctInNeutral" := v]) == d.(magentaFadePct := percent)
  {
  }

  /** The ramps of the light inks, their settings and their defaults for the sets that have them. */
  lemma RampSettings(mode: InkMode, params: map<string, int>)
    requires !Narrow(mode)
    ensures var wide := mode.SevenColor? || mode.TenColor?;
            && CyanRamp(mode, params) ==
               Split2Params(Bounded(params, "cLightStart", if wide then 48 else 24, 255),
                            Bounded(params, "cLightEnd", if wide then 160 else 96, 255))
            && MagentaRamp(mode, params) ==
               Split2Params(Bounded(params, "mLightStart", if wide then 48 else 16, 255),
                            Bounded(params, "mLightEnd", if wide then 160 else 80, 255))
    ensures var ten := mode.TenColor?;
            BlackRamps(mode, params) ==
            Split3Params(Bounded(params, "kT1Start", if ten then 32 else 24, 255),
                         Bounded(params, "kT1End", if ten then 128 else 112, 255),
                         Bounded(params, "kT2Start", if ten then 128 else 120, 255),
                         Bounded(params, "kT2End", if ten then 224 else 228, 255))
  {
  }
}
