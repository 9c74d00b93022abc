/** The X-33 tone stage: alpha scaling, linearization and the white plane, all pixel by pixel.
    The same stage runs on whole planes in memory and on strips read back from a scratch file. */
module ToneStage {
  import opened Arithmetic
  import opened RasterTypes
  import opened Cancellation

  type Lut = s: seq<Tone> | |s| == 256 witness seq(256, _ => 0)

  function IdentityLut(): Lut {
    seq(256, i requires 0 <= i < 256 => i)
  }

  /** External transfer curves: one table for each of C, M, Y, K and one for white. */
  datatype Curves = Curves(c: Lut, m: Lut, y: Lut, k: Lut, w: Lut)

  /** Linearization tables grouped by separation, light inks included. */
  datatype Combos = Combos(
    cDark: Lut, cLight: Lut, mDark: Lut, mLight: Lut, y: Lut,
    kDark: Lut, kLight: Lut, kLighter: Lut, white: Lut, varnish: Lut)
  {
    /** The dark-ink tables, which are all that four-colour output uses. */
    function DarkCurves(): Curves {
      Curves(cDark, mDark, y, kDark, white)
    }
  }

  datatype WhiteMode = Off | AutoUnderbase | Flood | Plate

  datatype ToneConfig = ToneConfig(
    curves: Option<Curves>,
    whiteMode: WhiteMode,
    whiteThreshold: int,
    whiteDensity: int)
  {
    function Channels(): nat {
      if whiteMode == Off then 4 else 5
    }
  }

  /** Scales a tone by an alpha sample, rounding to nearest. */
  function AlphaScaled(tone: Tone, alpha: Tone): Tone {
    ScaledTone(tone, alpha);
    (tone * alpha + 127) / 255
  }

  /** `r` is the tone times alpha, in 255ths, to the nearest whole number. There are no ties. */
  predicate Nearest(r: int, tone: int, alpha: int) {
    -127 <= 255 * r - tone * alpha <= 127
  }

  lemma AlphaNearest(tone: Tone, alpha: Tone)
    ensures Nearest(AlphaScaled(tone, alpha), tone, alpha)
  {
    var n := tone * alpha + 127;
    ScaledTone(tone, alpha);
    assert n == n / 255 * 255 + n % 255;
  }

  /** Scaled samples are nearest to the sample times the alpha of its pixel. */
  lemma ScaledNearest(pixels: seq<Tone>, alpha: seq<Tone>)
    requires |pixels| == 4 * |alpha|
    ensures forall i :: 0 <= i < |pixels| ==> Nearest(Scaled(pixels, Some(alpha))[i], pixels[i], alpha[i / 4])
  {
    forall i | 0 <= i < |pixels|
      ensures Nearest(Scaled(pixels, Some(alpha))[i], pixels[i], alpha[i / 4])
    {
      AlphaNearest(pixels[i], alpha[i / 4]);
    }
  }

  /** Combines each of the four samples of a pixel with the pixel's alpha. */
  function Combined(f: (Tone, Tone) -> Tone, pixels: seq<Tone>, alpha: seq<Tone>): (r: seq<Tone>)
    requires |pixels| == 4 * |alpha|
    ensures |r| == |pixels|
  {
    seq(|pixels|, i requires 0 <= i < |pixels| => f(pixels[i], alpha[i / 4]))
  }

  /** Interleaved CMYK bytes after alpha scaling. */
  function Scaled(pixels: seq<Tone>, alpha: Option<seq<Tone>>): (r: seq<Tone>)
    requires alpha.Some? ==> |pixels| == 4 * |alpha.value|
    ensures |r| == |pixels|
  {
    if alpha.None? then pixels else Combined(AlphaScaled, pixels, alpha.value)
  }

  function Curve(curves: Option<Curves>, channel: nat): Option<Lut>
    requires channel < 5
  {
    if curves.None? then None
    else
      Some(match channel
           case 0 => curves.value.c
           case 1 => curves.value.m
           case 2 => curves.value.y
           case 3 => curves.value.k
           case _ => curves.value.w)
  }

  function Linearized(curves: Option<Curves>, channel: nat, tone: Tone): Tone
    requires channel < 5
  {
    match Curve(curves, channel)
    case None => tone
    case Some(lut) => lut[tone]
  }

  /** Ink tone of pixel i. */
  function InkTone(config: ToneConfig, raw: seq<Tone>, channel: nat, i: nat): Tone
    requires channel < 4 && 4 * i + 3 < |raw|
  {
    Linearized(config.curves, channel, raw[4 * i + channel])
  }

  function InkPlane(config: ToneConfig, raw: seq<Tone>, channel: nat, count: nat): seq<Tone>
    requires channel < 4 && |raw| == 4 * count
  {
    seq(count, i requires 0 <= i < count => InkTone(config, raw, channel, i))
  }

  function ThresholdDensity(source: Tone, threshold: int, density: int): Tone {
    var t, d := Clamp(threshold, 0, 255), Clamp(density, 0, 255);
    if d == 0 || source <= t || 255 <= t then 0
    else
      WhiteBounds(source, t, d);
      (source - t) * 255 / (255 - t) * d / 255
  }

  lemma WhiteBounds(source: Tone, t: int, d: int)
    requires 0 <= t < source && 0 <= d <= 255
    ensures 0 <= (source - t) * 255 / (255 - t) <= 255
    ensures 0 <= (source - t) * 255 / (255 - t) * d / 255 <= 255
  {
    DivisionBounds((source - t) * 255, 255 - t, 0, 255);
    ScaledTone(d, (source - t) * 255 / (255 - t));
  }

  function Heaviest(c: Tone, m: Tone, y: Tone, k: Tone): Tone {
    Max(Max(c, m), Max(y, k))
  }

  /** White before linearization, from the candidate coverage of the pixel. */
  function WhiteFrom(config: ToneConfig, candidate: Tone): Tone {
    if config.whiteMode == Flood then Clamp(config.whiteDensity, 0, 255)
    else ThresholdDensity(candidate, config.whiteThreshold, config.whiteDensity)
  }

  /** The white of pixel i comes from the plate or from the heaviest of its finished inks. */
  function WhiteTone(config: ToneConfig, raw: seq<Tone>, plate: seq<Tone>, i: nat): Tone
    requires 4 * i + 3 < |raw| && i < |plate|
  {
    Linearized(config.curves, 4, WhiteFrom(config,
      if config.whiteMode == Plate then plate[i]
      else Heaviest(InkTone(config, raw, 0, i), InkTone(config, raw, 1, i),
                    InkTone(config, raw, 2, i), InkTone(config, raw, 3, i))))
  }

  function ToneOf(config: ToneConfig, raw: seq<Tone>, plate: seq<Tone>, channel: nat, i: nat): Tone
    requires channel < 5 && 4 * i + 3 < |raw| && i < |plate|
  {
    if channel < 4 then InkTone(config, raw, channel, i) else WhiteTone(config, raw, plate, i)
  }

  /** The tone planes of `count` pixels. The plate is only looked at in plate mode. */
  function Planes(config: ToneConfig, raw: seq<Tone>, plate: seq<Tone>, count: nat): (planes: seq<seq<Tone>>)
    requires |raw| == 4 * count && |plate| == count
    ensures |planes| == config.Channels()
    ensures forall c :: 0 <= c < |planes| ==> |planes[c]| == count
  {
    seq(config.Channels(), c requires 0 <= c < config.Channels() =>
      seq(count, i requires 0 <= i < count => ToneOf(config, raw, plate, c, i)))
  }

  /** The tone stage is pointwise: run on a stretch of pixels it gives that stretch of the planes. */
  lemma PlanesOfStretch(config: ToneConfig, raw: seq<Tone>, plate: seq<Tone>, count: nat, from: nat, to: nat,
                        channel: nat)
    requires |raw| == 4 * count && |plate| == count && from <= to <= count && channel < config.Channels()
    ensures Planes(config, raw[4 * from..4 * to], plate[from..to], to - from)[channel] ==
            Planes(config, raw, plate, count)[channel][from..to]
  {
    var stretch, whole := raw[4 * from..4 * to], Planes(config, raw, plate, count)[channel];
    forall i | 0 <= i < to - from
      ensures ToneOf(config, stretch, plate[from..to], channel, i) == whole[from + i]
    {
      assert stretch[4 * i] == raw[4 * (from + i)] && stretch[4 * i + 1] == raw[4 * (from + i) + 1];
      assert stretch[4 * i + 2] == raw[4 * (from + i) + 2] && stretch[4 * i + 3] == raw[4 * (from + i) + 3];
    }
  }

  /** Alpha scaling is pointwise too. */
  lemma ScaledStretch(pixels: seq<Tone>, alpha: Option<seq<Tone>>, from: nat, to: nat)
    requires alpha.Some? ==> |pixels| == 4 * |alpha.value|
    requires from <= to && 4 * to <= |pixels|
    ensures Scaled(pixels, alpha)[4 * from..4 * to] ==
            Scaled(pixels[4 * from..4 * to], if alpha.None? then None else Some(alpha.value[from..to]))
  {
    if alpha.Some? {
      CombinedStretch(AlphaScaled, pixels, alpha.value, from, to);
    }
  }

  lemma CombinedStretch(f: (Tone, Tone) -> Tone, pixels: seq<Tone>, alpha: seq<Tone>, from: nat, to: nat)
    requires |pixels| == 4 * |alpha| && from <= to && 4 * to <= |pixels|
    ensures Combined(f, pixels, alpha)[4 * from..4 * to] == Combined(f, pixels[4 * from..4 * to], alpha[from..to])
  {
    forall i | 0 <= i < 4 * (to - from)
      ensures Combined(f, pixels, alpha)[4 * from + i] == Combined(f, pixels[4 * from..4 * to], alpha[from..to])[i]
    {
      QuarterShift(from, i);
      assert alpha[from..to][i / 4] == alpha[from + i / 4];
      assert pixels[4 * from..4 * to][i] == pixels[4 * from + i];
    }
  }

  lemma QuarterShift(from: nat, i: nat)
    ensures (4 * from + i) / 4 == from + i / 4
  {
  }

  lemma JoinAt(s: seq<Tone>, from: nat, to: nat)
    requires from <= to <= |s|
    ensures s[..from] + s[from..to] == s[..to]
  {
  }

  /** How the scratch file behaves: whether it can be created, whether the strip from a given row on can be
      written, and whether a given range of rows can be read back. */
  datatype Scratch = Scratch(opens: bool, stores: nat -> bool, restores: (int, int) -> bool) {
    ghost predicate Fails(height: int) {
      || !opens || (exists row: nat :: row < height && !stores(row))
      || exists first: nat, count: nat :: 0 < count && first + count <= height && !restores(first, count)
    }
  }

  /** The scratch file of canonical CMYK rows. */
  class CanonicalFile {
    const scratch: Scratch
    var width: nat
    var height: nat
    var bytes: seq<Tone>

    constructor (scratch: Scratch)
      ensures this.scratch == scratch && width == 0 && height == 0 && bytes == []
    {
      this.scratch, width, height, bytes := scratch, 0, 0, [];
    }

    /** Drops the file. */
    method Discard()
      modifies this
      ensures width == 0 && height == 0 && bytes == []
    {
      width, height, bytes := 0, 0, [];
    }

    /** Exports the image strip by strip, scaling by alpha where there is any. */
    method Create(pixels: seq<Tone>, alpha: Option<seq<Tone>>, width: nat, height: nat, stripRows: nat,
                  cancel: CancelFlag)
      returns (ok: bool)
      requires |pixels| == 4 * (height * width) && (alpha.Some? ==> |alpha.value| == height * width)
      requires 1 <= stripRows
      modifies this, cancel`raises
      ensures old(cancel.raises) <= cancel.raises
      ensures ok ==> this.width == width && this.height == height && bytes == Scaled(pixels, alpha)
      ensures ok && alpha.Some? ==>
                forall i :: 0 <= i < |bytes| ==> Nearest(bytes[i], pixels[i], alpha.value[i / 4])
      ensures !ok ==> bytes == [] && (cancel.Raised() || width == 0 || height == 0 || scratch.Fails(height))
    {
      Discard();
      this.width, this.height := width, height;
      if width == 0 || height == 0 {
        return false;
      }
      if !scratch.opens {
        Discard();
        return false;
      }
      var first := 0;
      while first < height
        invariant 0 <= first <= height
        invariant old(cancel.raises) <= cancel.raises
        invariant this.width == width && this.height == height
        invariant 0 <= first * width <= height * width
        invariant bytes == Scaled(pixels, alpha)[..4 * (first * width)]
      {
        var canceled := cancel.Poll();
        if canceled {
          Discard();
          return false;
        }
        var count := Min(stripRows, height - first);
        ghost var from, to := first * width, (first + count) * width;
        ProductGrows(first + count, height, width);
        ProductGrows(first, first + count, width);
        var strip := pixels[4 * (first * width)..4 * ((first + count) * width)];
        if alpha.Some? {
          strip := ScaleRows(strip, alpha.value[first * width..(first + count) * width]);
        }
        ScaledStretch(pixels, alpha, from, to);
        JoinAt(Scaled(pixels, alpha), 4 * from, 4 * to);
        if !scratch.stores(first) {
          Discard();
          return false;
        }
        bytes := bytes + strip;
        first := first + count;
      }
      assert Scaled(pixels, alpha)[..4 * (first * width)] == Scaled(pixels, alpha);
      if alpha.Some? {
        ScaledNearest(pixels, alpha.value);
      }
      ok := true;
    }

    method ReadRows(first: int, count: int) returns (rows: Option<seq<Tone>>)
      requires |bytes| == 4 * (height * width)
      ensures rows.Some? <==> 0 <= first && 0 < count && first + count <= height && scratch.restores(first, count)
      ensures rows.Some? ==> 0 <= 4 * (first * width) <= 4 * ((first + count) * width) <= |bytes|
      ensures rows.Some? ==> rows.value == bytes[4 * (first * width)..4 * ((first + count) * width)]
    {
      if first < 0 || count <= 0 || first + count > height || !scratch.restores(first, count) {
        return None;
      }
      ProductGrows(first + count, height, width);
      ProductGrows(first, first + count, width);
      ProductGrows(0, first, width);
      rows := Some(bytes[4 * (first * width)..4 * ((first + count) * width)]);
    }
  }

  /** Scales four channels of every pixel by its alpha, in place. */
  method ScaleRows(strip: seq<Tone>, alpha: seq<Tone>) returns (scaled: seq<Tone>)
    requires |strip| == 4 * |alpha|
    ensures scaled == Scaled(strip, Some(alpha))
    ensures forall i :: 0 <= i < |scaled| ==> Nearest(scaled[i], strip[i], alpha[i / 4])
  {
    var bytes := new Tone[|strip|](i requires 0 <= i < |strip| => strip[i]);
    var pixel := 0;
    while pixel < |alpha|
      invariant 0 <= pixel <= |alpha|
      invariant forall i :: 0 <= i < 4 * pixel ==> bytes[i] == AlphaScaled(strip[i], alpha[i / 4])
      invariant forall i :: 4 * pixel <= i < |strip| ==> bytes[i] == strip[i]
    {
      var channel := 0;
      while channel < 4
        invariant 0 <= channel <= 4
        invariant forall i :: 0 <= i < 4 * pixel + channel ==> bytes[i] == AlphaScaled(strip[i], alpha[i / 4])
        invariant forall i :: 4 * pixel + channel <= i < |strip| ==> bytes[i] == strip[i]
      {
        bytes[4 * pixel + channel] := AlphaScaled(bytes[4 * pixel + channel], alpha[pixel]);
        channel := channel + 1;
      }
      pixel := pixel + 1;
    }
    scaled := bytes[..];
    ScaledNearest(strip, alpha);
  }

  /** The plate the white channel is built from; blank when the mode does not use one. */
  function PlateUsed(config: ToneConfig, plate: Option<seq<Tone>>, count: nat): (p: seq<Tone>)
    requires plate.Some? ==> |plate.value| == count
    ensures |p| == count
  {
    if config.whiteMode == Plate && plate.Some? then plate.value else seq(count, _ => 0)
  }

  /** A stretch of the plate that is used is the plate used by that stretch. */
  lemma PlateStretch(config: ToneConfig, plate: Option<seq<Tone>>, count: nat, from: nat, to: nat)
    requires (plate.Some? ==> |plate.value| == count) && from <= to <= count
    ensures PlateUsed(config, if plate.None? then None else Some(plate.value[from..to]), to - from) ==
            PlateUsed(config, plate, count)[from..to]
  {
  }

  /** The samples of one channel. */
  function Samples(raw: seq<Tone>, channel: nat, count: nat): seq<Tone>
    requires |raw| == 4 * count && channel < 4
  {
    seq(count, i requires 0 <= i < count => raw[4 * i + channel])
  }

  /** Separates interleaved bytes into four planes, one pixel after another. */
  method Separate(raw: seq<Tone>, count: nat) returns (c: array<Tone>, m: array<Tone>, y: array<Tone>, k: array<Tone>)
    requires |raw| == 4 * count
    ensures fresh({c, m, y, k}) && c != m && c != y && c != k && m != y && m != k && y != k
    ensures c.Length == m.Length == y.Length == k.Length == count
    ensures c[..] == Samples(raw, 0, count) && m[..] == Samples(raw, 1, count)
    ensures y[..] == Samples(raw, 2, count) && k[..] == Samples(raw, 3, count)
  {
    c, m, y, k := new Tone[count](_ => 0), new Tone[count](_ => 0), new Tone[count](_ => 0), new Tone[count](_ => 0);
    var pixel := 0;
    while pixel < count
      invariant 0 <= pixel <= count
      invariant forall i :: 0 <= i < pixel ==>
                  c[i] == raw[4 * i] && m[i] == raw[4 * i + 1] && y[i] == raw[4 * i + 2] && k[i] == raw[4 * i + 3]
    {
      c[pixel], m[pixel], y[pixel], k[pixel] := raw[4 * pixel], raw[4 * pixel + 1], raw[4 * pixel + 2],
        raw[4 * pixel + 3];
      pixel := pixel + 1;
    }
  }

  /** Scales one plane by alpha, in place. */
  method ApplyAlpha(tone: array<Tone>, alpha: seq<Tone>)
    requires tone.Length == |alpha|
    modifies tone
    ensures forall i :: 0 <= i < tone.Length ==>
              tone[i] == AlphaScaled(old(tone[i]), alpha[i]) && Nearest(tone[i], old(tone[i]), alpha[i])
  {
    var i := 0;
    while i < tone.Length
      invariant 0 <= i <= tone.Length
      invariant forall j :: 0 <= j < i ==>
                  tone[j] == AlphaScaled(old(tone[j]), alpha[j]) && Nearest(tone[j], old(tone[j]), alpha[j])
      invariant forall j :: i <= j < tone.Length ==> tone[j] == old(tone[j])
    {
      AlphaNearest(tone[i], alpha[i]);
      tone[i] := AlphaScaled(tone[i], alpha[i]);
      i := i + 1;
    }
  }

  /** Applies a curve to one plane, in place. */
  method ApplyCurve(tone: array<Tone>, curves: Option<Curves>, channel: nat)
    requires channel < 5
    modifies tone
    ensures forall i :: 0 <= i < tone.Length ==> tone[i] == Linearized(curves, channel, old(tone[i]))
  {
    var lut := Curve(curves, channel);
    if lut.None? {
      return;
    }
    var i := 0;
    while i < tone.Length
      invariant 0 <= i <= tone.Length
      invariant forall j :: 0 <= j < i ==> tone[j] == Linearized(curves, channel, old(tone[j]))
      invariant forall j :: i <= j < tone.Length ==> tone[j] == old(tone[j])
    {
      tone[i] := lut.value[tone[i]];
      i := i + 1;
    }
  }

  /** Candidate coverage of every pixel, or nothing when the plate is missing. */
  method BuildCandidate(config: ToneConfig, c: seq<Tone>, m: seq<Tone>, y: seq<Tone>, k: seq<Tone>,
                        plate: Option<seq<Tone>>)
    returns (candidate: Option<array<Tone>>)
    requires |c| == |m| == |y| == |k| && (config.whiteMode == AutoUnderbase || config.whiteMode == Plate)
    requires plate.Some? ==> |plate.value| == |c|
    ensures candidate.None? <==> config.whiteMode == Plate && plate.None?
    ensures candidate.Some? ==> fresh(candidate.value) && candidate.value.Length == |c|
    ensures candidate.Some? ==> forall i {:trigger candidate.value[i]} :: 0 <= i < |c| ==>
              candidate.value[i] ==
                  (if config.whiteMode == Plate then plate.value[i] else Heaviest(c[i], m[i], y[i], k[i]))
  {
    if config.whiteMode == Plate && plate.None? {
      return None;
    }
    var coverage := new Tone[|c|](_ => 0);
    var i := 0;
    while i < |c|
      invariant 0 <= i <= |c|
      invariant forall j :: 0 <= j < i ==>
                  coverage[j] ==
                      (if config.whiteMode == Plate then plate.value[j] else Heaviest(c[j], m[j], y[j], k[j]))
    {
      coverage[i] := if config.whiteMode == Plate then plate.value[i] else Max(Max(c[i], m[i]), Max(y[i], k[i]));
      i := i + 1;
    }
    candidate := Some(coverage);
  }

  /** Builds the white plane from finished ink planes or from the plate. */
  method BuildWhite(config: ToneConfig, c: seq<Tone>, m: seq<Tone>, y: seq<Tone>, k: seq<Tone>,
                    plate: Option<seq<Tone>>)
    returns (white: Option<array<Tone>>)
    requires |c| == |m| == |y| == |k| && config.whiteMode != Off
    requires plate.Some? ==> |plate.value| == |c|
    ensures white.None? <==> config.whiteMode == Plate && plate.None?
    ensures white.Some? ==> fresh(white.value) && white.value.Length == |c|
    ensures white.Some? ==> forall i {:trigger white.value[i]} :: 0 <= i < |c| ==>
              white.value[i] == WhiteFrom(config, if config.whiteMode == Plate then plate.value[i]
                                                  else Heaviest(c[i], m[i], y[i], k[i]))
  {
    if config.whiteMode == Flood {
      var density: Tone := Clamp(config.whiteDensity, 0, 255);
      var flood := new Tone[|c|](_ => density);
      assert forall i :: 0 <= i < |c| ==> flood[i] == density;
      return Some(flood);
    }
    var candidate := BuildCandidate(config, c, m, y, k, plate);
    if candidate.None? {
      return None;
    }
    var coverage := candidate.value[..];
    var tone := new Tone[|c|](_ => 0);
    var i := 0;
    while i < |c|
      invariant 0 <= i <= |c|
      invariant forall j :: 0 <= j < i ==> tone[j] == WhiteFrom(config, coverage[j])
    {
      tone[i] := ThresholdDensity(coverage[i], config.whiteThreshold, config.whiteDensity);
      i := i + 1;
    }
    white := Some(tone);
  }

  /** The tone stage over `count` interleaved pixels: separate, scale by alpha where the bytes have not
      been scaled yet, linearize, and add white. In memory it runs on the whole image; a strip hands it
      rows of the canonical file, which carry their alpha already. */
  method BuildTones(config: ToneConfig, raw: seq<Tone>, alpha: Option<seq<Tone>>, plate: Option<seq<Tone>>, count: nat)
    returns (tones: Option<seq<seq<Tone>>>)
    requires |raw| == 4 * count && (alpha.Some? ==> |alpha.value| == count) && (plate.Some? ==> |plate.value| == count)
    ensures tones.None? <==> config.whiteMode == Plate && plate.None?
    ensures tones.Some? ==> tones.value == Planes(config, Scaled(raw, alpha), PlateUsed(config, plate, count), count)
  {
    var c, m, y, k := BuildInks(config, raw, alpha, count);
    tones := AddWhite(config, c, m, y, k, plate, count, Scaled(raw, alpha));
  }

  /** Completes the finished inks with the white plane, if the job has one. */
  method AddWhite(config: ToneConfig, c: seq<Tone>, m: seq<Tone>, y: seq<Tone>, k: seq<Tone>, plate: Option<seq<Tone>>,
                  count: nat, ghost scaled: seq<Tone>)
    returns (tones: Option<seq<seq<Tone>>>)
    requires |scaled| == 4 * count && (plate.Some? ==> |plate.value| == count)
    requires c == InkPlane(config, scaled, 0, count) && m == InkPlane(config, scaled, 1, count)
    requires y == InkPlane(config, scaled, 2, count) && k == InkPlane(config, scaled, 3, count)
    ensures tones.None? <==> config.whiteMode == Plate && plate.None?
    ensures tones.Some? ==> tones.value == Planes(config, scaled, PlateUsed(config, plate, count), count)
  {
    InksArePlanes(config, scaled, PlateUsed(config, plate, count), count);
    if config.whiteMode == Off {
      tones := Some([c, m, y, k]);
      return;
    }
    var white := FinishWhite(config, c, m, y, k, plate);
    if white.None? {
      return None;
    }
    WhiteIsPlane(config, scaled, PlateUsed(config, plate, count), count);
    tones := Some([c, m, y, k, white.value]);
  }

  lemma InksArePlanes(config: ToneConfig, raw: seq<Tone>, plate: seq<Tone>, count: nat)
    requires |raw| == 4 * count && |plate| == count
    ensures forall c :: 0 <= c < 4 ==> Planes(config, raw, plate, count)[c] == InkPlane(config, raw, c, count)
  {
  }

  lemma WhiteIsPlane(config: ToneConfig, raw: seq<Tone>, plate: seq<Tone>, count: nat)
    requires |raw| == 4 * count && |plate| == count && config.whiteMode != Off
    ensures Planes(config, raw, plate, count)[4] ==
            WhitePlane(config, InkPlane(config, raw, 0, count), InkPlane(config, raw, 1, count),
                       InkPlane(config, raw, 2, count), InkPlane(config, raw, 3, count), plate)
  {
  }

  /** The white plane of finished inks. */
  function WhitePlane(config: ToneConfig, c: seq<Tone>, m: seq<Tone>, y: seq<Tone>, k: seq<Tone>,
                      plate: seq<Tone>): seq<Tone>
    requires |c| == |m| == |y| == |k| == |plate|
  {
    seq(|c|, i requires 0 <= i < |c| =>
      Linearized(config.curves, 4, WhiteFrom(config, if config.whiteMode == Plate then plate[i]
                                                     else Heaviest(c[i], m[i], y[i], k[i]))))
  }

  method FinishWhite(config: ToneConfig, c: seq<Tone>, m: seq<Tone>, y: seq<Tone>, k: seq<Tone>,
                     plate: Option<seq<Tone>>)
    returns (white: Option<seq<Tone>>)
    requires |c| == |m| == |y| == |k| && config.whiteMode != Off
    requires plate.Some? ==> |plate.value| == |c|
    ensures white.None? <==> config.whiteMode == Plate && plate.None?
    ensures white.Some? ==> white.value == WhitePlane(config, c, m, y, k, PlateUsed(config, plate, |c|))
  {
    var tone := BuildWhite(config, c, m, y, k, plate);
    if tone.None? {
      return None;
    }
    ApplyCurve(tone.value, config.curves, 4);
    white := Some(tone.value[..]);
  }

  method BuildInks(config: ToneConfig, raw: seq<Tone>, alpha: Option<seq<Tone>>, count: nat)
    returns (c: seq<Tone>, m: seq<Tone>, y: seq<Tone>, k: seq<Tone>)
    requires |raw| == 4 * count && (alpha.Some? ==> |alpha.value| == count)
    ensures c == InkPlane(config, Scaled(raw, alpha), 0, count) && m == InkPlane(config, Scaled(raw, alpha), 1, count)
    ensures y == InkPlane(config, Scaled(raw, alpha), 2, count) && k == InkPlane(config, Scaled(raw, alpha), 3, count)
  {
    var cyan, magenta, yellow, black := Separate(raw, count);
    c := FinishInk(cyan, config, raw, alpha, 0, count);
    m := FinishInk(magenta, config, raw, alpha, 1, count);
    y := FinishInk(yellow, config, raw, alpha, 2, count);
    k := FinishInk(black, config, raw, alpha, 3, count);
  }

  /** Scales one separation by alpha, in place. */
  method ScalePlane(tone: array<Tone>, ghost raw: seq<Tone>, alpha: Option<seq<Tone>>, channel: nat, count: nat)
    requires |raw| == 4 * count && (alpha.Some? ==> |alpha.value| == count) && channel < 4
    requires tone[..] == Samples(raw, channel, count)
    modifies tone
    ensures tone[..] == Samples(Scaled(raw, alpha), channel, count)
  {
    ghost var before := tone[..];
    if alpha.Some? {
      ApplyAlpha(tone, alpha.value);
    }
    forall i | 0 <= i < count
      ensures tone[i] == Samples(Scaled(raw, alpha), channel, count)[i]
    {
      SampleScaled(raw, alpha, channel, count, i);
      assert before[i] == Samples(raw, channel, count)[i];
    }
  }

  /** Sample i of a scaled separation is the scaled sample i. */
  lemma SampleScaled(raw: seq<Tone>, alpha: Option<seq<Tone>>, channel: nat, count: nat, i: nat)
    requires |raw| == 4 * count && (alpha.Some? ==> |alpha.value| == count) && channel < 4 && i < count
    ensures Samples(Scaled(raw, alpha), channel, count)[i] ==
            if alpha.None? then Samples(raw, channel, count)[i]
            else AlphaScaled(Samples(raw, channel, count)[i], alpha.value[i])
  {
    assert (4 * i + channel) / 4 == i;
  }

  /** Scales and linearizes one separation, in place. */
  method FinishInk(tone: array<Tone>, config: ToneConfig, ghost raw: seq<Tone>, alpha: Option<seq<Tone>>, channel: nat,
                   count: nat)
    returns (ink: seq<Tone>)
    requires |raw| == 4 * count && (alpha.Some? ==> |alpha.value| == count) && channel < 4 && tone.Length == count
    requires tone[..] == Samples(raw, channel, count)
    modifies tone
    ensures ink == tone[..] == InkPlane(config, Scaled(raw, alpha), channel, count)
  {
    ScalePlane(tone, raw, alpha, channel, count);
    ghost var scaled := tone[..];
    ApplyCurve(tone, config.curves, channel);
    ink := tone[..];
    CurveOfSamples(config, Scaled(raw, alpha), channel, count, scaled, ink);
  }

  lemma CurveOfSamples(config: ToneConfig, raw: seq<Tone>, channel: nat, count: nat, scaled: seq<Tone>, ink: seq<Tone>)
    requires |raw| == 4 * count && channel < 4 && scaled == Samples(raw, channel, count) && |ink| == count
    requires forall i :: 0 <= i < count ==> ink[i] == Linearized(config.curves, channel, scaled[i])
    ensures ink == InkPlane(config, raw, channel, count)
  {
  }
}
