/** What screening one pixel means before promotion: blue-noise mask lookup, tone gating
    and dot classification. Both screening engines are proved against these functions. */
module PixelScreening {
  import opened Arithmetic
  import opened RasterTypes

  /** Integer avalanche hash over uint32, with wrap-around multiplication. */
  function PixelHash(x: bv32, y: bv32, channel: bv32, seed: bv32): bv32 {
    var h0 := (x * 0x85EBCA6B) ^ (y * 0xC2B2AE35) ^ ((channel + 1) * 0x27D4EB2D) ^ seed;
    var h1 := (h0 ^ (h0 >> 16)) * 0x7FEB352D;
    var h2 := (h1 ^ (h1 >> 15)) * 0x846CA68B;
    h2 ^ (h2 >> 16)
  }

  const SCREEN_SEED: bv32 := 0x51F2F90D

  /** The per-pixel hash; coordinates are truncated to uint32 as the casts do. */
  function PixelNoise(x: int, y: int): (r: int)
    ensures 0 <= r < U32_RANGE
  {
    PixelHash((x % U32_RANGE) as bv32, (y % U32_RANGE) as bv32, 0, SCREEN_SEED) as int
  }

  /** A decoded blue-noise mask, row-major. */
  datatype Mask = Mask(width: nat, height: nat, bytes: seq<Tone>) {
    predicate Valid() {
      0 < width && 0 < height && |bytes| == height * width
    }
  }

  datatype MaskOffset = MaskOffset(x: nat, y: nat)

  /** Where channel `channel` starts reading its mask. */
  function OffsetFor(mask: Mask, channel: int, seed: bv32): (offset: MaskOffset)
    requires mask.Valid()
    ensures offset.x < mask.width && offset.y < mask.height
  {
    var hash := PixelHash(0xB, 0xC, (channel % U32_RANGE) as bv32, seed) as int;
    MaskOffset(hash % 0x8000_0000 % mask.width, hash / 0x1_0000 % 0x8000_0000 % mask.height)
  }

  /** The mask is tiled over the raster, shifted by the channel's offset. */
  function Threshold(mask: Mask, offset: MaskOffset, x: nat, y: nat): Tone
    requires mask.Valid()
  {
    At(mask.bytes, mask.width, mask.height, (x + offset.x) % mask.width, (y + offset.y) % mask.height)
  }

  /** The settings one logical channel is screened with. */
  datatype ScreenChannel = ScreenChannel(
    maskPath: string,
    minInkThreshold: int,
    smallDotThreshold: int,
    medDotThreshold: int,
    floorRange: Tone,
    floorMax: Tone,
    enableDotSwap: bool,
    enablePromotion: bool,
    useEffectiveTone: bool)

  function MinTone(c: ScreenChannel): (r: Tone)
    ensures r <= 254
  {
    Clamp(c.minInkThreshold, 0, 254)
  }

  function Normalized(minTone: Tone, u: Tone): (r: Tone)
    requires minTone < u
    ensures 1 <= r
  {
    var range := 255 - minTone;
    assert range <= (u - minTone) * 255 <= range * 255;
    DivisionBounds((u - minTone) * 255, range, 1, 255);
    (u - minTone) * 255 / range
  }

  /** Highlights below `range` are lifted by a bias that fades out towards `range`. */
  function Lifted(range: Tone, max: Tone, tone: Tone): Tone {
    if 0 < range && 0 < max && tone < range then
      ScaledTone(range - tone, max);
      Min(255, tone + (range - tone) * max / range)
    else tone
  }

  /** The post-gate tone that is compared with the mask; only defined above the gate. */
  function EffectiveTone(c: ScreenChannel, u: Tone): Tone
    requires MinTone(c) < u
  {
    Lifted(c.floorRange, c.floorMax, Normalized(MinTone(c), u))
  }

  /** The tone that dot classification and promotion look at. */
  function ClassTone(c: ScreenChannel, u: Tone): Tone {
    if u <= MinTone(c) then 0 else if c.useEffectiveTone then EffectiveTone(c, u) else u
  }

  /** Whether a pixel of tone `u` receives ink where the mask value is `threshold`. */
  predicate Inked(c: ScreenChannel, u: Tone, threshold: Tone) {
    MinTone(c) < u && threshold < EffectiveTone(c, u)
  }

  function Lerp(a: Tone, b: Tone, weight: Tone): Tone {
    ScaledTone(255 - weight, a);
    ScaledTone(weight, b);
    ((255 - weight) * a + weight * b) / 255
  }

  function RelativeThreshold(threshold: Tone, tone: Tone): Tone {
    ScaledTone(threshold, tone);
    threshold * tone / 255
  }

  /** Size class of an inked pixel before the optional highlight swap. */
  function SizeClass(c: ScreenChannel, tone: Tone, threshold: Tone): (d: Dot)
    ensures 1 <= d
  {
    var relative := RelativeThreshold(threshold, tone);
    if relative <= Lerp(64, Clamp(c.smallDotThreshold, 0, 255), tone) then 1
    else if relative <= Lerp(130, Clamp(c.medDotThreshold, 0, 255), tone) then 2
    else 3
  }

  const SWAP_LOW: Tone := 96
  const SWAP_HIGH: Tone := 160

  predicate Swapped(tone: Tone, x: int, y: int) {
    tone < SWAP_LOW ||
    (tone < SWAP_HIGH && PixelNoise(x, y) % 256 < (SWAP_HIGH - tone) * 255 / (SWAP_HIGH - SWAP_LOW))
  }

  /** The dot of an inked pixel. */
  function Classified(c: ScreenChannel, tone: Tone, threshold: Tone, x: int, y: int): (d: Dot)
    ensures 1 <= d
  {
    var size := SizeClass(c, tone, threshold);
    if c.enableDotSwap && Swapped(tone, x, y) then 4 - size else size
  }

  /** The dot of a pixel before promotion. */
  function RawDot(c: ScreenChannel, mask: Mask, offset: MaskOffset, u: Tone, x: nat, y: nat): Dot
    requires mask.Valid()
  {
    var threshold := Threshold(mask, offset, x, y);
    if Inked(c, u, threshold) then Classified(c, ClassTone(c, u), threshold, x, y) else 0
  }

  function RawRow(c: ScreenChannel, mask: Mask, offset: MaskOffset, tones: seq<Tone>, y: nat): (row: seq<Dot>)
    requires mask.Valid()
    ensures |row| == |tones|
  {
    seq(|tones|, x requires 0 <= x < |tones| => RawDot(c, mask, offset, tones[x], x, y))
  }

  function ClassRow(c: ScreenChannel, tones: seq<Tone>): (row: seq<Tone>)
    ensures |row| == |tones|
  {
    seq(|tones|, x requires 0 <= x < |tones| => ClassTone(c, tones[x]))
  }

  /** Rescales a tone above the gate and lifts it, as both engines do. */
  method LiftTone(c: ScreenChannel, minTone: Tone, u: Tone) returns (uEff: Tone)
    requires minTone == MinTone(c) < u
    ensures uEff == EffectiveTone(c, u)
  {
    uEff := Normalized(minTone, u);
    if 0 < c.floorRange && 0 < c.floorMax && uEff < c.floorRange {
      ScaledTone(c.floorRange - uEff, c.floorMax);
      var bias := (c.floorRange - uEff) * c.floorMax / c.floorRange;
      uEff := Min(255, uEff + bias);
    }
  }
}
