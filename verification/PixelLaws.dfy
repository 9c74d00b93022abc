/** What gating and classification do to a pixel, in terms of its tone, its mask value and the channel's settings. */
module PixelLaws {
  import opened Arithmetic
  import opened RasterTypes
  import opened PixelScreening

  /** Hashes at fixed points, so that no constant of the hash can be another one. */
  lemma HashValues()
    ensures PixelHash(0, 0, 0, 0) == 0x83D1E361 && PixelHash(1, 2, 3, 4) == 0xDCC8ED92
    ensures PixelHash(11, 12, 0, 0) == 0x090D78E6 && PixelHash(11, 12, 1, 7) == 0x6E38269D
  {
  }

  /** The noise of a pixel is the hash of its coordinates for plane 0 and the screen's own seed, whatever channel is
      screened and whatever seed its mask offset has. */
  lemma NoiseIsHash(x: int, y: int)
    ensures PixelNoise(x, y) ==
            PixelHash((x % 0x1_0000_0000) as bv32, (y % 0x1_0000_0000) as bv32, 0, 0x51F2F90D) as int
  {
  }

  /** Hashes of the screen's seed at fixed pixels. */
  lemma NoiseValues()
    ensures PixelHash(0, 0, 0, 0x51F2F90D) == 0x85AC5AED && PixelHash(1, 0, 0, 0x51F2F90D) == 0xA47DC371
    ensures PixelHash(0, 1, 0, 0x51F2F90D) == 0x2B8B20B2 && PixelHash(5, 3, 0, 0x51F2F90D) == 0x31BA5324
  {
  }

  /** A channel starts reading its mask where the low and the high half of a hash of its number and the seed say. */
  lemma OffsetHalves(mask: Mask, channel: int, seed: bv32)
    requires mask.Valid()
    ensures var h := PixelHash(11, 12, (channel % 0x1_0000_0000) as bv32, seed) as int;
            && OffsetFor(mask, channel, seed).x == h % 0x8000_0000 % mask.width
            && OffsetFor(mask, channel, seed).y == h / 0x1_0000 % mask.height
  {
    HalfFits(PixelHash(11, 12, (channel % 0x1_0000_0000) as bv32, seed) as int);
  }

  lemma HalfFits(h: int)
    requires 0 <= h < 0x1_0000_0000
    ensures h / 0x1_0000 % 0x8000_0000 == h / 0x1_0000
  {
  }

  /** The mask is repeated in both directions and shifted by the offset. */
  lemma MaskTiles(mask: Mask, offset: MaskOffset, x: nat, y: nat)
    requires mask.Valid()
    ensures Threshold(mask, offset, x + mask.width, y) == Threshold(mask, offset, x, y)
    ensures Threshold(mask, offset, x, y + mask.height) == Threshold(mask, offset, x, y)
    ensures Threshold(mask, offset, x, y) == Threshold(mask, MaskOffset(0, 0), x + offset.x, y + offset.y)
    ensures x < mask.width && y < mask.height ==>
              0 <= y * mask.width + x < |mask.bytes| &&
              Threshold(mask, MaskOffset(0, 0), x, y) == mask.bytes[y * mask.width + x]
  {
    OnePeriod(x + offset.x, mask.width);
    OnePeriod(y + offset.y, mask.height);
    assert x + mask.width + offset.x == x + offset.x + mask.width;
    assert y + mask.height + offset.y == y + offset.y + mask.height;
    if x < mask.width && y < mask.height {
      MaskAtOrigin(mask, x, y);
    }
  }

  lemma MaskAtOrigin(mask: Mask, x: nat, y: nat)
    requires mask.Valid() && x < mask.width && y < mask.height
    ensures 0 <= y * mask.width + x < |mask.bytes|
    ensures Threshold(mask, MaskOffset(0, 0), x, y) == mask.bytes[y * mask.width + x]
  {
    CellInPlane(x, y, mask.width, mask.height);
    SmallModulo(x, mask.width);
    SmallModulo(y, mask.height);
  }

  lemma OnePeriod(n: nat, d: nat)
    requires 0 < d
    ensures (n + d) % d == n % d
  {
    var q := n / d;
    assert n + d == (q + 1) * d + n % d;
    QuotientIs(n + d, d, q + 1);
  }

  /** The minimum lets nothing through at or below it, except that it never stops the full tone nor lets the
      blank one through. */
  lemma MinimumExact(c: ScreenChannel, u: Tone)
    ensures u <= MinTone(c) <==> u == 0 || (u <= 254 && u <= c.minInkThreshold)
    ensures u <= MinTone(c) ==> ClassTone(c, u) == 0
    ensures MinTone(c) < u ==> ClassTone(c, u) == if c.useEffectiveTone then EffectiveTone(c, u) else u
  {
  }

  /** Above the minimum the remaining tones are stretched over 1..255, rounding down. */
  lemma StretchExact(minTone: Tone, u: Tone)
    requires minTone < u
    ensures var n := Normalized(minTone, u);
            n * (255 - minTone) <= (u - minTone) * 255 < (n + 1) * (255 - minTone)
    ensures Normalized(minTone, 255) == 255 && (minTone == 0 ==> Normalized(minTone, u) == u)
  {
    QuotientLaw((u - minTone) * 255, 255 - minTone);
    QuotientIs((255 - minTone) * 255, 255 - minTone, 255);
  }

  lemma QuotientLaw(n: int, d: int)
    requires 0 < d
    ensures n / d * d <= n < (n / d + 1) * d
  {
    assert n == n / d * d + n % d;
    assert (n / d + 1) * d == n / d * d + d;
  }

  /** The floor lifts exactly the tones below its range, by the share of its maximum that the tone lacks of the
      range, rounding down, and at most to the full tone. */
  lemma LiftExact(range: Tone, max: Tone, tone: Tone)
    ensures tone >= range || max == 0 ==> Lifted(range, max, tone) == tone
    ensures tone < range && 0 < max ==>
              var r := Lifted(range, max, tone);
              && tone <= r && (r - tone) * range <= (range - tone) * max
              && (r == 255 || (range - tone) * max < (r - tone + 1) * range)
  {
    if tone < range && 0 < max {
      var n := (range - tone) * max;
      QuotientLaw(n, range);
      ScaledTone(range - tone, max);
      DivisionNonNegative(n, range);
      if 255 < tone + n / range {
        ProductGrows(255 - tone, n / range, range);
      }
    }
  }

  /** Ink goes exactly where the stretched and lifted tone is above the mask value; the full tone prints
      everywhere but at mask value 255. */
  lemma InkExact(c: ScreenChannel, mask: Mask, offset: MaskOffset, u: Tone, x: nat, y: nat)
    requires mask.Valid()
    ensures u <= MinTone(c) ==> RawDot(c, mask, offset, u, x, y) == 0
    ensures MinTone(c) < u ==>
              (RawDot(c, mask, offset, u, x, y) != 0 <==>
               Threshold(mask, offset, x, y) < Lifted(c.floorRange, c.floorMax, Normalized(MinTone(c), u)))
    ensures u == 255 ==> (RawDot(c, mask, offset, u, x, y) != 0 <==> Threshold(mask, offset, x, y) < 255)
  {
    StretchExact(MinTone(c), 255);
    LiftExact(c.floorRange, c.floorMax, 255);
  }

  /** A threshold setting as the engines read it. */
  function Setting(value: int): int {
    if value < 0 then 0 else if value > 255 then 255 else value
  }

  /** Where the size of a dot changes: the mask value, scaled by the tone, is compared with two cuts, which move
      from 64 and 130 for blank to the two settings for full tone. */
  lemma SizeCuts(c: ScreenChannel, tone: Tone, threshold: Tone)
    ensures var scaled := threshold * tone / 255;
            var small := ((255 - tone) * 64 + tone * Setting(c.smallDotThreshold)) / 255;
            var medium := ((255 - tone) * 130 + tone * Setting(c.medDotThreshold)) / 255;
            && (SizeClass(c, tone, threshold) == 1 <==> scaled <= small)
            && (SizeClass(c, tone, threshold) == 2 <==> small < scaled <= medium)
            && (SizeClass(c, tone, threshold) == 3 <==> small < scaled && medium < scaled)
  {
  }

  /** At full tone the two settings are the cuts themselves. */
  lemma SizeAtFullTone(c: ScreenChannel, threshold: Tone)
    ensures SizeClass(c, 255, threshold) == 1 <==> threshold <= Setting(c.smallDotThreshold)
    ensures SizeClass(c, 255, threshold) == 3 <==>
              Setting(c.smallDotThreshold) < threshold && Setting(c.medDotThreshold) < threshold
  {
  }

  /** What the highlight swap does to a raw dot, against the same channel without it: it never changes where ink
      goes; below tone 96 it exchanges small and large everywhere, from 160 on nowhere, and in between exactly
      where the noise byte of the pixel is below the share of 255 that the tone lacks of 160. */
  lemma SwapExact(c: ScreenChannel, mask: Mask, offset: MaskOffset, u: Tone, x: nat, y: nat)
    requires mask.Valid() && c.enableDotSwap
    ensures var plain := RawDot(c.(enableDotSwap := false), mask, offset, u, x, y);
            var dot, tone := RawDot(c, mask, offset, u, x, y), ClassTone(c, u);
            && (dot == 0 <==> plain == 0)
            && (plain != 0 && tone < 96 ==> dot == 4 - plain)
            && (160 <= tone ==> dot == plain)
            && (plain != 0 && 96 <= tone < 160 ==>
                  dot == if PixelNoise(x, y) % 256 < (160 - tone) * 255 / 64 then 4 - plain else plain)
  {
    assert MinTone(c.(enableDotSwap := false)) == MinTone(c);
  }

  /** Without the swap a dot is its size class. */
  lemma UnswappedIsSize(c: ScreenChannel, mask: Mask, offset: MaskOffset, u: Tone, x: nat, y: nat)
    requires mask.Valid() && !c.enableDotSwap && RawDot(c, mask, offset, u, x, y) != 0
    ensures RawDot(c, mask, offset, u, x, y) == SizeClass(c, ClassTone(c, u), Threshold(mask, offset, x, y))
  {
  }
}
