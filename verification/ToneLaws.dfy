/** What the tone steps do to a value, in whole numbers: alpha, white, grey replacement and the fading of light inks. */
module ToneLaws {
  import opened Arithmetic
  import opened RasterTypes
  import opened ToneStage
  import opened NeutralTransfer

  /** Alpha 0 leaves nothing and 255 everything; the result never exceeds the tone or the alpha, is the nearest
      whole number, and does not fall when tone or alpha rises. */
  lemma AlphaLaws(tone: Tone, alpha: Tone, tone': Tone, alpha': Tone)
    requires tone <= tone' && alpha <= alpha'
    ensures AlphaScaled(tone, 0) == 0 && AlphaScaled(tone, 255) == tone
    ensures AlphaScaled(tone, alpha) <= tone && AlphaScaled(tone, alpha) <= alpha
    ensures -127 <= 255 * AlphaScaled(tone, alpha) - tone * alpha <= 127
    ensures AlphaScaled(tone, alpha) <= AlphaScaled(tone', alpha')
  {
    AlphaNearest(tone, alpha);
    AlphaNearest(tone', alpha');
    ProductGrows(alpha, 255, tone);
    ProductGrows(tone, 255, alpha);
    ProductGrows(tone, tone', alpha);
    ProductGrows(alpha, alpha', tone');
  }

  /** `r` is the quotient of n by d, rounded down. */
  predicate Down(r: int, n: int, d: int) {
    r * d <= n < (r + 1) * d
  }

  lemma QuotientDown(n: int, d: int)
    requires 0 < d
    ensures Down(n / d, n, d)
  {
    assert n == n / d * d + n % d;
    assert (n / d + 1) * d == n / d * d + d;
  }

  /** A setting as the tone builders read it. */
  function Setting(value: int): int {
    if value < 0 then 0 else if value > 255 then 255 else value
  }

  /** White coverage: nothing up to the threshold; beyond it the rest of the scale is stretched over 0..255 and then
      weighted by the density, rounding down twice; full coverage has the density. */
  lemma WhiteExact(source: Tone, threshold: int, density: int)
    ensures source <= Setting(threshold) ==> ThresholdDensity(source, threshold, density) == 0
    ensures Setting(threshold) < source ==>
              exists n :: Down(n, (source - Setting(threshold)) * 255, 255 - Setting(threshold)) &&
                Down(ThresholdDensity(source, threshold, density), n * Setting(density), 255)
    ensures Setting(threshold) < 255 ==> ThresholdDensity(255, threshold, density) == Setting(density)
  {
    var t, d := Setting(threshold), Setting(density);
    if t < source {
      var n := (source - t) * 255 / (255 - t);
      QuotientDown((source - t) * 255, 255 - t);
      QuotientDown(n * d, 255);
      assert Clamp(threshold, 0, 255) == t && Clamp(density, 0, 255) == d;
      if d == 0 {
        assert n * d == 0;
      }
      assert ThresholdDensity(source, threshold, density) == n * d / 255;
      assert Down(n, (source - t) * 255, 255 - t) && Down(n * d / 255, n * d, 255);
    }
    if t < 255 {
      QuotientIs((255 - t) * 255, 255 - t, 255);
      QuotientIs(255 * d, 255, d);
    }
  }

  /** The heaviest ink is one of the four, and none is heavier. */
  lemma HeaviestExact(c: Tone, m: Tone, y: Tone, k: Tone)
    ensures var h := Heaviest(c, m, y, k);
            && c <= h && m <= h && y <= h && k <= h && (h == c || h == m || h == y || h == k)
  {
  }

  /** The curve of a channel, if curves are loaded. */
  function Through(curve: Option<Lut>, tone: Tone): Tone {
    if curve.None? then tone else curve.value[tone]
  }

  function CurveOf(curves: Option<Curves>, pick: Curves -> Lut): Option<Lut> {
    if curves.None? then None else Some(pick(curves.value))
  }

  /** Each ink of a pixel is its own sample through its own curve: cyan first, then magenta, yellow and black. */
  lemma InksApart(config: ToneConfig, raw: seq<Tone>, i: nat)
    requires 4 * i + 3 < |raw|
    ensures InkTone(config, raw, 0, i) == Through(CurveOf(config.curves, (l: Curves) => l.c), raw[4 * i])
    ensures InkTone(config, raw, 1, i) == Through(CurveOf(config.curves, (l: Curves) => l.m), raw[4 * i + 1])
    ensures InkTone(config, raw, 2, i) == Through(CurveOf(config.curves, (l: Curves) => l.y), raw[4 * i + 2])
    ensures InkTone(config, raw, 3, i) == Through(CurveOf(config.curves, (l: Curves) => l.k), raw[4 * i + 3])
  {
  }

  /** X-33 white: the density everywhere, or the plate or the heaviest finished ink after threshold and density, each
      through the white curve. */
  lemma WhiteModes(config: ToneConfig, raw: seq<Tone>, plate: seq<Tone>, i: nat)
    requires 4 * i + 3 < |raw| && i < |plate|
    ensures var w := CurveOf(config.curves, (l: Curves) => l.w);
            var white := WhiteTone(config, raw, plate, i);
            && (config.whiteMode == Flood ==> white == Through(w, Setting(config.whiteDensity)))
            && (config.whiteMode == Plate ==>
                  white == Through(w, ThresholdDensity(plate[i], config.whiteThreshold, config.whiteDensity)))
            && (config.whiteMode == AutoUnderbase ==>
                  white == Through(w, ThresholdDensity(
                    Heaviest(InkTone(config, raw, 0, i), InkTone(config, raw, 1, i), InkTone(config, raw, 2, i),
                             InkTone(config, raw, 3, i)), config.whiteThreshold, config.whiteDensity)))
  {
  }

  /** Grey replacement of a neutral pixel: the same amount leaves the three colours, the strength's share of the least
      of them; black gains the gain's share of it, up to full, and at least the minimum if there was any common
      component. A pixel whose colours spread more than the gate, or one of whose colours is above the maximum,
      stays. */
  lemma TransferExact(p: GcrParams, px: Cmyk)
    ensures var least, most := Least(px.c, px.m, px.y), Most(px.c, px.m, px.y); var q := Transferred(p, px);
            && (!p.enabled || most - least > p.neutralGate || most > p.gcrMaxTone ==> q == px)
            && (p.enabled && most - least <= p.neutralGate && most <= p.gcrMaxTone ==>
                  && q.m == px.m - (px.c - q.c) && q.y == px.y - (px.c - q.c)
                  && Down(px.c - q.c, least * p.gcrStrength, 255)
                  && BlackGains(p, px.k, px.c - q.c, q.k, least))
  {
    var least := Least(px.c, px.m, px.y);
    QuotientDown(least * p.gcrStrength, 255);
    QuotientDown(Pull(p, px) * p.kGain, 255);
    assert Down(Fraction(Pull(p, px), p.kGain), Pull(p, px) * p.kGain, 255);
  }

  /** Black after `pull` has left the colours. */
  ghost predicate BlackGains(p: GcrParams, before: Tone, pull: int, after: Tone, least: Tone) {
    exists gain :: Down(gain, pull * p.kGain, 255) &&
      var full := if before + gain > 255 then 255 else before + gain;
      after == if full < p.kMinInNeutral && 0 < least then p.kMinInNeutral else full
  }

  lemma ExtremesExact(c: Tone, m: Tone, y: Tone)
    ensures var least, most := Least(c, m, y), Most(c, m, y);
            && least <= c <= most && least <= m <= most && least <= y <= most
            && (least == c || least == m || least == y) && (most == c || most == m || most == y)
  {
  }

  /** A faded ink keeps what the percentage leaves of it, rounding down: everything at 0, nothing at 100. */
  lemma FadeExact(tone: Tone, percent: int)
    requires 0 <= percent <= 100
    ensures Down(Faded(tone, percent), tone * (100 - percent), 100)
    ensures Faded(tone, 0) == tone && Faded(tone, 100) == 0
  {
    QuotientDown(tone * (100 - percent), 100);
    ProductGrows(0, 100 - percent, tone);
    ProductGrows(100 - percent, 100, tone);
    DivisionBounds(tone * (100 - percent), 100, 0, tone);
  }
}
