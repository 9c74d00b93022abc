/** Grey-component replacement in neutral pixels, and the fading of light inks there. */
module NeutralTransfer {
  import opened Arithmetic
  import opened RasterTypes

  datatype Cmyk = Cmyk(c: Tone, m: Tone, y: Tone, k: Tone)

  datatype GcrParams = GcrParams(
    enabled: bool,
    neutralGate: Tone,
    gcrMaxTone: Tone,
    gcrStrength: Tone,
    kGain: Tone,
    kMinInNeutral: Tone,
    cyanFadePct: int,
    magentaFadePct: int)
  {
    predicate Valid() {
      0 <= cyanFadePct <= 100 && 0 <= magentaFadePct <= 100
    }
  }

  function Most(c: Tone, m: Tone, y: Tone): Tone {
    Max(Max(c, m), y)
  }

  function Least(c: Tone, m: Tone, y: Tone): Tone {
    Min(Min(c, m), y)
  }

  /** Neither too colourful nor too dark to count as neutral. */
  predicate Neutral(p: GcrParams, c: Tone, m: Tone, y: Tone) {
    Most(c, m, y) - Least(c, m, y) <= p.neutralGate && Most(c, m, y) <= p.gcrMaxTone
  }

  /** A fraction of a tone in 255ths, rounded down. */
  function Fraction(tone: Tone, weight: Tone): (r: Tone)
    ensures r <= tone
  {
    ScaledTone(weight, tone);
    FractionWithin(tone, weight);
    tone * weight / 255
  }

  lemma FractionWithin(tone: Tone, weight: Tone)
    ensures 0 <= tone * weight / 255 <= tone
  {
    ProductGrows(0, tone, weight);
    ProductGrows(weight, 255, tone);
    DivisionBounds(tone * weight, 255, 0, tone);
  }

  /** How much of the common component is moved to black. */
  function Pull(p: GcrParams, px: Cmyk): (r: Tone)
    ensures r <= Least(px.c, px.m, px.y)
  {
    Fraction(Least(px.c, px.m, px.y), p.gcrStrength)
  }

  function BlackBefore(p: GcrParams, px: Cmyk): Tone {
    Min(255, px.k + Fraction(Pull(p, px), p.kGain))
  }

  /** The black minimum applies to neutral pixels that have any common component. */
  predicate Raised(p: GcrParams, px: Cmyk) {
    BlackBefore(p, px) < p.kMinInNeutral && 0 < Least(px.c, px.m, px.y)
  }

  function Transferred(p: GcrParams, px: Cmyk): Cmyk {
    if !p.enabled || !Neutral(p, px.c, px.m, px.y) then px
    else
      var pull := Pull(p, px);
      Cmyk(px.c - pull, px.m - pull, px.y - pull, if Raised(p, px) then p.kMinInNeutral else BlackBefore(p, px))
  }

  function Ink(px: Cmyk): int {
    px.c + px.m + px.y + px.k
  }

  /** The transfer keeps the differences between the colours, never lowers black, and leaves a neutral pixel
      neutral. */
  lemma TransferKeeps(p: GcrParams, px: Cmyk)
    ensures var q := Transferred(p, px);
            && q.c - q.m == px.c - px.m && q.m - q.y == px.m - px.y && px.k <= q.k
            && q.c <= px.c && q.m <= px.m && q.y <= px.y
            && (Neutral(p, px.c, px.m, px.y) ==> Neutral(p, q.c, q.m, q.y))
            && (q != px ==> p.enabled && Neutral(p, q.c, q.m, q.y))
  {
  }

  /** Total ink grows exactly when the black minimum adds more than the three colours give up. */
  lemma TransferInk(p: GcrParams, px: Cmyk)
    ensures Ink(Transferred(p, px)) > Ink(px) <==>
              && p.enabled && Neutral(p, px.c, px.m, px.y) && Raised(p, px)
              && p.kMinInNeutral - px.k > 3 * Pull(p, px)
    ensures !Raised(p, px) ==> Ink(Transferred(p, px)) <= Ink(px)
  {
  }

  function Faded(tone: Tone, percent: int): (r: Tone)
    requires 0 <= percent <= 100
    ensures r <= tone
  {
    ProductGrows(0, 100 - percent, tone);
    ProductGrows(100 - percent, 100, tone);
    DivisionBounds(tone * (100 - percent), 100, 0, tone);
    Min(255, tone * (100 - percent) / 100)
  }

  /** A light ink after the fade, which looks at the colours it is given. */
  function LightInk(p: GcrParams, c: Tone, m: Tone, y: Tone, light: Tone, percent: int): Tone
    requires 0 <= percent <= 100
  {
    if p.enabled && Neutral(p, c, m, y) then Faded(light, percent) else light
  }

  /** Replaces grey in place. */
  method ApplyGcr(c: array<Tone>, m: array<Tone>, y: array<Tone>, k: array<Tone>, p: GcrParams)
    requires c.Length == m.Length == y.Length == k.Length
    requires c != m && c != y && c != k && m != y && m != k && y != k
    modifies c, m, y, k
    ensures forall i {:trigger c[i]} {:trigger m[i]} {:trigger y[i]} {:trigger k[i]} :: 0 <= i < c.Length ==>
              Cmyk(c[i], m[i], y[i], k[i]) == Transferred(p, old(Cmyk(c[i], m[i], y[i], k[i])))
  {
    if !p.enabled {
      return;
    }
    var i := 0;
    while i < c.Length
      invariant 0 <= i <= c.Length
      invariant forall j {:trigger c[j]} {:trigger m[j]} {:trigger y[j]} {:trigger k[j]} :: 0 <= j < i ==>
                  Cmyk(c[j], m[j], y[j], k[j]) == Transferred(p, old(Cmyk(c[j], m[j], y[j], k[j])))
      invariant forall j {:trigger c[j]} {:trigger m[j]} {:trigger y[j]} {:trigger k[j]} :: i <= j < c.Length ==>
                  Cmyk(c[j], m[j], y[j], k[j]) == old(Cmyk(c[j], m[j], y[j], k[j]))
    {
      var px := Cmyk(c[i], m[i], y[i], k[i]);
      var q := TransferPixel(p, px);
      c[i], m[i], y[i], k[i] := q.c, q.m, q.y, q.k;
      i := i + 1;
    }
  }

  /** One pixel, step by step. */
  method TransferPixel(p: GcrParams, px: Cmyk) returns (q: Cmyk)
    requires p.enabled
    ensures q == Transferred(p, px)
  {
    var maxCMY, minCMY := Most(px.c, px.m, px.y), Least(px.c, px.m, px.y);
    if maxCMY - minCMY > p.neutralGate || maxCMY > p.gcrMaxTone {
      return px;
    }
    var pull := Min(Fraction(minCMY, p.gcrStrength), minCMY);
    var kNew := Min(255, px.k + Fraction(pull, p.kGain));
    if kNew < p.kMinInNeutral && minCMY > 0 {
      kNew := p.kMinInNeutral;
    }
    q := Cmyk(px.c - pull, px.m - pull, px.y - pull, kNew);
  }

  /** Fades the two light inks in place where the given colours are neutral. */
  method ApplyFade(c: seq<Tone>, m: seq<Tone>, y: seq<Tone>, cLight: array<Tone>, mLight: array<Tone>, p: GcrParams)
    requires |c| == |m| == |y| == cLight.Length == mLight.Length && cLight != mLight && p.Valid()
    modifies cLight, mLight
    ensures forall i :: 0 <= i < |c| ==> cLight[i] == LightInk(p, c[i], m[i], y[i], old(cLight[i]), p.cyanFadePct)
    ensures forall i :: 0 <= i < |c| ==> mLight[i] == LightInk(p, c[i], m[i], y[i], old(mLight[i]), p.magentaFadePct)
  {
    if !p.enabled {
      return;
    }
    var i := 0;
    while i < |c|
      invariant 0 <= i <= |c|
      invariant forall j :: 0 <= j < i ==> cLight[j] == LightInk(p, c[j], m[j], y[j], old(cLight[j]), p.cyanFadePct)
      invariant forall j :: 0 <= j < i ==> mLight[j] == LightInk(p, c[j], m[j], y[j], old(mLight[j]), p.magentaFadePct)
      invariant forall j :: i <= j < |c| ==> cLight[j] == old(cLight[j]) && mLight[j] == old(mLight[j])
    {
      if Neutral(p, c[i], m[i], y[i]) {
        cLight[i], mLight[i] := Faded(cLight[i], p.cyanFadePct), Faded(mLight[i], p.magentaFadePct);
      }
      i := i + 1;
    }
  }

  /** Where the fade sees the transferred colours, it covers every pixel the transfer changed. */
  lemma FadeCoversTransfer(p: GcrParams, px: Cmyk, light: Tone, percent: int)
    requires 0 <= percent <= 100 && Transferred(p, px) != px
    ensures var q := Transferred(p, px); LightInk(p, q.c, q.m, q.y, light, percent) == Faded(light, percent)
  {
    TransferKeeps(p, px);
  }

  /** Where yellow has been linearized first, a changed pixel is covered exactly when it is still neutral with
      the linearized yellow. */
  lemma LinearizedFadeCovers(p: GcrParams, px: Cmyk, yellow: Tone)
    requires Transferred(p, px) != px
    ensures var q := Transferred(p, px);
            (forall light: Tone, percent | 0 <= percent <= 100 ::
               LightInk(p, q.c, q.m, yellow, light, percent) == Faded(light, percent)) <==>
              Neutral(p, q.c, q.m, yellow)
  {
    var q := Transferred(p, px);
    if !Neutral(p, q.c, q.m, yellow) {
      assert LightInk(p, q.c, q.m, yellow, 100, 100) != Faded(100, 100);
    }
  }
}
