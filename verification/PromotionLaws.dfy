/** What promotion does to a dot, as a rule over whole numbers: an independent statement of the decision, without its
    real-valued probability, and of the window it looks at. */
module PromotionLaws {
  import opened RasterTypes
  import opened PixelScreening
  import opened Promotion

  /** The sum over a 4x4 window without its centre. */
  function Around(values: seq<int>): int
    requires |values| == 16
  {
    values[0] + values[1] + values[2] + values[3] + values[4] + values[6] + values[7] + values[8] + values[9] +
    values[10] + values[11] + values[12] + values[13] + values[14] + values[15]
  }

  function Inked(dots: seq<Dot>): (flags: seq<int>)
    requires |dots| == 16
    ensures |flags| == 16
  {
    seq(16, k requires 0 <= k < 16 => if dots[k] == 0 then 0 else 1)
  }

  /** How far every tone of the window is from the centre's. */
  function Gaps(tones: seq<Tone>): (gaps: seq<int>)
    requires |tones| == 16
    ensures |gaps| == 16
  {
    seq(16, k requires 0 <= k < 16 => if tones[k] < tones[5] then tones[5] - tones[k] else tones[k] - tones[5])
  }

  /** The same over the first k entries. */
  function AroundUpTo(values: seq<int>, k: nat): int
    requires k <= |values| == 16
  {
    if k == 0 then 0 else AroundUpTo(values, k - 1) + (if k == 6 then 0 else values[k - 1])
  }

  lemma AroundIsAll(values: seq<int>)
    requires |values| == 16
    ensures AroundUpTo(values, 16) == Around(values)
  {
    assert AroundUpTo(values, 1) == AroundUpTo(values, 0) + values[0];
    assert AroundUpTo(values, 2) == AroundUpTo(values, 1) + values[1];
    assert AroundUpTo(values, 3) == AroundUpTo(values, 2) + values[2];
    assert AroundUpTo(values, 4) == AroundUpTo(values, 3) + values[3];
    assert AroundUpTo(values, 5) == AroundUpTo(values, 4) + values[4];
    assert AroundUpTo(values, 6) == AroundUpTo(values, 5);
    assert AroundUpTo(values, 7) == AroundUpTo(values, 6) + values[6];
    assert AroundUpTo(values, 8) == AroundUpTo(values, 7) + values[7];
    assert AroundUpTo(values, 9) == AroundUpTo(values, 8) + values[8];
    assert AroundUpTo(values, 10) == AroundUpTo(values, 9) + values[9];
    assert AroundUpTo(values, 11) == AroundUpTo(values, 10) + values[10];
    assert AroundUpTo(values, 12) == AroundUpTo(values, 11) + values[11];
    assert AroundUpTo(values, 13) == AroundUpTo(values, 12) + values[12];
    assert AroundUpTo(values, 14) == AroundUpTo(values, 13) + values[13];
    assert AroundUpTo(values, 15) == AroundUpTo(values, 14) + values[14];
    assert AroundUpTo(values, 16) == AroundUpTo(values, 15) + values[15];
  }

  lemma {:induction false} SurveyIsSum(dots: seq<Dot>, tones: seq<Tone>, k: nat)
    requires |dots| == |tones| == 16 && k <= 16
    ensures WeightUpTo(dots, k) == AroundUpTo(dots, k)
    ensures InkedUpTo(dots, k) == AroundUpTo(Inked(dots), k)
    ensures DeviationUpTo(tones, k) == AroundUpTo(Gaps(tones), k)
  {
    if k > 0 {
      SurveyIsSum(dots, tones, k - 1);
    }
  }

  /** Whether a draw n of 65536 is below the ramp from low to high at the given weight, times the tone's share of
      full tone; never at or below the ramp's start. */
  predicate Drawn(n: int, weight: int, low: int, high: int, tone: int) {
    && low < weight
    && if high <= weight then n * 255 < tone * 65535
       else n * 255 * (high - low) < (weight - low) * tone * 65535
  }

  /** The rule. A dot can rise only if its tone reaches the gate, enough of its neighbours are inked and they
      deviate little enough on average; then a small one rises over the first band of weights, a medium one over
      the second. */
  function Rule(p: PromotionParameters, n: int, dots: seq<Dot>, tones: seq<Tone>): int
    requires |dots| == |tones| == 16
  {
    var dot, tone, weight := dots[5], tones[5], Around(dots) + p.kickBonus;
    if tone < p.toneGate || Around(Inked(dots)) < p.minimumInked || p.flatEpsilon < Around(Gaps(tones)) / 15 then dot
    else if dot == 1 && Drawn(n, weight, p.medLow, p.medHigh, tone) then 2
    else if dot == 2 && Drawn(n, weight, p.largeLow, p.largeHigh, tone) then 3
    else dot
  }

  /** The decision is the rule, for the low 16 bits of the pixel's noise as draw. */
  lemma PromotedIsRule(p: PromotionParameters, x: int, y: int, dots: seq<Dot>, tones: seq<Tone>)
    requires |dots| == |tones| == 16
    ensures Promoted(p, x, y, dots, tones) == Rule(p, PixelNoise(x, y) % 0x1_0000, dots, tones)
  {
    SurveyIsSum(dots, tones, 16);
    AroundIsAll(dots);
    AroundIsAll(Inked(dots));
    AroundIsAll(Gaps(tones));
    var n, weight, tone := PixelNoise(x, y) % 0x1_0000, Around(dots) + p.kickBonus, tones[5];
    WinsIsDrawn(x, y, n, weight, p.medLow, p.medHigh, tone);
    WinsIsDrawn(x, y, n, weight, p.largeLow, p.largeHigh, tone);
  }

  lemma WinsIsDrawn(x: int, y: int, n: int, weight: int, low: Tone, high: Tone, tone: Tone)
    requires n == PixelNoise(x, y) % 0x1_0000
    ensures Wins(x, y, weight, low, high, tone) <==> Drawn(n, weight, low, high, tone)
  {
    RampIsDrawn(n, weight, low, high, tone);
  }

  lemma RampIsDrawn(n: nat, weight: int, low: Tone, high: Tone, tone: Tone)
    ensures n as real / 65535.0 < Probability(weight, low, high, tone) <==> Drawn(n, weight, low, high, tone)
  {
    if low < weight < high {
      RampBelow(n, weight - low, high - low, tone);
    } else if weight <= low {
      NoRamp(tone as real / 255.0, n as real / 65535.0);
    } else {
      FullRamp(n, tone);
    }
  }

  lemma NoRamp(t: real, draw: real)
    requires 0.0 <= draw
    ensures !(draw < 0.0 * t)
  {
  }

  lemma FullRamp(n: nat, tone: Tone)
    ensures n as real / 65535.0 < 1.0 * (tone as real / 255.0) <==> n * 255 < tone * 65535
  {
    assert 1.0 * (tone as real / 255.0) == tone as real / 255.0;
  }

  /** A fraction below a product of fractions, cross-multiplied. */
  lemma RampBelow(n: int, rise: int, span: int, tone: Tone)
    requires 0 < span
    ensures n as real / 65535.0 < rise as real / span as real * (tone as real / 255.0) <==>
              n * 255 * span < rise * tone * 65535
  {
    var a, b, s, t := n as real, rise as real, span as real, tone as real;
    var share := b / s;
    assert share * s == b;
    Scaled(a / 65535.0, share * (t / 255.0), s);
    assert a / 65535.0 * s * 65535.0 * 255.0 == a * 255.0 * s;
    assert share * (t / 255.0) * s == b * (t / 255.0) by {
      Regroup(share, t / 255.0, s);
    }
    assert (n * 255 * span) as real == a * 255.0 * s;
    assert (rise * tone * 65535) as real == b * t * 65535.0;
  }

  lemma Regroup(a: real, b: real, c: real)
    ensures a * b * c == a * c * b
  {
  }

  lemma Scaled(a: real, b: real, s: real)
    requires 0.0 < s
    ensures a < b <==> a * s < b * s
  {
    if a < b {
      assert 0.0 < (b - a) * s;
    } else {
      assert 0.0 <= (a - b) * s;
    }
  }

  /** Entry of row r and column c of a window. */
  function Cell(r: nat, c: nat): (k: nat)
    requires r < 4 && c < 4
    ensures k < 16
  {
    4 * r + c
  }

  /** What the window of an interior pixel shows when the scan gets there: above it and to its left the dots the
      scan leaves behind, elsewhere the dots it was given. */
  ghost predicate Shows(f: Frame, goal: seq<seq<Dot>>, x: nat, y: nat, dots: seq<Dot>, tones: seq<Tone>)
    requires f.Valid() && 1 <= x < f.width - 2 && 1 <= y < f.height - 2
    requires |goal| == f.height && forall r :: 0 <= r < f.height ==> |goal[r]| == f.width
  {
    && |dots| == |tones| == 16
    && forall r: nat, c: nat :: r < 4 && c < 4 ==>
         && dots[Cell(r, c)] == (if r == 0 || (r == 1 && c == 0) then goal[y - 1 + r][x - 1 + c]
                                 else f.dots[y - 1 + r][x - 1 + c])
         && tones[Cell(r, c)] == f.tones[y - 1 + r][x - 1 + c]
  }

  /** The settled raster: every dot of the interior follows the rule for what its window shows, and the first row
      and column and the last two of each stay. */
  lemma SettledIsRule(f: Frame, p: PromotionParameters, goal: seq<seq<Dot>>, x: nat, y: nat)
    requires Settles(f, p, goal) && x < f.width && y < f.height
    ensures x < 1 || f.width - 2 <= x || y < 1 || f.height - 2 <= y ==> goal[y][x] == f.dots[y][x]
    ensures 1 <= x < f.width - 2 && 1 <= y < f.height - 2 ==>
              exists dots, tones :: Shows(f, goal, x, y, dots, tones) &&
                goal[y][x] == Rule(p, PixelNoise(x, y) % 0x1_0000, dots, tones)
  {
    if f.Visited(x, y) {
      var dots, tones := ScanWindow(f, goal, x, y), Window(f.tones, x, y);
      GoalPixel(f, p, goal, x, y);
      PromotedIsRule(p, x, y, dots, tones);
      ScanShows(f, goal, x, y);
    } else {
      GoalBorder(f, p, goal, x, y);
    }
  }

  lemma ScanShows(f: Frame, goal: seq<seq<Dot>>, x: nat, y: nat)
    requires f.Valid() && f.Visited(x, y)
    requires |goal| == f.height && forall r :: 0 <= r < f.height ==> |goal[r]| == f.width
    ensures Shows(f, goal, x, y, ScanWindow(f, goal, x, y), Window(f.tones, x, y))
  {
    var dots, tones := ScanWindow(f, goal, x, y), Window(f.tones, x, y);
    forall r: nat, c: nat | r < 4 && c < 4
      ensures dots[Cell(r, c)] == (if r == 0 || (r == 1 && c == 0) then goal[y - 1 + r][x - 1 + c]
                                   else f.dots[y - 1 + r][x - 1 + c])
      ensures tones[Cell(r, c)] == f.tones[y - 1 + r][x - 1 + c]
    {
      ScanAt(f, goal, x, y, r, c);
      WindowAt(f.tones, x, y, r, c);
    }
  }

  lemma FourRows<T>(a: seq<T>, b: seq<T>, c: seq<T>, d: seq<T>, r: nat, k: nat)
    requires |a| == |b| == |c| == |d| == 4 && r < 4 && k < 4
    ensures (a + b + c + d)[Cell(r, k)] == (if r == 0 then a else if r == 1 then b else if r == 2 then c else d)[k]
  {
  }

  lemma ScanAt(f: Frame, goal: seq<seq<Dot>>, x: nat, y: nat, r: nat, c: nat)
    requires f.Valid() && f.Visited(x, y) && r < 4 && c < 4
    requires |goal| == f.height && forall r :: 0 <= r < f.height ==> |goal[r]| == f.width
    ensures ScanWindow(f, goal, x, y)[Cell(r, c)] ==
            if r == 0 || (r == 1 && c == 0) then goal[y - 1 + r][x - 1 + c] else f.dots[y - 1 + r][x - 1 + c]
  {
    var above, left, here := goal[y - 1][x - 1..x + 3], [goal[y][x - 1]], f.dots[y][x..x + 3];
    assert above + left + here == above + (left + here);
    FourRows(above, left + here, f.dots[y + 1][x - 1..x + 3], f.dots[y + 2][x - 1..x + 3], r, c);
  }

  lemma WindowAt<T>(rows: seq<seq<T>>, x: nat, y: nat, r: nat, c: nat)
    requires 1 <= y && y + 2 < |rows| && 1 <= x && r < 4 && c < 4
    requires forall q :: y - 1 <= q <= y + 2 ==> x + 2 < |rows[q]|
    ensures Window(rows, x, y)[Cell(r, c)] == rows[y - 1 + r][x - 1 + c]
  {
    FourRows(rows[y - 1][x - 1..x + 3], rows[y][x - 1..x + 3], rows[y + 1][x - 1..x + 3], rows[y + 2][x - 1..x + 3],
             r, c);
  }

  /** Below the second band no medium dot rises; from the end of the first band on every small one does that is
      open to it and of full tone, but for the one highest draw. */
  lemma BandsApart(p: PromotionParameters, n: int, dots: seq<Dot>, tones: seq<Tone>)
    requires |dots| == |tones| == 16 && 0 <= n < 65536
    ensures dots[5] == 2 && Around(dots) + p.kickBonus <= p.largeLow ==> Rule(p, n, dots, tones) == 2
    ensures dots[5] == 1 && Around(dots) + p.kickBonus <= p.medLow ==> Rule(p, n, dots, tones) == 1
    ensures dots[5] == 1 && p.medLow < p.medHigh <= Around(dots) + p.kickBonus && tones[5] == 255 && n < 65535 &&
            p.minimumInked <= Around(Inked(dots)) && Around(Gaps(tones)) / 15 <= p.flatEpsilon ==>
              Rule(p, n, dots, tones) == 2
  {
  }

  /** The settings and their defaults. A setting is limited to a byte and moves nothing but itself. */
  lemma ParameterKeys(v: int)
    ensures var d := PromotionParameters(112, 18, 26, 28, 36, 18, 8, 2);
            var byte := if v < 0 then 0 else if v > 255 then 255 else v;
            && ReadParameters(map[]) == d
            && ReadParameters(map["promoToneGate" := v]) == d.(toneGate := byte)
            && ReadParameters(map["promoMedLo" := v]) == d.(medLow := byte)
            && ReadParameters(map["promoMedHi" := v]) == d.(medHigh := byte)
            && ReadParameters(map["promoLrgLo" := v]) == d.(largeLow := byte)
            && ReadParameters(map["promoLrgHi" := v]) == d.(largeHigh := byte)
            && ReadParameters(map["promoFlatVarEps" := v]) == d.(flatEpsilon := byte)
            && ReadParameters(map["promoMinNeiInked" := v]) == d.(minimumInked := byte)
            && ReadParameters(map["promoKickBonus" := v]) == d.(kickBonus := byte)
  {
  }
}
