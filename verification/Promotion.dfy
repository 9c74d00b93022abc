/** 4x4 neighbourhood promotion, defined pixel by pixel.

    `Settled` is the reference: it says what dot a pixel ends with when the raster is scanned in
    order and every promotion is visible to the pixels that come after it. It mentions no scan
    state, so the full-frame engine and the rolling-row engine can both be proved against it. */
module Promotion {
  import opened Arithmetic
  import opened RasterTypes
  import opened PixelScreening

  datatype PromotionParameters = PromotionParameters(
    toneGate: Tone,
    medLow: Tone,
    medHigh: Tone,
    largeLow: Tone,
    largeHigh: Tone,
    flatEpsilon: Tone,
    minimumInked: Tone,
    kickBonus: Tone)

  function MapInt(values: map<string, int>, key: string, fallback: int): int {
    if key in values then values[key] else fallback
  }

  predicate Flag(values: map<string, int>, key: string) {
    MapInt(values, key, 0) != 0
  }

  function ReadParameters(values: map<string, int>): PromotionParameters {
    PromotionParameters(
      Clamp(MapInt(values, "promoToneGate", 112), 0, 255),
      Clamp(MapInt(values, "promoMedLo", 18), 0, 255),
      Clamp(MapInt(values, "promoMedHi", 26), 0, 255),
      Clamp(MapInt(values, "promoLrgLo", 28), 0, 255),
      Clamp(MapInt(values, "promoLrgHi", 36), 0, 255),
      Clamp(MapInt(values, "promoFlatVarEps", 18), 0, 255),
      Clamp(MapInt(values, "promoMinNeiInked", 8), 0, 255),
      Clamp(MapInt(values, "promoKickBonus", 2), 0, 255))
  }

  /** A 4x4 window is listed row by row, offsets -1..2 in both directions; index 5 is the centre. */
  const CENTER: nat := 5

  function WeightUpTo(dots: seq<Dot>, k: nat): nat
    requires k <= |dots| == 16
  {
    if k == 0 then 0 else WeightUpTo(dots, k - 1) + (if k - 1 == CENTER then 0 else dots[k - 1])
  }

  function InkedUpTo(dots: seq<Dot>, k: nat): nat
    requires k <= |dots| == 16
  {
    if k == 0 then 0
    else InkedUpTo(dots, k - 1) + (if k - 1 == CENTER || dots[k - 1] == 0 then 0 else 1)
  }

  function DeviationUpTo(tones: seq<Tone>, k: nat): nat
    requires k <= |tones| == 16
  {
    if k == 0 then 0
    else DeviationUpTo(tones, k - 1) + (if k - 1 == CENTER then 0 else Distance(tones[k - 1], tones[CENTER]))
  }

  function Interpolate(value: int, low: int, high: int): real {
    if value <= low then 0.0
    else if value >= high then 1.0
    else (value - low) as real / (high - low) as real
  }

  /** The seeded draw of a pixel, in the unit interval. */
  function Draw(x: int, y: int): real {
    (PixelNoise(x, y) % 0x1_0000) as real / 65535.0
  }

  function Probability(weighted: int, low: Tone, high: Tone, tone: Tone): real {
    Interpolate(weighted, low, high) * (tone as real / 255.0)
  }

  /** The draw of pixel (x, y) falls below the promotion probability. */
  predicate Wins(x: int, y: int, weighted: int, low: Tone, high: Tone, tone: Tone) {
    Draw(x, y) < Probability(weighted, low, high, tone)
  }

  /** The decision once the neighbourhood has been surveyed. */
  function Decide(p: PromotionParameters, x: int, y: int, dot: Dot, tone: Tone,
                  weighted: int, inked: int, deviation: nat): (r: Dot)
    ensures r == dot || (1 <= dot <= 2 && r == dot + 1)
  {
    if dot == 0 || dot == 3 || tone < p.toneGate then dot
    else if inked < p.minimumInked || deviation / 15 > p.flatEpsilon then dot
    else if dot == 1 then
      if Wins(x, y, weighted + p.kickBonus, p.medLow, p.medHigh, tone) then 2 else 1
    else
      if Wins(x, y, weighted + p.kickBonus, p.largeLow, p.largeHigh, tone) then 3 else 2
  }

  /** The dot the centre of a window turns into. */
  function Promoted(p: PromotionParameters, x: int, y: int, dots: seq<Dot>, tones: seq<Tone>): (r: Dot)
    requires |dots| == |tones| == 16
    ensures r == dots[CENTER] || (1 <= dots[CENTER] <= 2 && r == dots[CENTER] + 1)
  {
    Decide(p, x, y, dots[CENTER], tones[CENTER],
           WeightUpTo(dots, 16), InkedUpTo(dots, 16), DeviationUpTo(tones, 16))
  }

  /** A raster as a list of rows: dots and classification tones before promotion. */
  datatype Frame = Frame(width: nat, height: nat, dots: seq<seq<Dot>>, tones: seq<seq<Tone>>) {
    predicate Valid() {
      && |dots| == |tones| == height
      && (forall y :: 0 <= y < height ==> |dots[y]| == width)
      && (forall y :: 0 <= y < height ==> |tones[y]| == width)
    }

    /** The scan never visits the first row and column nor the last two of each. */
    predicate Visited(x: int, y: int) {
      1 <= x < width - 2 && 1 <= y < height - 2
    }
  }

  function Window<T>(rows: seq<seq<T>>, x: nat, y: nat): (w: seq<T>)
    requires 1 <= y && y + 2 < |rows| && 1 <= x
    requires forall r :: y - 1 <= r <= y + 2 ==> x + 2 < |rows[r]|
    ensures |w| == 16
  {
    rows[y - 1][x - 1..x + 3] + rows[y][x - 1..x + 3] + rows[y + 1][x - 1..x + 3] + rows[y + 2][x - 1..x + 3]
  }

  /** A window of the five dots the scan has passed and, from (x, y) on, the original dots. */
  function Ahead(f: Frame, x: nat, y: nat, passed: seq<Dot>): (w: seq<Dot>)
    requires f.Valid() && f.Visited(x, y) && |passed| == 5
    ensures |w| == 16 && w[CENTER] == f.dots[y][x]
  {
    passed + f.dots[y][x..x + 3] + f.dots[y + 1][x - 1..x + 3] + f.dots[y + 2][x - 1..x + 3]
  }

  /** The dot pixel (x, y) ends with: its window shows the settled dots of the pixels that precede
      it in raster order and the original dots of the rest. */
  function Settled(f: Frame, p: PromotionParameters, x: nat, y: nat): (d: Dot)
    requires f.Valid() && x < f.width && y < f.height
    ensures d == f.dots[y][x] || (f.Visited(x, y) && 1 <= f.dots[y][x] <= 2 && d == f.dots[y][x] + 1)
    decreases y, x
  {
    if !f.Visited(x, y) then f.dots[y][x]
    else Promoted(p, x, y, MixedWindow(f, p, x, y), Window(f.tones, x, y))
  }

  function MixedWindow(f: Frame, p: PromotionParameters, x: nat, y: nat): (w: seq<Dot>)
    requires f.Valid() && f.Visited(x, y)
    ensures |w| == 16 && w[CENTER] == f.dots[y][x]
    decreases y, x, 0
  {
    Ahead(f, x, y, [Settled(f, p, x - 1, y - 1), Settled(f, p, x, y - 1), Settled(f, p, x + 1, y - 1),
                    Settled(f, p, x + 2, y - 1), Settled(f, p, x - 1, y)])
  }

  function SettledRow(f: Frame, p: PromotionParameters, y: nat): (row: seq<Dot>)
    requires f.Valid() && y < f.height
    ensures |row| == f.width
    ensures forall x :: 0 <= x < f.width ==> row[x] == Settled(f, p, x, y)
  {
    seq(f.width, x requires 0 <= x < f.width => Settled(f, p, x, y))
  }

  /** `goal` is the raster that in-order promotion leaves behind. */
  ghost predicate Settles(f: Frame, p: PromotionParameters, goal: seq<seq<Dot>>) {
    && f.Valid()
    && |goal| == f.height
    && (forall y {:trigger SettledRow(f, p, y)} :: 0 <= y < f.height ==> goal[y] == SettledRow(f, p, y))
    && (forall y :: 0 <= y < f.height ==> |goal[y]| == f.width)
  }

  function SettledFrame(f: Frame, p: PromotionParameters): (goal: seq<seq<Dot>>)
    requires f.Valid()
    ensures Settles(f, p, goal)
  {
    seq(f.height, y requires 0 <= y < f.height => SettledRow(f, p, y))
  }

  /** What the scan sees around (x, y) when it gets there. */
  function ScanWindow(f: Frame, goal: seq<seq<Dot>>, x: nat, y: nat): (w: seq<Dot>)
    requires f.Valid() && f.Visited(x, y)
    requires |goal| == f.height && |goal[y - 1]| == |goal[y]| == f.width
    ensures |w| == 16
  {
    Ahead(f, x, y, goal[y - 1][x - 1..x + 3] + [goal[y][x - 1]])
  }

  /** Outside the visited region nothing moves. */
  lemma GoalBorder(f: Frame, p: PromotionParameters, goal: seq<seq<Dot>>, x: nat, y: nat)
    requires Settles(f, p, goal) && x < f.width && y < f.height && !f.Visited(x, y)
    ensures goal[y][x] == f.dots[y][x]
  {
    assert goal[y] == SettledRow(f, p, y);
  }

  /** Inside it, a settled dot is the promotion of what the scan sees. */
  lemma GoalPixel(f: Frame, p: PromotionParameters, goal: seq<seq<Dot>>, x: nat, y: nat)
    requires Settles(f, p, goal) && x < f.width && y < f.height && f.Visited(x, y)
    ensures goal[y][x] == Promoted(p, x, y, ScanWindow(f, goal, x, y), Window(f.tones, x, y))
  {
    assert goal[y] == SettledRow(f, p, y);
    assert goal[y - 1] == SettledRow(f, p, y - 1);
    MixedIsScan(f, p, goal[y - 1], goal[y], x, y);
  }

  lemma MixedIsScan(f: Frame, p: PromotionParameters, above: seq<Dot>, row: seq<Dot>, x: nat, y: nat)
    requires f.Valid() && f.Visited(x, y)
    requires above == SettledRow(f, p, y - 1) && row == SettledRow(f, p, y)
    ensures MixedWindow(f, p, x, y) == Ahead(f, x, y, above[x - 1..x + 3] + [row[x - 1]])
  {
    Passed(above, row, x);
  }

  lemma Passed(above: seq<Dot>, row: seq<Dot>, x: nat)
    requires 1 <= x && x + 3 <= |above| && x <= |row|
    ensures [above[x - 1], above[x], above[x + 1], above[x + 2], row[x - 1]] == above[x - 1..x + 3] + [row[x - 1]]
  {
  }

  /** Rows the scan does not visit settle as they are. */
  lemma GoalBorderRow(f: Frame, p: PromotionParameters, goal: seq<seq<Dot>>, y: nat)
    requires Settles(f, p, goal) && y < f.height && (y < 1 || f.height - 2 <= y)
    ensures goal[y] == f.dots[y]
  {
    forall x | 0 <= x < f.width
      ensures goal[y][x] == f.dots[y][x]
    {
      GoalBorder(f, p, goal, x, y);
    }
  }

  /** Promotion safety over the whole scan: blank stays blank, large stays large, no dot rises by
      more than one class, none falls, and only visited pixels can change. */
  lemma PromotionSafety(f: Frame, p: PromotionParameters, goal: seq<seq<Dot>>, x: nat, y: nat)
    requires Settles(f, p, goal) && x < f.width && y < f.height
    ensures f.dots[y][x] <= goal[y][x] <= f.dots[y][x] as int + 1
    ensures f.dots[y][x] == 0 ==> goal[y][x] == 0
    ensures goal[y][x] != f.dots[y][x] ==> f.Visited(x, y) && p.toneGate <= f.tones[y][x]
  {
    assert goal[y] == SettledRow(f, p, y);
  }

  lemma InterpolateMonotone(v: int, w: int, low: int, high: int)
    requires v <= w
    ensures 0.0 <= Interpolate(v, low, high) <= Interpolate(w, low, high) <= 1.0
  {
    if low < v < high {
      RatioBounds((v - low) as real, (high - low) as real);
      RatioMonotone((v - low) as real, (Min(w, high) - low) as real, (high - low) as real);
    }
    if low < w < high {
      RatioBounds((w - low) as real, (high - low) as real);
    }
  }

  lemma ProbabilityMonotone(v: int, w: int, low: Tone, high: Tone, tone: Tone)
    requires v <= w
    ensures Probability(v, low, high, tone) <= Probability(w, low, high, tone)
  {
    InterpolateMonotone(v, w, low, high);
    ProductMonotone(Interpolate(v, low, high), Interpolate(w, low, high), tone as real / 255.0);
  }

  ghost predicate Below(a: seq<Dot>, b: seq<Dot>) {
    |a| == |b| && forall i :: 0 <= i < |a| ==> a[i] <= b[i]
  }

  lemma BelowConcat(a: seq<Dot>, b: seq<Dot>, c: seq<Dot>, d: seq<Dot>)
    requires Below(a, b) && Below(c, d)
    ensures Below(a + c, b + d)
  {
  }

  lemma BelowSlice(a: seq<Dot>, b: seq<Dot>, from: nat, to: nat)
    requires Below(a, b) && from <= to <= |a|
    ensures Below(a[from..to], b[from..to])
  {
  }

  lemma {:induction false} SurveyMonotone(dots: seq<Dot>, more: seq<Dot>, k: nat)
    requires |dots| == 16 && Below(dots, more) && k <= 16
    ensures WeightUpTo(dots, k) <= WeightUpTo(more, k) && InkedUpTo(dots, k) <= InkedUpTo(more, k)
  {
    if k > 0 {
      SurveyMonotone(dots, more, k - 1);
    }
  }

  /** More ink in a window never makes for a smaller centre. */
  lemma PromotedMonotone(p: PromotionParameters, x: int, y: int, dots: seq<Dot>, more: seq<Dot>, tones: seq<Tone>)
    requires |dots| == |tones| == 16 && Below(dots, more)
    ensures Promoted(p, x, y, dots, tones) <= Promoted(p, x, y, more, tones)
  {
    if dots[CENTER] == more[CENTER] {
      SurveyMonotone(dots, more, 16);
      var v, w, tone := WeightUpTo(dots, 16) + p.kickBonus, WeightUpTo(more, 16) + p.kickBonus, tones[CENTER];
      ProbabilityMonotone(v, w, p.medLow, p.medHigh, tone);
      ProbabilityMonotone(v, w, p.largeLow, p.largeHigh, tone);
    }
  }

  /** The same raster with dots at least as large. */
  ghost predicate Dominates(g: Frame, f: Frame) {
    && f.Valid() && g.Valid() && f.width == g.width && f.height == g.height && f.tones == g.tones
    && forall y :: 0 <= y < f.height ==> Below(f.dots[y], g.dots[y])
  }

  /** The whole scan is monotone, although every promotion feeds into later ones: more ink before it never
      leaves less ink anywhere after it. */
  lemma {:induction false} ScanMonotone(f: Frame, g: Frame, p: PromotionParameters, goal: seq<seq<Dot>>,
                                        more: seq<seq<Dot>>, x: nat, y: nat)
    requires Dominates(g, f) && Settles(f, p, goal) && Settles(g, p, more) && x < f.width && y < f.height
    ensures goal[y][x] <= more[y][x]
    decreases y, x
  {
    if f.Visited(x, y) {
      var row, row' := goal[y - 1], more[y - 1];
      forall c | x - 1 <= c < x + 3
        ensures row[c] <= row'[c]
      {
        ScanMonotone(f, g, p, goal, more, c, y - 1);
      }
      ScanMonotone(f, g, p, goal, more, x - 1, y);
      GoalPixel(f, p, goal, x, y);
      GoalPixel(g, p, more, x, y);
      WindowsBelow(f, g, goal, more, x, y);
      PromotedMonotone(p, x, y, ScanWindow(f, goal, x, y), ScanWindow(g, more, x, y), Window(f.tones, x, y));
    } else {
      GoalBorder(f, p, goal, x, y);
      GoalBorder(g, p, more, x, y);
      assert Below(f.dots[y], g.dots[y]);
    }
  }

  lemma WindowsBelow(f: Frame, g: Frame, goal: seq<seq<Dot>>, more: seq<seq<Dot>>, x: nat, y: nat)
    requires Dominates(g, f) && f.Visited(x, y) && |goal| == |more| == f.height
    requires |goal[y - 1]| == |goal[y]| == |more[y - 1]| == |more[y]| == f.width
    requires Below(goal[y - 1][x - 1..x + 3], more[y - 1][x - 1..x + 3])
    requires goal[y][x - 1] <= more[y][x - 1]
    ensures Below(ScanWindow(f, goal, x, y), ScanWindow(g, more, x, y))
  {
    var above, above' := goal[y - 1][x - 1..x + 3], more[y - 1][x - 1..x + 3];
    var left, left' := [goal[y][x - 1]], [more[y][x - 1]];
    BelowSlice(f.dots[y], g.dots[y], x, x + 3);
    BelowSlice(f.dots[y + 1], g.dots[y + 1], x - 1, x + 3);
    BelowSlice(f.dots[y + 2], g.dots[y + 2], x - 1, x + 3);
    BelowConcat(above, above', left, left');
    BelowConcat(above + left, above' + left', f.dots[y][x..x + 3], g.dots[y][x..x + 3]);
    BelowConcat(above + left + f.dots[y][x..x + 3], above' + left' + g.dots[y][x..x + 3],
                f.dots[y + 1][x - 1..x + 3], g.dots[y + 1][x - 1..x + 3]);
    BelowConcat(above + left + f.dots[y][x..x + 3] + f.dots[y + 1][x - 1..x + 3],
                above' + left' + g.dots[y][x..x + 3] + g.dots[y + 1][x - 1..x + 3],
                f.dots[y + 2][x - 1..x + 3], g.dots[y + 2][x - 1..x + 3]);
  }
}
