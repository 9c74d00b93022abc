/** Splitting a tone between inks of different strength. Weights are real numbers; tones are bytes. */
module InkSplit {
  import opened Arithmetic
  import opened RasterTypes

  function Unit(v: real): (r: real)
    ensures 0.0 <= r <= 1.0
  {
    if v < 0.0 then 0.0 else if v > 1.0 then 1.0 else v
  }

  /** The cubic ramp from edge0 to edge1. Descending edges are allowed. */
  function Smoothstep(edge0: real, edge1: real, x: real): (r: real)
    ensures 0.0 <= r <= 1.0
  {
    if edge0 == edge1 then (if x >= edge1 then 1.0 else 0.0)
    else
      var t := Unit((x - edge0) / (edge1 - edge0));
      CubicInUnit(t);
      t * t * (3.0 - 2.0 * t)
  }

  lemma CubicInUnit(t: real)
    requires 0.0 <= t <= 1.0
    ensures 0.0 <= t * t * (3.0 - 2.0 * t) <= 1.0
  {
    var square, rest := t * t, (1.0 - t) * (1.0 - t);
    NonNegative(t, t);
    NonNegative(1.0 - t, 1.0 - t);
    NonNegative(square, 3.0 - 2.0 * t);
    NonNegative(rest, 1.0 + 2.0 * t);
    assert rest * (1.0 + 2.0 * t) == 1.0 - square * (3.0 - 2.0 * t);
  }

  /** Beyond the end of an ascending ramp the weight is 1, before its start it is 0. */
  lemma RampEnds(edge0: real, edge1: real, x: real)
    requires edge0 <= edge1
    ensures x >= edge1 ==> Smoothstep(edge0, edge1, x) == 1.0
    ensures x <= edge0 && (x < edge0 || edge0 < edge1) ==> Smoothstep(edge0, edge1, x) == 0.0
  {
    if edge0 < edge1 {
      RatioBounds(x - edge0, edge1 - edge0);
    }
  }

  /** Rounds to the nearest integer, halves up: the rounding of a non-negative real. */
  function Rounded(x: real): int {
    (x + 0.5).Floor
  }

  lemma RoundedWithin(x: real, high: int)
    requires 0.0 <= x <= high as real
    ensures 0 <= Rounded(x) <= high
  {
  }

  lemma RoundedMonotone(x: real, y: real)
    requires x <= y
    ensures Rounded(x) <= Rounded(y)
  {
  }

  /** The share of a tone. */
  function Share(v: Tone, weight: real): (r: int)
    requires 0.0 <= weight <= 1.0
    ensures 0 <= r <= v
  {
    ShareWithin(v, weight);
    Rounded(v as real * weight)
  }

  lemma ShareWithin(v: Tone, weight: real)
    requires 0.0 <= weight <= 1.0
    ensures 0 <= Rounded(v as real * weight) <= v
  {
    NonNegative(v as real, weight);
    NonNegative(v as real, 1.0 - weight);
    assert v as real * (1.0 - weight) == v as real - v as real * weight;
    RoundedWithin(v as real * weight, v);
  }

  datatype Split2Params = Split2Params(lightStart: Tone, lightEnd: Tone)

  datatype Pair = Pair(dark: Tone, light: Tone)

  function Split2(v: Tone, p: Split2Params): Pair {
    if v == 0 then Pair(0, 0)
    else
      var dark := Share(v, Smoothstep(p.lightStart as real, p.lightEnd as real, v as real));
      Pair(Clamp(dark, 0, 255), Clamp(v - dark, 0, 255))
  }

  /** The two-way split conserves the tone whatever the parameters are, and gives everything to the light ink
      before an ascending ramp and to the dark ink beyond it. */
  lemma Split2Conserves(v: Tone, p: Split2Params)
    ensures Split2(v, p).dark + Split2(v, p).light == v
    ensures p.lightStart <= p.lightEnd && p.lightEnd <= v ==> Split2(v, p).dark == v
    ensures p.lightStart <= p.lightEnd && v < p.lightStart ==> Split2(v, p).light == v
  {
    if p.lightStart <= p.lightEnd {
      RampEnds(p.lightStart as real, p.lightEnd as real, v as real);
    }
  }

  datatype Split3Params = Split3Params(t1Start: Tone, t1End: Tone, t2Start: Tone, t2End: Tone)

  datatype Triple = Triple(lighter: Tone, light: Tone, dark: Tone)

  function LighterShare(v: Tone, p: Split3Params): (r: int)
    ensures 0 <= r <= v
  {
    Share(v, 1.0 - Smoothstep(p.t1Start as real, p.t1End as real, v as real))
  }

  function DarkShare(v: Tone, p: Split3Params): (r: int)
    ensures 0 <= r <= v
  {
    Share(v, Smoothstep(p.t2Start as real, p.t2End as real, v as real))
  }

  function Split3(v: Tone, p: Split3Params): Triple {
    if v == 0 then Triple(0, 0, 0)
    else
      var lighter, dark := LighterShare(v, p), DarkShare(v, p);
      Triple(Clamp(lighter, 0, 255), Clamp(v - lighter - dark, 0, 255), Clamp(dark, 0, 255))
  }

  function Sum(t: Triple): int {
    t.lighter + t.light + t.dark
  }

  /** The three-way split conserves a tone exactly when its two outer shares do not exceed it; otherwise it
      lays down their excess. */
  lemma Split3Total(v: Tone, p: Split3Params)
    ensures Sum(Split3(v, p)) == Max(v, LighterShare(v, p) + DarkShare(v, p))
    ensures Sum(Split3(v, p)) == v <==> LighterShare(v, p) + DarkShare(v, p) <= v
  {
    if v == 0 {
      assert LighterShare(v, p) == 0 && DarkShare(v, p) == 0;
    }
  }

  /** Two ascending bands of which the first neither starts nor ends after the second. They may overlap, but
      not coincide unless they are a step. */
  predicate BandsInOrder(p: Split3Params) {
    && p.t1Start <= p.t1End <= p.t2End && p.t1Start <= p.t2Start <= p.t2End
    && (p.t1Start < p.t2Start || p.t1End < p.t2End || p.t1Start == p.t1End)
  }

  /** With bands in order every tone is conserved, even where they overlap. */
  lemma Split3Conserves(v: Tone, p: Split3Params)
    requires BandsInOrder(p)
    ensures Sum(Split3(v, p)) == v
  {
    RampEnds(p.t1Start as real, p.t1End as real, v as real);
    RampEnds(p.t2Start as real, p.t2End as real, v as real);
    if p.t1End <= v {
      assert LighterShare(v, p) == 0;
    } else if v <= p.t2Start {
      assert DarkShare(v, p) == 0;
    } else {
      LaterRampLower(p.t1Start as real, p.t1End as real, p.t2Start as real, p.t2End as real, v as real);
      SharesWithin(v, 1.0 - Smoothstep(p.t1Start as real, p.t1End as real, v as real),
                   Smoothstep(p.t2Start as real, p.t2End as real, v as real));
    }
    Split3Total(v, p);
  }

  /** Inside both of two ascending ramps, the one that comes later is lower. */
  lemma LaterRampLower(a: real, b: real, c: real, d: real, x: real)
    requires a <= c < x < b <= d && (a < c || b < d)
    ensures Smoothstep(c, d, x) < Smoothstep(a, b, x)
  {
    var t, u := (x - c) / (d - c), (x - a) / (b - a);
    RatioBounds(x - c, d - c);
    RatioBounds(x - a, b - a);
    assert x - c == t * (d - c) && x - a == u * (b - a);
    if u <= t {
      NonNegative(t - u, d - c);
      NonNegative(c - a, d - x);
      NonNegative(x - c, d - b);
      CrossProduct(a, b, c, d, x);
      assert (x - c) * (b - a) == t * (d - c) * (b - a);
      assert (x - a) * (d - c) == u * (b - a) * (d - c);
      NonNegative((t - u) * (d - c), b - a);
    }
    CubicMonotone(t, u);
  }

  lemma CrossProduct(a: real, b: real, c: real, d: real, x: real)
    requires a <= c < x < b <= d && (a < c || b < d)
    ensures (x - c) * (b - a) < (x - a) * (d - c)
  {
    CrossDifference(a, b, c, d, x);
    OneOfTwo(c - a, d - x, x - c, d - b);
  }

  lemma OneOfTwo(k: real, l: real, m: real, n: real)
    requires 0.0 <= k && 0.0 < l && 0.0 < m && 0.0 <= n && (0.0 < k || 0.0 < n)
    ensures 0.0 < k * l + m * n
  {
    NonNegative(k, l);
    NonNegative(m, n);
    if 0.0 < k {
      Positive(k, l);
    } else {
      Positive(m, n);
    }
  }

  lemma CrossDifference(a: real, b: real, c: real, d: real, x: real)
    ensures (x - a) * (d - c) == (x - c) * (b - a) + ((c - a) * (d - x) + (x - c) * (d - b))
  {
  }

  /** Two rounded shares whose weights stay below 1 together do not exceed the tone. */
  lemma SharesWithin(v: Tone, w: real, z: real)
    requires 0.0 <= w <= 1.0 && 0.0 <= z <= 1.0 && w + z < 1.0
    ensures Share(v, w) + Share(v, z) <= v
  {
    if 0 < v {
      var x, y := PartsBelow(v as real, w, z);
      RoundedSum(x, y, v);
    }
  }

  lemma PartsBelow(a: real, w: real, z: real) returns (x: real, y: real)
    requires 0.0 < a && w + z < 1.0
    ensures x == a * w && y == a * z && x + y < a
  {
    var rest := 1.0 - w - z;
    Positive(a, rest);
    assert a == a * w + a * z + a * rest;
    x, y := a * w, a * z;
  }

  lemma RoundedSum(x: real, y: real, n: int)
    requires x + y < n as real
    ensures Rounded(x) + Rounded(y) <= n
  {
  }

  /** Bands out of order need not conserve it: the whole tone can go to the lightest ink and to the darkest. */
  lemma OverlapDoubles(v: Tone, p: Split3Params)
    requires p.t2Start <= p.t2End <= v < p.t1Start <= p.t1End
    ensures Sum(Split3(v, p)) == 2 * v
  {
    RampEnds(p.t1Start as real, p.t1End as real, v as real);
    RampEnds(p.t2Start as real, p.t2End as real, v as real);
    Split3Total(v, p);
  }

  lemma CubicMonotone(t: real, u: real)
    requires 0.0 <= t <= u <= 1.0
    ensures t * t * (3.0 - 2.0 * t) <= u * u * (3.0 - 2.0 * u)
    ensures t < u ==> t * t * (3.0 - 2.0 * t) < u * u * (3.0 - 2.0 * u)
  {
    if t < u {
      CubicDifference(t, u);
      SlopePositive(u, 1.0 - u, t, 1.0 - t, u - t, u - t);
      Positive(u - t, 3.0 * (u * (1.0 - u)) + 3.0 * (t * (1.0 - t)) + (u - t) * (u - t));
    }
  }

  lemma SlopePositive(k: real, l: real, m: real, n: real, d: real, e: real)
    requires 0.0 <= k && 0.0 <= l && 0.0 <= m && 0.0 <= n && 0.0 < d && 0.0 < e
    ensures 0.0 < 3.0 * (k * l) + 3.0 * (m * n) + d * e
  {
    NonNegative(k, l);
    NonNegative(m, n);
    Positive(d, e);
  }

  lemma CubicDifference(t: real, u: real)
    ensures (u - t) * (3.0 * (u * (1.0 - u)) + 3.0 * (t * (1.0 - t)) + (u - t) * (u - t)) ==
            u * u * (3.0 - 2.0 * u) - t * t * (3.0 - 2.0 * t)
  {
  }

  lemma SmoothstepMonotone(edge0: real, edge1: real, x: real, y: real)
    requires edge0 <= edge1 && x <= y
    ensures Smoothstep(edge0, edge1, x) <= Smoothstep(edge0, edge1, y)
  {
    if edge0 < edge1 {
      RatioMonotone(x - edge0, y - edge0, edge1 - edge0);
      CubicMonotone(Unit((x - edge0) / (edge1 - edge0)), Unit((y - edge0) / (edge1 - edge0)));
    }
  }

  /** With an ascending ramp a darker tone never gets less dark ink. */
  lemma DarkMonotone(v: Tone, w: Tone, p: Split2Params)
    requires v <= w && p.lightStart <= p.lightEnd
    ensures Split2(v, p).dark <= Split2(w, p).dark
  {
    if v > 0 {
      SmoothstepMonotone(p.lightStart as real, p.lightEnd as real, v as real, w as real);
      ShareMonotone(v, w, Smoothstep(p.lightStart as real, p.lightEnd as real, v as real),
                    Smoothstep(p.lightStart as real, p.lightEnd as real, w as real));
    }
  }

  lemma ShareMonotone(v: Tone, w: Tone, a: real, b: real)
    requires v <= w && 0.0 <= a <= b <= 1.0
    ensures Share(v, a) <= Share(w, b)
  {
    NonNegative((w - v) as real, b);
    NonNegative(v as real, b - a);
    assert w as real * b - v as real * a == (w - v) as real * b + v as real * (b - a);
    RoundedMonotone(v as real * a, w as real * b);
  }
}
