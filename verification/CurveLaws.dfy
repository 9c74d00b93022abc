/** What curves, ramps and derived tables do at the points that matter. */
module CurveLaws {
  import opened Arithmetic
  import opened RasterTypes
  import opened ToneStage
  import opened InkSplit
  import opened TransferCurves

  /** The ramp is the cubic 3t^2 - 2t^3 of the way from its first edge to its second; t = 1/4 gives 5/32. */
  lemma RampIsCubic(edge0: real, edge1: real, x: real)
    ensures edge0 < edge1 && edge0 <= x <= edge1 ==>
              var t := (x - edge0) / (edge1 - edge0);
              0.0 <= t <= 1.0 && Smoothstep(edge0, edge1, x) == 3.0 * (t * t) - 2.0 * (t * t * t)
    ensures Smoothstep(0.0, 1.0, 0.25) == 0.15625 && Smoothstep(0.0, 1.0, 0.5) == 0.5
    ensures x < edge0 && edge0 <= edge1 ==> Smoothstep(edge0, edge1, x) == 0.0
    ensures edge1 <= x && edge0 <= edge1 ==> Smoothstep(edge0, edge1, x) == 1.0
  {
    if edge0 <= edge1 {
      RampEnds(edge0, edge1, x);
    }
    if edge0 < edge1 && edge0 <= x <= edge1 {
      RatioBounds(x - edge0, edge1 - edge0);
      var t := (x - edge0) / (edge1 - edge0);
      Cubic(t);
      assert Unit(t) == t;
    }
  }

  lemma Cubic(t: real)
    ensures t * t * (3.0 - 2.0 * t) == 3.0 * (t * t) - 2.0 * (t * t * t)
  {
  }

  /** A ramp whose edges are exchanged runs the other way. */
  lemma RampReverses(edge0: real, edge1: real, x: real)
    requires edge0 != edge1
    ensures Smoothstep(edge1, edge0, x) == 1.0 - Smoothstep(edge0, edge1, x)
  {
    var t, back := (x - edge0) / (edge1 - edge0), (x - edge1) / (edge0 - edge1);
    OtherWay(x - edge0, edge1 - edge0, back);
    CubicReverses(Unit(t));
    assert Unit(back) == 1.0 - Unit(t);
  }

  lemma OtherWay(n: real, d: real, back: real)
    requires d != 0.0 && back == (n - d) / (0.0 - d)
    ensures back == 1.0 - n / d
  {
    var t := n / d;
    assert t * d == n;
    assert back * (0.0 - d) == n - d;
    var gap := back - (1.0 - t);
    assert gap * d == 0.0;
    assert gap == gap * d / d;
  }

  lemma CubicReverses(t: real)
    ensures (1.0 - t) * (1.0 - t) * (3.0 - 2.0 * (1.0 - t)) == 1.0 - t * t * (3.0 - 2.0 * t)
  {
  }

  /** `n` is the whole number nearest to v, halves up. */
  predicate Rounds(n: int, v: real) {
    n as real - 0.5 <= v < n as real + 0.5
  }

  /** The dark ink gets the ramp's share of the tone, to the nearest whole number, and the light ink the rest. */
  lemma SplitShares(v: Tone, p: Split2Params)
    ensures var share := Smoothstep(p.lightStart as real, p.lightEnd as real, v as real);
            Rounds(Split2(v, p).dark, v as real * share)
    ensures Split2(v, p).light == v - Split2(v, p).dark
  {
    Split2Conserves(v, p);
    var share := Smoothstep(p.lightStart as real, p.lightEnd as real, v as real);
    if v == 0 {
      assert v as real * share == 0.0;
    }
  }

  /** With bands in order black starts in the lighter ink, is all in the light ink between the bands, and ends in the
      dark ink. */
  lemma BlackBands(v: Tone, p: Split3Params)
    requires p.t1Start <= p.t1End && p.t2Start <= p.t2End
    ensures v < p.t1Start && v < p.t2Start ==> Split3(v, p) == Triple(v, 0, 0)
    ensures p.t1End <= v < p.t2Start ==> Split3(v, p) == Triple(0, v, 0)
    ensures p.t1End <= v && p.t2End <= v ==> Split3(v, p) == Triple(0, 0, v)
  {
    RampEnds(p.t1Start as real, p.t1End as real, v as real);
    RampEnds(p.t2Start as real, p.t2End as real, v as real);
  }

  /** The outer inks get the first ramp's complement and the second ramp of the tone, to the nearest whole number. */
  lemma BlackShares(v: Tone, p: Split3Params, first: real, second: real)
    requires first == Smoothstep(p.t1Start as real, p.t1End as real, v as real)
    requires second == Smoothstep(p.t2Start as real, p.t2End as real, v as real)
    ensures Rounds(Split3(v, p).lighter, v as real * (1.0 - first)) && Rounds(Split3(v, p).dark, v as real * second)
  {
    OuterShares(v, p, first, second);
    ShareRounds(v, 1.0 - first, Split3(v, p).lighter);
    ShareRounds(v, second, Split3(v, p).dark);
  }

  lemma OuterShares(v: Tone, p: Split3Params, first: real, second: real)
    requires first == Smoothstep(p.t1Start as real, p.t1End as real, v as real)
    requires second == Smoothstep(p.t2Start as real, p.t2End as real, v as real)
    ensures Split3(v, p).lighter == Share(v, 1.0 - first) && Split3(v, p).dark == Share(v, second)
  {
    assert LighterShare(v, p) == Share(v, 1.0 - first) && DarkShare(v, p) == Share(v, second);
  }

  lemma ShareRounds(v: Tone, weight: real, share: int)
    requires 0.0 <= weight <= 1.0 && share == Share(v, weight)
    ensures Rounds(share, v as real * weight)
  {
  }

  /** A transfer curve is level outside its pairs, passes through each of them and is straight in between. */
  lemma CurvePassesThrough(xs: seq<real>, ys: seq<real>, at: nat, x: real)
    requires |xs| == |ys| && at < |xs| && Ascending(xs)
    ensures x <= xs[0] ==> CurveAt(xs, ys, x) == ys[0]
    ensures xs[0] < x && xs[|xs| - 1] <= x ==> CurveAt(xs, ys, x) == ys[|xs| - 1]
    ensures at + 1 < |xs| && xs[at] < x <= xs[at + 1] && xs[0] < x < xs[|xs| - 1] &&
            xs[at + 1] - xs[at] >= 0.000000001 ==>
              (CurveAt(xs, ys, x) - ys[at]) * (xs[at + 1] - xs[at]) == (ys[at + 1] - ys[at]) * (x - xs[at])
  {
    if at + 1 < |xs| && xs[at] < x <= xs[at + 1] && xs[0] < x < xs[|xs| - 1] {
      var found := LowerBound(xs, x, 0);
      assert found == at + 1;
      if xs[at + 1] - xs[at] >= 0.000000001 {
        StraightBetween(xs[at], xs[at + 1], ys[at], ys[at + 1], x);
      }
    }
  }

  lemma StraightBetween(x0: real, x1: real, y0: real, y1: real, x: real)
    requires x1 - x0 >= 0.000000001
    ensures (Between(x0, x1, y0, y1, x) - y0) * (x1 - x0) == (y1 - y0) * (x - x0)
  {
    var t := (x - x0) / (x1 - x0);
    assert t * (x1 - x0) == x - x0;
    Regroup(y1 - y0, t, x1 - x0);
  }

  lemma Regroup(a: real, b: real, c: real)
    ensures a * b * c == a * (b * c)
  {
  }

  /** Table entry i is the curve at i/255, limited to the unit interval and rounded to a byte; a table without usable
      pairs is the identity. */
  lemma EntryRounds(xs: seq<real>, ys: seq<real>, i: Tone)
    ensures xs == [] || |xs| != |ys| ==> TransferLut(xs, ys)[i] == i
    ensures xs != [] && |xs| == |ys| ==>
              var v := CurveAt(xs, ys, i as real / 255.0);
              Rounds(TransferLut(xs, ys)[i], (if v < 0.0 then 0.0 else if v > 1.0 then 1.0 else v) * 255.0)
  {
  }

  /** Entry i of a derived table: up to the start of the fade the parent's entry times the strength, from its end on
      nothing, in between the parent's entry times the strength and what the ramp leaves. */
  lemma DerivedShape(parent: Lut, fadeStart: real, fadeEnd: real, strength: real, i: Tone)
    requires fadeStart < fadeEnd && 0.0 <= strength <= 1.0
    ensures var entry, x := DerivedLut(parent, fadeStart, fadeEnd, strength)[i], i as real / 255.0;
            && (x <= fadeStart ==> Rounds(entry, parent[i] as real * strength))
            && (x <= fadeStart && strength == 1.0 ==> entry == parent[i])
            && (fadeEnd <= x ==> entry == 0)
            && Rounds(entry, parent[i] as real * (1.0 - Smoothstep(fadeStart, fadeEnd, x)) * strength)
  {
    var x := i as real / 255.0;
    var f := 1.0 - Smoothstep(fadeStart, fadeEnd, x);
    RampEnds(fadeStart, fadeEnd, x);
    DerivedIs(parent, fadeStart, fadeEnd, strength, i);
    WeakenedRounds(parent[i], f, strength);
    if x <= fadeStart {
      Once(parent[i] as real, f, strength);
    }
  }

  lemma DerivedIs(parent: Lut, fadeStart: real, fadeEnd: real, strength: real, i: Tone)
    requires 0.0 <= strength <= 1.0
    ensures DerivedLut(parent, fadeStart, fadeEnd, strength)[i] ==
            Weakened(parent[i] as real / 255.0, 1.0 - Smoothstep(fadeStart, fadeEnd, i as real / 255.0), strength)
  {
  }

  lemma Once(a: real, f: real, s: real)
    requires f == 1.0
    ensures a * f * s == a * s
  {
  }

  lemma WeakenedRounds(tone: Tone, f: real, s: real)
    requires 0.0 <= f <= 1.0 && 0.0 <= s <= 1.0
    ensures Rounds(Weakened(tone as real / 255.0, f, s), tone as real * f * s)
    ensures f == 1.0 && s == 1.0 ==> Weakened(tone as real / 255.0, f, s) == tone
    ensures f == 0.0 ==> Weakened(tone as real / 255.0, f, s) == 0
  {
    var a := tone as real / 255.0;
    Shrinks(a, f);
    Shrinks(a * f, s);
    UnitRounds(a * f * s);
    Unscaled(a, f, s);
    assert a * 255.0 == tone as real;
    assert f == 0.0 ==> tone as real * f * s == 0.0;
    assert f == 1.0 && s == 1.0 ==> tone as real * f * s == tone as real;
  }

  lemma UnitRounds(v: real)
    requires 0.0 <= v <= 1.0
    ensures Rounds(Quantized(v), v * 255.0)
  {
  }

  lemma Unscaled(a: real, f: real, s: real)
    ensures a * f * s * 255.0 == a * 255.0 * f * s
  {
  }

  /** With a parent that does not rise, nor does the derived table. */
  lemma DerivedFalls(parent: Lut, fadeStart: real, fadeEnd: real, strength: real, i: Tone, j: Tone)
    requires fadeStart <= fadeEnd && i <= j && parent[j] <= parent[i]
    ensures DerivedLut(parent, fadeStart, fadeEnd, strength)[j] <= DerivedLut(parent, fadeStart, fadeEnd, strength)[i]
  {
    var f, g := 1.0 - Smoothstep(fadeStart, fadeEnd, Normal(i)), 1.0 - Smoothstep(fadeStart, fadeEnd, Normal(j));
    assert Normal(i) <= Normal(j);
    SmoothstepMonotone(fadeStart, fadeEnd, Normal(i), Normal(j));
    WeakenedFalls(Normal(parent[j]), Normal(parent[i]), g, f, Unit(strength));
  }

  lemma WeakenedFalls(a: real, b: real, f: real, g: real, s: real)
    requires 0.0 <= a <= b && 0.0 <= f <= g && 0.0 <= s
    ensures Weakened(a, f, s) <= Weakened(b, g, s)
  {
    ProductMonotone(a, b, f);
    ProductMonotone(f, g, b);
    Commuted(b, f, g);
    ProductMonotone(a * f, b * g, s);
    QuantizedMonotone(a * f * s, b * g * s);
  }

  lemma Commuted(b: real, f: real, g: real)
    requires f * b <= g * b
    ensures b * f <= b * g
  {
  }

  /** The tables of a load. A light ink without a curve of its own repeats its parent in the highlights and is absent
      from the shadows: light cyan and light magenta unweakened up to entry 114 and gone from 204 on, light black at
      95 percent up to 140 and gone from 225 on, lighter black at 85 percent up to 76 and gone from 166 on. */
  lemma LoadedLightInks(entries: seq<Option<CurveEntry>>, i: Tone)
    ensures var t := CombosOf(LoadedLuts(entries));
            && (LastEntry(entries, 0).Some? && LastEntry(entries, 4).None? ==>
                  (i <= 114 ==> t.cLight[i] == t.cDark[i]) && (204 <= i ==> t.cLight[i] == 0))
            && (LastEntry(entries, 1).Some? && LastEntry(entries, 5).None? ==>
                  (i <= 114 ==> t.mLight[i] == t.mDark[i]) && (204 <= i ==> t.mLight[i] == 0))
            && (LastEntry(entries, 3).Some? && LastEntry(entries, 6).None? ==>
                  && (i <= 140 ==> Rounds(t.kLight[i], t.kDark[i] as real * 0.95))
                  && (225 <= i ==> t.kLight[i] == 0))
            && (LastEntry(entries, 3).Some? && LastEntry(entries, 7).None? ==>
                  && (i <= 76 ==> Rounds(t.kLighter[i], t.kDark[i] as real * 0.85))
                  && (166 <= i ==> t.kLighter[i] == 0))
  {
    LoadedTables(entries);
    LoadedDerived(entries);
    ColourHighlights(OwnLut(entries, 0), i);
    ColourHighlights(OwnLut(entries, 1), i);
    BlackHighlights(OwnLut(entries, 3), i);
    LighterHighlights(OwnLut(entries, 3), i);
  }

  lemma ColourHighlights(parent: Lut, i: Tone)
    ensures i <= 114 ==> DerivedLut(parent, 0.45, 0.80, 1.00)[i] == parent[i]
    ensures 204 <= i ==> DerivedLut(parent, 0.45, 0.80, 1.00)[i] == 0
  {
    DerivedShape(parent, 0.45, 0.80, 1.00, i);
  }

  lemma BlackHighlights(parent: Lut, i: Tone)
    ensures i <= 140 ==> Rounds(DerivedLut(parent, 0.55, 0.88, 0.95)[i], parent[i] as real * 0.95)
    ensures 225 <= i ==> DerivedLut(parent, 0.55, 0.88, 0.95)[i] == 0
  {
    DerivedShape(parent, 0.55, 0.88, 0.95, i);
  }

  lemma LighterHighlights(parent: Lut, i: Tone)
    ensures i <= 76 ==> Rounds(DerivedLut(parent, 0.30, 0.65, 0.85)[i], parent[i] as real * 0.85)
    ensures 166 <= i ==> DerivedLut(parent, 0.30, 0.65, 0.85)[i] == 0
  {
    DerivedShape(parent, 0.30, 0.65, 0.85, i);
  }

  lemma LoadedDerived(entries: seq<Option<CurveEntry>>)
    ensures var t := CombosOf(LoadedLuts(entries));
            && (LastEntry(entries, 0).Some? && LastEntry(entries, 4).None? ==>
                  t.cLight == DerivedLut(OwnLut(entries, 0), 0.45, 0.80, 1.00))
            && (LastEntry(entries, 1).Some? && LastEntry(entries, 5).None? ==>
                  t.mLight == DerivedLut(OwnLut(entries, 1), 0.45, 0.80, 1.00))
            && (LastEntry(entries, 3).Some? && LastEntry(entries, 6).None? ==>
                  t.kLight == DerivedLut(OwnLut(entries, 3), 0.55, 0.88, 0.95))
            && (LastEntry(entries, 3).Some? && LastEntry(entries, 7).None? ==>
                  t.kLighter == DerivedLut(OwnLut(entries, 3), 0.30, 0.65, 0.85))
  {
  }

  /** Every other table of a load is the one of the last curve given for its separation, or the identity. The
      separations are numbered C, M, Y, K, light C, light M, light K, lighter K, white, varnish. */
  lemma LoadedTables(entries: seq<Option<CurveEntry>>)
    ensures var t := CombosOf(LoadedLuts(entries));
            && t.cDark == OwnLut(entries, 0) && t.mDark == OwnLut(entries, 1) && t.y == OwnLut(entries, 2)
            && t.kDark == OwnLut(entries, 3) && t.white == OwnLut(entries, 8) && t.varnish == OwnLut(entries, 9)
            && (LastEntry(entries, 4).Some? ==> t.cLight == OwnLut(entries, 4))
            && (LastEntry(entries, 5).Some? ==> t.mLight == OwnLut(entries, 5))
            && (LastEntry(entries, 6).Some? ==> t.kLight == OwnLut(entries, 6))
            && (LastEntry(entries, 7).Some? ==> t.kLighter == OwnLut(entries, 7))
  {
  }

  /** The curve that counts for a separation is the last one given for it, if any is. */
  lemma {:induction false} LastCurveCounts(entries: seq<Option<CurveEntry>>, channel: nat)
    ensures LastEntry(entries, channel).None? <==>
              forall k :: 0 <= k < |entries| ==> entries[k].None? || entries[k].value.channel != channel
    ensures LastEntry(entries, channel).Some? ==>
              exists k :: 0 <= k < |entries| && entries[k] == LastEntry(entries, channel) &&
                entries[k].value.channel == channel &&
                forall l :: k < l < |entries| ==> entries[l].None? || entries[l].value.channel != channel
  {
    if entries != [] {
      var n := |entries| - 1;
      LastCurveCounts(entries[..n], channel);
      assert forall k :: 0 <= k < n ==> entries[..n][k] == entries[k];
      if entries[n].Some? && entries[n].value.channel == channel {
        assert entries[n] == LastEntry(entries, channel);
      }
    }
  }
}
