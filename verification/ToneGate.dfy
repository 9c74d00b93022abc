/** When raising a tone can never turn ink off. */
module ToneGate {
  import opened Arithmetic
  import opened RasterTypes
  import opened PixelScreening

  /** With these floor settings a darker tone keeps all the ink a lighter one gets, whatever the minimum-ink
      threshold, the mask value and the other settings are. */
  ghost predicate KeepsInk(range: Tone, max: Tone) {
    forall c: ScreenChannel, u: Tone, v: Tone, threshold: Tone ::
      c.floorRange == range && c.floorMax == max && u <= v && Inked(c, u, threshold) ==> Inked(c, v, threshold)
  }

  /** The gate is monotone exactly for floors that are trivial or at most one above their range. */
  lemma GateMonotone(range: Tone, max: Tone)
    ensures KeepsInk(range, max) <==> range <= 1 || max <= range + 1
  {
    if range <= 1 || max <= range + 1 {
      forall c: ScreenChannel, u: Tone, v: Tone, threshold: Tone |
        c.floorRange == range && c.floorMax == max && u <= v && Inked(c, u, threshold)
        ensures Inked(c, v, threshold)
      {
        NormalizedMonotone(MinTone(c), u, v);
        LiftedMonotone(range, max, Normalized(MinTone(c), u), Normalized(MinTone(c), v));
      }
    } else {
      var c := ScreenChannel("", 0, 0, 0, range, max, false, false, false);
      HighFloorOvershoots(range, max);
      assert Normalized(0, 1) == 1 && Normalized(0, range) == range;
      assert Inked(c, 1, range) && !Inked(c, range, range);
    }
  }

  lemma NormalizedMonotone(minTone: Tone, u: Tone, v: Tone)
    requires minTone < u <= v
    ensures 1 <= Normalized(minTone, u) <= Normalized(minTone, v) <= 255
  {
    QuotientMonotone((u - minTone) * 255, (v - minTone) * 255, 255 - minTone);
  }

  /** Lift of a tone below the range, without the cap. */
  function Bias(range: Tone, max: Tone, tone: Tone): int
    requires 0 < range
  {
    (range - tone) * max / range
  }

  /** A floor one above its range lifts every tone exactly to the range. */
  lemma BiasOneAbove(range: Tone, tone: Tone)
    requires 1 <= tone < range && range + 1 <= 255
    ensures Bias(range, range + 1, tone) == range - tone
  {
    var n := (range - tone) * (range + 1);
    assert n == (range - tone) * range + (range - tone);
    assert (range - tone + 1) * range == (range - tone) * range + range;
    QuotientIs(n, range, range - tone);
  }

  /** A floor within its range loses at most one step of lift per step of tone. */
  lemma BiasSlope(range: Tone, max: Tone, s: Tone, t: Tone)
    requires s <= t < range && max <= range
    ensures 0 <= Bias(range, max, t) && Bias(range, max, s) <= Bias(range, max, t) + (t - s)
  {
    ProductGrows(0, range - t, max);
    DivisionNonNegative((range - t) * max, range);
    assert range - s == (range - t) + (t - s);
    SlopeAtMostOne(range - t, t - s, max, range);
  }

  lemma SlopeAtMostOne(a: nat, k: nat, max: nat, range: nat)
    requires 0 < range && max <= range
    ensures (a + k) * max / range <= a * max / range + k
  {
    assert (a + k) * max == a * max + k * max;
    ProductGrows(max, range, k);
    QuotientMonotone(a * max + k * max, a * max + k * range, range);
    QuotientShift(a * max, k, range);
  }

  lemma LiftedMonotone(range: Tone, max: Tone, s: Tone, t: Tone)
    requires 1 <= s <= t && (range <= 1 || max <= range + 1)
    ensures Lifted(range, max, s) <= Lifted(range, max, t)
  {
    if 0 < max && s < range {
      LiftedIs(range, max, s);
      if max <= range {
        BiasSlope(range, max, s, if t < range then t else range - 1);
        assert Bias(range, max, range - 1) <= 1 by {
          QuotientMonotone((range - (range - 1)) * max, range, range);
        }
      } else {
        BiasOneAbove(range, s);
      }
      if t < range {
        LiftedIs(range, max, t);
        if max > range {
          BiasOneAbove(range, t);
        }
      }
    }
  }

  lemma LiftedIs(range: Tone, max: Tone, tone: Tone)
    requires 0 < max && tone < range
    ensures Lifted(range, max, tone) == Min(255, tone + Bias(range, max, tone))
  {
  }

  /** A floor two or more above its range lifts the lightest tone above the range itself. */
  lemma HighFloorOvershoots(range: Tone, max: Tone)
    requires 2 <= range && range + 2 <= max
    ensures Lifted(range, max, 1) > range && Lifted(range, max, range) == range
  {
    LiftedIs(range, max, 1);
    HighProduct(range, max);
    DivisionNoSmaller((range - 1) * max, range, range);
  }

  lemma HighProduct(range: nat, max: nat)
    requires 2 <= range && range + 2 <= max
    ensures range * range <= (range - 1) * max
  {
    ProductGrows(range + 2, max, range - 1);
    assert (range - 1) * (range + 2) == range * range + range - 2;
  }

  /** At a fixed tone a higher mask value never gives a smaller size class. */
  lemma SizeGrowsWithMask(c: ScreenChannel, tone: Tone, low: Tone, high: Tone)
    requires low <= high
    ensures SizeClass(c, tone, low) <= SizeClass(c, tone, high)
  {
    ProductGrows(low, high, tone);
    QuotientMonotone(low * tone, high * tone, 255);
  }
}
