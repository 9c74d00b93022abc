/** Transfer curves: 256-entry tables from x/y pairs, and the tables of light inks derived from their parents. */
module TransferCurves {
  import opened Arithmetic
  import opened RasterTypes
  import opened InkSplit
  import opened ToneStage

  const CHANNELS: nat := 10
  const C: nat := 0
  const M: nat := 1
  const Y: nat := 2
  const K: nat := 3
  const LC: nat := 4
  const LM: nat := 5
  const LK: nat := 6
  const LLK: nat := 7
  const W: nat := 8
  const V: nat := 9

  predicate Ascending(values: seq<real>) {
    forall i, j :: 0 <= i <= j < |values| ==> values[i] <= values[j]
  }

  /** First position whose x is not below `x`, searching from `from`. */
  function LowerBound(xs: seq<real>, x: real, from: nat): (at: nat)
    requires from <= |xs|
    ensures from <= at <= |xs|
    ensures forall i :: from <= i < at ==> xs[i] < x
    ensures at < |xs| ==> x <= xs[at]
    decreases |xs| - from
  {
    if from == |xs| || x <= xs[from] then from else LowerBound(xs, x, from + 1)
  }

  const TINY: real := 0.000000001

  function Between(x0: real, x1: real, y0: real, y1: real, x: real): real {
    if -TINY < x1 - x0 < TINY then y1 else y0 + (y1 - y0) * ((x - x0) / (x1 - x0))
  }

  /** The polyline through the pairs, held level beyond its ends. */
  function CurveAt(xs: seq<real>, ys: seq<real>, x: real): real
    requires |xs| == |ys| && xs != []
  {
    if x <= xs[0] then ys[0]
    else if xs[|xs| - 1] <= x then ys[|ys| - 1]
    else
      var at := LowerBound(xs, x, 0);
      Between(xs[at - 1], xs[at], ys[at - 1], ys[at], x)
  }

  function Usable(xs: seq<real>, ys: seq<real>): bool {
    xs != [] && |xs| == |ys|
  }

  function Normal(i: Tone): real {
    i as real / 255.0
  }

  /** A unit value as a byte. */
  function Quantized(v: real): Tone {
    RoundedWithin(Unit(v) * 255.0, 255);
    Rounded(Unit(v) * 255.0)
  }

  function TransferEntry(xs: seq<real>, ys: seq<real>, i: Tone): Tone {
    if !Usable(xs, ys) then i else Quantized(CurveAt(xs, ys, Normal(i)))
  }

  function TransferLut(xs: seq<real>, ys: seq<real>): Lut {
    seq(256, i requires 0 <= i < 256 => TransferEntry(xs, ys, i))
  }

  method BuildLutFromTransferPairs(xs: seq<real>, ys: seq<real>) returns (lut: Lut)
    ensures lut == TransferLut(xs, ys)
  {
    var table := new Tone[256](i => if 0 <= i < 256 then i else 0);
    if !Usable(xs, ys) {
      return table[..];
    }
    var i := 0;
    while i < 256
      invariant 0 <= i <= 256
      invariant forall j :: 0 <= j < i ==> table[j] == TransferEntry(xs, ys, j)
    {
      table[i] := TransferEntry(xs, ys, i);
      i := i + 1;
    }
    lut := table[..];
  }

  lemma QuantizedMonotone(v: real, w: real)
    requires v <= w
    ensures Quantized(v) <= Quantized(w)
  {
    RoundedMonotone(Unit(v) * 255.0, Unit(w) * 255.0);
  }

  /** Inside one segment the polyline runs between its two ends, and upwards. */
  lemma SegmentMonotone(x0: real, x1: real, y0: real, y1: real, x: real, x': real)
    requires x0 < x <= x' <= x1 && y0 <= y1
    ensures y0 <= Between(x0, x1, y0, y1, x) <= Between(x0, x1, y0, y1, x') <= y1
  {
    var rise, t, t' := y1 - y0, (x - x0) / (x1 - x0), (x' - x0) / (x1 - x0);
    RatioBounds(x - x0, x1 - x0);
    RatioBounds(x' - x0, x1 - x0);
    RatioMonotone(x - x0, x' - x0, x1 - x0);
    NonNegative(rise, t);
    NonNegative(rise, t' - t);
    NonNegative(rise, 1.0 - t');
    assert rise * (t' - t) == rise * t' - rise * t;
    assert rise * (1.0 - t') == rise - rise * t';
  }

  /** Ascending pairs give an ascending polyline. */
  lemma CurveMonotone(xs: seq<real>, ys: seq<real>, x: real, x': real)
    requires Usable(xs, ys) && Ascending(xs) && Ascending(ys) && x <= x'
    ensures CurveAt(xs, ys, x) <= CurveAt(xs, ys, x')
    ensures ys[0] <= CurveAt(xs, ys, x) <= ys[|ys| - 1]
  {
    var n := |xs|;
    if xs[0] < x < xs[n - 1] {
      var at := LowerBound(xs, x, 0);
      SegmentMonotone(xs[at - 1], xs[at], ys[at - 1], ys[at], x, x);
      if x' < xs[n - 1] {
        var at' := LowerBound(xs, x', 0);
        SegmentMonotone(xs[at' - 1], xs[at'], ys[at' - 1], ys[at'], x', x');
        if at == at' {
          SegmentMonotone(xs[at - 1], xs[at], ys[at - 1], ys[at], x, x');
        } else {
          assert at < at';
        }
      }
    } else if x <= xs[0] < x' < xs[n - 1] {
      var at' := LowerBound(xs, x', 0);
      SegmentMonotone(xs[at' - 1], xs[at'], ys[at' - 1], ys[at'], x', x');
    }
  }

  /** Ascending pairs give an ascending table. */
  lemma LutMonotone(xs: seq<real>, ys: seq<real>, i: Tone, j: Tone)
    requires Ascending(xs) && Ascending(ys) && i <= j
    ensures TransferLut(xs, ys)[i] <= TransferLut(xs, ys)[j]
  {
    if Usable(xs, ys) {
      assert Normal(i) <= Normal(j);
      CurveMonotone(xs, ys, Normal(i), Normal(j));
      QuantizedMonotone(CurveAt(xs, ys, Normal(i)), CurveAt(xs, ys, Normal(j)));
    }
  }

  /** The diagonal is the identity. */
  lemma DiagonalIsIdentity(i: Tone)
    ensures TransferLut([0.0, 1.0], [0.0, 1.0])[i] == i
  {
    var xs, x := [0.0, 1.0], Normal(i);
    if 0.0 < x < 1.0 {
      assert LowerBound(xs, x, 0) == LowerBound(xs, x, 1) == 1;
      assert Between(0.0, 1.0, 0.0, 1.0, x) == x;
    }
    assert CurveAt(xs, xs, x) == x;
    assert Unit(x) * 255.0 == i as real;
  }

  /** A unit value weakened by two factors, as a byte. */
  function Weakened(a: real, f: real, s: real): Tone {
    Quantized(a * f * s)
  }

  function DerivedEntry(parent: Lut, fadeStart: real, fadeEnd: real, strength: real, i: Tone): Tone {
    Weakened(Normal(parent[i]), 1.0 - Smoothstep(fadeStart, fadeEnd, Normal(i)), Unit(strength))
  }

  function DerivedLut(parent: Lut, fadeStart: real, fadeEnd: real, strength: real): Lut {
    seq(256, i requires 0 <= i < 256 => DerivedEntry(parent, fadeStart, fadeEnd, strength, i))
  }

  method DeriveLightInkLut(parent: Lut, fadeStart: real, fadeEnd: real, strength: real) returns (lut: Lut)
    ensures lut == DerivedLut(parent, fadeStart, fadeEnd, strength)
  {
    var table := new Tone[256](_ => 0);
    var i := 0;
    while i < 256
      invariant 0 <= i <= 256
      invariant forall j :: 0 <= j < i ==> table[j] == DerivedEntry(parent, fadeStart, fadeEnd, strength, j)
    {
      table[i] := DerivedEntry(parent, fadeStart, fadeEnd, strength, i);
      i := i + 1;
    }
    lut := table[..];
  }

  predicate AtMost(a: Lut, b: Lut) {
    forall i :: 0 <= i < 256 ==> a[i] <= b[i]
  }

  /** A derived light ink never asks for more than its parent, whatever the fade and the strength are. */
  lemma DerivedAtMostParent(parent: Lut, fadeStart: real, fadeEnd: real, strength: real)
    ensures AtMost(DerivedLut(parent, fadeStart, fadeEnd, strength), parent)
  {
    forall i | 0 <= i < 256
      ensures DerivedLut(parent, fadeStart, fadeEnd, strength)[i] <= parent[i]
    {
      EntryAtMostParent(parent, fadeStart, fadeEnd, strength, i);
    }
  }

  lemma EntryAtMostParent(parent: Lut, fadeStart: real, fadeEnd: real, strength: real, i: Tone)
    ensures DerivedEntry(parent, fadeStart, fadeEnd, strength, i) <= parent[i]
  {
    QuantizedShrinks(parent[i], 1.0 - Smoothstep(fadeStart, fadeEnd, Normal(i)), Unit(strength));
  }

  lemma QuantizedShrinks(tone: Tone, f: real, s: real)
    requires 0.0 <= f <= 1.0 && 0.0 <= s <= 1.0
    ensures Weakened(Normal(tone), f, s) <= tone
  {
    QuantizedBack(tone);
    QuantizedProduct(Normal(tone), f, s);
  }

  lemma QuantizedProduct(a: real, b: real, c: real)
    requires 0.0 <= a && 0.0 <= b <= 1.0 && 0.0 <= c <= 1.0
    ensures Weakened(a, b, c) <= Quantized(a)
  {
    Shrinks(a, b);
    QuantizedBelow(a * b, a, c);
  }

  lemma QuantizedBelow(p: real, a: real, c: real)
    requires 0.0 <= p <= a && 0.0 <= c <= 1.0
    ensures Quantized(p * c) <= Quantized(a)
  {
    Shrinks(p, c);
    QuantizedMonotone(p * c, a);
  }

  lemma QuantizedBack(tone: Tone)
    ensures 0.0 <= Normal(tone) <= 1.0 && Quantized(Normal(tone)) == tone
  {
    assert Unit(Normal(tone)) * 255.0 == tone as real;
  }

  /** A curve read from a file. */
  datatype CurveEntry = CurveEntry(channel: nat, xs: seq<real>, ys: seq<real>)

  /** The tables of the channels, grouped by separation as the tone stages read them. */
  function CombosOf(luts: seq<Lut>): Combos
    requires |luts| == CHANNELS
  {
    Combos(luts[C], luts[LC], luts[M], luts[LM], luts[Y], luts[K], luts[LK], luts[LLK], luts[W], luts[V])
  }

  /** The table of a channel's last curve, or the identity. */
  function OwnLut(entries: seq<Option<CurveEntry>>, c: nat): Lut {
    var own := LastEntry(entries, c);
    if own.Some? then TransferLut(own.value.xs, own.value.ys) else IdentityLut()
  }

  /** What a channel's table is after a load: its own, or for a light ink without a curve the one derived from its
      parent, if that has a curve. */
  function LoadedLut(entries: seq<Option<CurveEntry>>, c: nat): Lut {
    if LC <= c <= LLK && LastEntry(entries, c).None? && LastEntry(entries, ParentOf(c)).Some?
    then DerivedFor(c, OwnLut(entries, ParentOf(c)))
    else OwnLut(entries, c)
  }

  function LoadedLuts(entries: seq<Option<CurveEntry>>): (luts: seq<Lut>)
    ensures |luts| == CHANNELS
  {
    seq(CHANNELS, c requires 0 <= c < CHANNELS => LoadedLut(entries, c))
  }

  /** A light ink without a curve of its own asks for at most what its parent asks for, if that has a curve. */
  lemma LoadedAtMostParent(entries: seq<Option<CurveEntry>>, c: nat)
    requires LC <= c <= LLK && LastEntry(entries, c).None? && LastEntry(entries, ParentOf(c)).Some?
    ensures AtMost(LoadedLuts(entries)[c], LoadedLuts(entries)[ParentOf(c)])
  {
    DerivedAtMostParent(OwnLut(entries, ParentOf(c)), FadeOf(c).from, FadeOf(c).to, FadeOf(c).strength);
  }

  class Linearization {
    var luts: seq<Lut>
    var valid: seq<bool>
    /** The tables as the tone stages read them. */
    var combos: Combos
    var hasExternalCurves: bool

    /** The grouped tables are those of the channels, and identities as long as no curves are loaded. */
    predicate Valid()
      reads this
    {
      && |luts| == |valid| == CHANNELS && combos == CombosOf(luts)
      && (!hasExternalCurves ==> forall c :: 0 <= c < CHANNELS ==> luts[c] == IdentityLut() && !valid[c])
    }

    /** What multi-ink output linearizes with: nothing, unless curves are loaded. */
    function Tables(): Option<Combos>
      reads this
    {
      if hasExternalCurves then Some(combos) else None
    }

    /** What X-33 output linearizes with. */
    function FourColorCurves(): Option<Curves>
      reads this
    {
      if hasExternalCurves then Some(combos.DarkCurves()) else None
    }

    constructor ()
      ensures Valid() && Tables() == None
    {
      luts, valid, hasExternalCurves := seq(CHANNELS, _ => IdentityLut()), seq(CHANNELS, _ => false), false;
      combos := CombosOf(seq(CHANNELS, _ => IdentityLut()));
    }

    method RebuildIdentityLuts()
      modifies this
      ensures Valid() && !hasExternalCurves
    {
      luts, valid, hasExternalCurves := seq(CHANNELS, _ => IdentityLut()), seq(CHANNELS, _ => false), false;
      combos := CombosOf(luts);
    }

    /** A missing light ink is derived from its parent; an explicit one wins. */
    method DeriveOne(light: nat, parent: nat, fadeStart: real, fadeEnd: real, strength: real)
      requires |luts| == |valid| == CHANNELS && parent < LC <= light <= LLK
      modifies this`luts
      ensures |luts| == CHANNELS && forall c :: 0 <= c < CHANNELS && c != light ==> luts[c] == old(luts[c])
      ensures luts[light] == if !valid[light] && valid[parent]
                             then DerivedLut(luts[parent], fadeStart, fadeEnd, strength) else old(luts[light])
    {
      if !valid[light] && valid[parent] {
        var lut := DeriveLightInkLut(luts[parent], fadeStart, fadeEnd, strength);
        luts := luts[light := lut];
      }
    }

    method DeriveMissingLightChannels()
      requires |luts| == |valid| == CHANNELS
      modifies this`luts
      ensures |luts| == CHANNELS
      ensures forall c :: 0 <= c < CHANNELS && (valid[c] || !(LC <= c <= LLK) || !valid[ParentOf(c)]) ==>
                luts[c] == old(luts[c])
      ensures forall c :: LC <= c <= LLK && !valid[c] && valid[ParentOf(c)] ==>
                luts[c] == DerivedFor(c, luts[ParentOf(c)]) && AtMost(luts[c], luts[ParentOf(c)])
    {
      DeriveOne(LC, C, 0.45, 0.80, 1.00);
      DeriveOne(LM, M, 0.45, 0.80, 1.00);
      DeriveOne(LK, K, 0.55, 0.88, 0.95);
      DeriveOne(LLK, K, 0.30, 0.65, 0.85);
      DerivedForAtMost(luts);
    }

    /** Loads curves; an entry that could not be parsed fails the load, and so does a file without curves. Afterwards
        the tone stages read the loaded tables, or, after a failed load, none. */
    method LoadTransferCurves(entries: seq<Option<CurveEntry>>) returns (ok: bool)
      requires forall e :: e in entries && e.Some? ==> e.value.channel < CHANNELS
      modifies this
      ensures Valid() && (ok <==> entries != [] && None !in entries)
      ensures Tables() == if ok then Some(CombosOf(LoadedLuts(entries))) else None
      ensures ok ==> forall c :: 0 <= c < CHANNELS ==> (valid[c] <==> LastEntry(entries, c).Some?)
    {
      RebuildIdentityLuts();
      ok := ReadCurves(entries);
      if !ok || entries == [] {
        RebuildIdentityLuts();
        return false;
      }
      FinishLoad(entries);
    }

    /** Every channel has the table of its last curve so far. */
    ghost predicate Holds(entries: seq<Option<CurveEntry>>)
      reads this
    {
      && |luts| == |valid| == CHANNELS
      && forall c :: 0 <= c < CHANNELS ==>
           (valid[c] <==> LastEntry(entries, c).Some?) && luts[c] == OwnLut(entries, c)
    }

    method ReadCurves(entries: seq<Option<CurveEntry>>) returns (ok: bool)
      requires Valid() && !hasExternalCurves
      requires forall e :: e in entries && e.Some? ==> e.value.channel < CHANNELS
      modifies this`luts, this`valid
      ensures (ok <==> None !in entries) && (ok ==> Holds(entries))
    {
      var n := 0;
      while n < |entries|
        invariant 0 <= n <= |entries| && None !in entries[..n] && Holds(entries[..n])
      {
        assert entries[..n + 1] == entries[..n] + [entries[n]];
        assert entries[n] in entries;
        if entries[n].None? {
          return false;
        }
        var e := entries[n].value;
        var lut := BuildLutFromTransferPairs(e.xs, e.ys);
        luts, valid := luts[e.channel := lut], valid[e.channel := true];
        n := n + 1;
      }
      assert entries[..n] == entries;
      ok := true;
    }

    method FinishLoad(entries: seq<Option<CurveEntry>>)
      requires Holds(entries)
      modifies this
      ensures Valid() && Tables() == Some(CombosOf(LoadedLuts(entries))) && valid == old(valid)
    {
      DeriveMissingLightChannels();
      assert forall c :: 0 <= c < CHANNELS ==> luts[c] == LoadedLut(entries, c);
      assert luts == LoadedLuts(entries);
      combos := CombosOf(luts);
      hasExternalCurves := true;
    }
  }

  function ParentOf(light: nat): (parent: nat)
    ensures parent < LC
  {
    if light == LC then C else if light == LM then M else K
  }

  /** Where a derived light ink is faded out, and how strong it is. */
  datatype Fade = Fade(from: real, to: real, strength: real)

  function FadeOf(light: nat): Fade {
    if light == LC || light == LM then Fade(0.45, 0.80, 1.00)
    else if light == LK then Fade(0.55, 0.88, 0.95)
    else Fade(0.30, 0.65, 0.85)
  }

  function DerivedFor(light: nat, parent: Lut): Lut {
    DerivedLut(parent, FadeOf(light).from, FadeOf(light).to, FadeOf(light).strength)
  }

  lemma DerivedForAtMost(luts: seq<Lut>)
    requires |luts| == CHANNELS
    ensures forall c :: LC <= c <= LLK ==> AtMost(DerivedFor(c, luts[ParentOf(c)]), luts[ParentOf(c)])
  {
    forall c | LC <= c <= LLK
      ensures AtMost(DerivedFor(c, luts[ParentOf(c)]), luts[ParentOf(c)])
    {
      DerivedAtMostParent(luts[ParentOf(c)], FadeOf(c).from, FadeOf(c).to, FadeOf(c).strength);
    }
  }

  /** The last curve given for a channel. */
  function LastEntry(entries: seq<Option<CurveEntry>>, channel: nat): Option<CurveEntry> {
    if entries == [] then None
    else
      var last := entries[|entries| - 1];
      if last.Some? && last.value.channel == channel then last else LastEntry(entries[..|entries| - 1], channel)
  }
}
