/** The full-frame screening engine: whole planes in memory, in-place promotion, then packing. */
module ScreenEngine {
  import opened Arithmetic
  import opened RasterTypes
  import opened PixelScreening
  import opened Promotion
  import opened Cancellation
  import opened Packing
  import opened ScreenSpec

  datatype DotStrategy = DotStrategy(
    minInkThreshold: int,
    smallDotThreshold: int,
    medDotThreshold: int,
    enablePromotion: bool,
    floorRangeCMY: Tone,
    floorMaxCMY: Tone,
    floorRangeK: Tone,
    floorMaxK: Tone,
    enableDotSwap: bool)

  datatype ChannelRequest = ChannelRequest(
    maskKey: string,
    toneBytes: Option<seq<Tone>>,
    isLightInk: bool,
    useOwnDotStrategy: bool,
    ownSmallDotThreshold: int,
    ownMedDotThreshold: int,
    ownEnablePromotion: bool,
    useEffectiveTone: bool,
    floorClass: int)

  datatype ScreenRequest = ScreenRequest(
    width: int,
    height: int,
    screenSeed: bv32,
    modeParams: map<string, int>,
    dotStrategy: DotStrategy,
    channels: seq<ChannelRequest>)

  predicate InferredKLike(maskKey: string) {
    maskKey == "k" || maskKey == "lk" || maskKey == "llk" || maskKey == "w" || maskKey == "v"
  }

  /** The settings the full-frame engine ends up using for one of its channels. */
  function Resolve(req: ScreenRequest, ch: ChannelRequest): ScreenChannel {
    var isKLike := if ch.floorClass < 0 then InferredKLike(ch.maskKey) else ch.floorClass > 0;
    var s := req.dotStrategy;
    var own := ch.useOwnDotStrategy;
    ScreenChannel(
      ch.maskKey,
      if Flag(req.modeParams, "useLightInkMinThresholdOverride") && ch.isLightInk
      then Clamp(MapInt(req.modeParams, "lightInkMinThreshold", 2), 0, 254)
      else s.minInkThreshold,
      if own then ch.ownSmallDotThreshold else s.smallDotThreshold,
      if own then ch.ownMedDotThreshold else s.medDotThreshold,
      if isKLike then s.floorRangeK else s.floorRangeCMY,
      if isKLike then s.floorMaxK else s.floorMaxCMY,
      s.enableDotSwap,
      if own then ch.ownEnablePromotion else s.enablePromotion,
      ch.useEffectiveTone)
  }

  lemma IndexSplits(x: nat, y: nat, width: nat)
    requires x < width
    ensures (y * width + x) % width == x && (y * width + x) / width == y
  {
    var n := y * width + x;
    if n % width != x || n / width != y {
      CellInjective(x, y, n % width, n / width, width);
    }
  }

  /** Counts inked neighbours and sums their dot classes. */
  method SurveyDots(dotMap: array2<Dot>, x: nat, y: nat, ghost window: seq<Dot>)
    returns (weighted: nat, inked: nat)
    requires 1 <= y && y + 2 < dotMap.Length0 && 1 <= x && x + 2 < dotMap.Length1
    requires |window| == 16
    requires forall r, c :: y - 1 <= r <= y + 2 && x - 1 <= c <= x + 2 ==>
              dotMap[r, c] == window[(r - y + 1) * 4 + c - x + 1]
    ensures weighted == WeightUpTo(window, 16) && inked == InkedUpTo(window, 16)
  {
    weighted, inked := 0, 0;
    var dy := -1;
    while dy <= 2
      invariant -1 <= dy <= 3
      invariant weighted == WeightUpTo(window, (dy + 1) * 4) && inked == InkedUpTo(window, (dy + 1) * 4)
    {
      var dx := -1;
      while dx <= 2
        invariant -1 <= dx <= 3
        invariant weighted == WeightUpTo(window, (dy + 1) * 4 + dx + 1)
        invariant inked == InkedUpTo(window, (dy + 1) * 4 + dx + 1)
      {
        if !(dx == 0 && dy == 0) {
          var neighbour := dotMap[y + dy, x + dx];
          if neighbour > 0 {
            inked := inked + 1;
          }
          weighted := weighted + neighbour;
        }
        dx := dx + 1;
      }
      dy := dy + 1;
    }
  }

  /** Mean absolute tone deviation of the window; cells outside the raster are skipped. */
  method LocalDeviation(tone: seq<Tone>, width: nat, height: nat, x: nat, y: nat, ghost window: seq<Tone>)
    returns (mean: nat)
    requires |tone| == height * width
    requires 1 <= y && y + 2 < height && 1 <= x && x + 2 < width
    requires |window| == 16
    requires forall r, c :: y - 1 <= r <= y + 2 && x - 1 <= c <= x + 2 ==>
               At(tone, width, height, c, r) == window[(r - y + 1) * 4 + c - x + 1]
    ensures mean == DeviationUpTo(window, 16) / 15
  {
    var sum, count := 0, 0;
    var center := At(tone, width, height, x, y);
    var dy := -1;
    while dy <= 2
      invariant -1 <= dy <= 3
      invariant sum == DeviationUpTo(window, (dy + 1) * 4)
      invariant count == (dy + 1) * 4 - (if dy > 0 then 1 else 0)
    {
      var cy := y + dy;
      if 0 <= cy < height {
        var dx := -1;
        while dx <= 2
          invariant -1 <= dx <= 3
          invariant sum == DeviationUpTo(window, (dy + 1) * 4 + dx + 1)
          invariant count == (dy + 1) * 4 + dx + 1 - (if dy > 0 || (dy == 0 && dx > 0) then 1 else 0)
        {
          var cx := x + dx;
          if 0 <= cx < width && !(dx == 0 && dy == 0) {
            sum := sum + Distance(At(tone, width, height, cx, cy), center);
            count := count + 1;
          }
          dx := dx + 1;
        }
      }
      dy := dy + 1;
    }
    mean := 0;
    if count != 0 {
      mean := sum / count;
    }
  }

  /** Where the scan has got to: pixels before (x, y) in raster order hold their settled dot. */
  ghost predicate Scanned(dotMap: array2<Dot>, f: Frame, goal: seq<seq<Dot>>, x: int, y: int)
    requires f.Valid() && |goal| == f.height && (forall r :: 0 <= r < f.height ==> |goal[r]| == f.width)
    requires dotMap.Length0 == f.height && dotMap.Length1 == f.width
    reads dotMap
  {
    forall r, c :: 0 <= r < f.height && 0 <= c < f.width ==>
      dotMap[r, c] == if r < y || (r == y && c < x) then goal[r][c] else f.dots[r][c]
  }

  ghost predicate HoldsTones(tone: seq<Tone>, f: Frame)
    requires f.Valid()
  {
    && |tone| == f.height * f.width
    && forall r, c :: 0 <= r < f.height && 0 <= c < f.width ==> At(tone, f.width, f.height, c, r) == f.tones[r][c]
  }

  /** Promotes dots in place, in raster order; later pixels see earlier promotions. */
  method Apply4x4Promotion(dotMap: array2<Dot>, tone: seq<Tone>, width: nat, height: nat,
                           modeParams: map<string, int>, ghost f: Frame, ghost goal: seq<seq<Dot>>)
    requires Settles(f, ReadParameters(modeParams), goal)
    requires f.width == width == dotMap.Length1 && f.height == height == dotMap.Length0
    requires HoldsTones(tone, f)
    requires Scanned(dotMap, f, goal, 0, 0)
    modifies dotMap
    ensures Scanned(dotMap, f, goal, 0, height)
  {
    var p := ReadParameters(modeParams);
    var y := 1;
    BorderRow(dotMap, f, p, goal, 0);
    while y < height - 2
      invariant 1 <= y && (y <= height - 2 || y == 1)
      invariant Scanned(dotMap, f, goal, 0, y)
    {
      if 0 < width {
        GoalBorder(f, p, goal, 0, y);
      }
      var x := 1;
      while x < width - 2
        invariant 1 <= x && (x <= width - 2 || x == 1)
        invariant Scanned(dotMap, f, goal, x, y)
      {
        PromotePixel(dotMap, tone, width, height, x, y, p, f, goal);
        x := x + 1;
      }
      BorderTail(dotMap, f, p, goal, x, y);
      y := y + 1;
    }
    BorderRows(dotMap, f, p, goal, y);
  }

  lemma BorderRow(dotMap: array2<Dot>, f: Frame, p: PromotionParameters, goal: seq<seq<Dot>>, y: nat)
    requires Settles(f, p, goal) && dotMap.Length0 == f.height && dotMap.Length1 == f.width
    requires Scanned(dotMap, f, goal, 0, y) && (y < 1 || f.height - 2 <= y)
    ensures Scanned(dotMap, f, goal, 0, y + 1)
  {
    if y < f.height {
      GoalBorderRow(f, p, goal, y);
    }
  }

  lemma BorderRows(dotMap: array2<Dot>, f: Frame, p: PromotionParameters, goal: seq<seq<Dot>>, y: nat)
    requires Settles(f, p, goal) && dotMap.Length0 == f.height && dotMap.Length1 == f.width
    requires Scanned(dotMap, f, goal, 0, y) && f.height - 2 <= y
    ensures Scanned(dotMap, f, goal, 0, f.height)
    decreases f.height - y
  {
    if y < f.height {
      BorderRow(dotMap, f, p, goal, y);
      BorderRows(dotMap, f, p, goal, y + 1);
    }
  }

  lemma BorderTail(dotMap: array2<Dot>, f: Frame, p: PromotionParameters, goal: seq<seq<Dot>>, x: nat, y: nat)
    requires Settles(f, p, goal) && dotMap.Length0 == f.height && dotMap.Length1 == f.width
    requires Scanned(dotMap, f, goal, x, y) && y < f.height && f.width - 2 <= x
    ensures Scanned(dotMap, f, goal, 0, y + 1)
  {
    forall c | x <= c < f.width
      ensures goal[y][c] == f.dots[y][c]
    {
      GoalBorder(f, p, goal, c, y);
    }
  }

  /** The scan window lists exactly what the map shows around (x, y) when the scan gets there. */
  lemma WindowShown(dotMap: array2<Dot>, f: Frame, goal: seq<seq<Dot>>, x: nat, y: nat)
    requires f.Valid() && |goal| == f.height && (forall r :: 0 <= r < f.height ==> |goal[r]| == f.width)
    requires dotMap.Length0 == f.height && dotMap.Length1 == f.width
    requires f.Visited(x, y) && Scanned(dotMap, f, goal, x, y)
    ensures forall r, c :: y - 1 <= r <= y + 2 && x - 1 <= c <= x + 2 ==>
              dotMap[r, c] == ScanWindow(f, goal, x, y)[(r - y + 1) * 4 + c - x + 1]
  {
    var w := ScanWindow(f, goal, x, y);
    assert w[0..4] == goal[y - 1][x - 1..x + 3];
    assert w[4] == goal[y][x - 1];
    assert w[5..8] == f.dots[y][x..x + 3];
    assert w[8..12] == f.dots[y + 1][x - 1..x + 3];
    assert w[12..16] == f.dots[y + 2][x - 1..x + 3];
  }

  lemma TonesShown(tone: seq<Tone>, f: Frame, x: nat, y: nat)
    requires f.Valid() && HoldsTones(tone, f) && f.Visited(x, y)
    ensures forall r, c :: y - 1 <= r <= y + 2 && x - 1 <= c <= x + 2 ==>
              At(tone, f.width, f.height, c, r) == Window(f.tones, x, y)[(r - y + 1) * 4 + c - x + 1]
  {
  }

  method PromotePixel(dotMap: array2<Dot>, tone: seq<Tone>, width: nat, height: nat, x: nat, y: nat,
                      p: PromotionParameters, ghost f: Frame, ghost goal: seq<seq<Dot>>)
    requires Settles(f, p, goal)
    requires f.width == width == dotMap.Length1 && f.height == height == dotMap.Length0
    requires HoldsTones(tone, f) && f.Visited(x, y)
    requires Scanned(dotMap, f, goal, x, y)
    modifies dotMap
    ensures Scanned(dotMap, f, goal, x + 1, y)
  {
    ghost var dots := ScanWindow(f, goal, x, y);
    ghost var tones := Window(f.tones, x, y);
    GoalPixel(f, p, goal, x, y);
    var dot := dotMap[y, x];
    if dot == 0 || dot == 3 {
      return;
    }
    var v := At(tone, width, height, x, y);
    if v < p.toneGate {
      return;
    }
    WindowShown(dotMap, f, goal, x, y);
    var weighted, countAny := SurveyDots(dotMap, x, y, dots);
    if countAny < p.minimumInked {
      return;
    }
    TonesShown(tone, f, x, y);
    var deviation := LocalDeviation(tone, width, height, x, y, tones);
    if deviation > p.flatEpsilon {
      return;
    }
    weighted := weighted + p.kickBonus;
    if dot == 1 {
      if Wins(x, y, weighted, p.medLow, p.medHigh, v) {
        dotMap[y, x] := 2;
      }
    } else if dot == 2 {
      if Wins(x, y, weighted, p.largeLow, p.largeHigh, v) {
        dotMap[y, x] := 3;
      }
    }
  }

  /** What the three work planes hold for the pixel at `idx`. */
  ghost predicate Gated(c: ScreenChannel, mask: Mask, offset: MaskOffset, u: Tone, x: nat, y: nat,
                        dithered: Tone, classMask: Tone, effTone: Tone)
    requires mask.Valid()
  {
    var threshold := Threshold(mask, offset, x, y);
    && dithered == (if Inked(c, u, threshold) then 255 else 0)
    && effTone == ClassTone(c, u)
    && (MinTone(c) < u ==> classMask == threshold)
  }

  ghost predicate PlanesGated(c: ScreenChannel, mask: Mask, offset: MaskOffset, bytes: seq<Tone>, width: nat,
                              dithered: seq<Tone>, classMask: seq<Tone>, effTone: seq<Tone>, count: nat)
    requires mask.Valid() && 0 < width
  {
    && count <= |bytes| == |dithered| == |classMask| == |effTone|
    && forall i :: 0 <= i < count ==>
         Gated(c, mask, offset, bytes[i], i % width, i / width, dithered[i], classMask[i], effTone[i])
  }

  /** Mask lookup of the full-frame engine: wraps only when the shifted coordinate runs over. */
  function SampleMask(mask: Mask, offset: MaskOffset, x: nat, y: nat): (t: Tone)
    requires mask.Valid() && offset.x < mask.width && offset.y < mask.height
    ensures t == Threshold(mask, offset, x, y)
  {
    var mx := if x + offset.x >= mask.width then (x + offset.x) % mask.width else x + offset.x;
    var my := if y + offset.y >= mask.height then (y + offset.y) % mask.height else y + offset.y;
    SmallModulo(x + offset.x, mask.width);
    SmallModulo(y + offset.y, mask.height);
    At(mask.bytes, mask.width, mask.height, mx, my)
  }

  method GateChannel(c: ScreenChannel, mask: Mask, offset: MaskOffset, bytes: seq<Tone>,
                     width: nat, height: nat, cancel: CancelFlag)
    returns (ok: bool, dithered: array<Tone>, classMask: array<Tone>, effTone: array<Tone>)
    requires mask.Valid() && offset.x < mask.width && offset.y < mask.height
    requires 0 < width && |bytes| == height * width
    modifies cancel`raises
    ensures old(cancel.raises) <= cancel.raises
    ensures fresh(dithered) && fresh(classMask) && fresh(effTone)
    ensures !ok ==> cancel.Raised()
    ensures ok ==> PlanesGated(c, mask, offset, bytes, width, dithered[..], classMask[..], effTone[..], |bytes|)
  {
    var pixelCount := |bytes|;
    dithered := new Tone[pixelCount](_ => 0);
    classMask := new Tone[pixelCount](_ => 0);
    effTone := new Tone[pixelCount](_ => 0);
    var y := 0;
    while y < height
      invariant 0 <= y <= height
      invariant old(cancel.raises) <= cancel.raises
      invariant 0 <= y * width <= pixelCount
      invariant PlanesGated(c, mask, offset, bytes, width, dithered[..], classMask[..], effTone[..], y * width)
    {
      var canceled := cancel.Poll();
      if canceled {
        return false, dithered, classMask, effTone;
      }
      CellInPlane(width - 1, y, width, height);
      GateRow(c, mask, offset, bytes, width, height, y, dithered, classMask, effTone);
      assert (y + 1) * width == y * width + width;
      y := y + 1;
    }
    ok := true;
  }

  method GateRow(c: ScreenChannel, mask: Mask, offset: MaskOffset, bytes: seq<Tone>,
                 width: nat, height: nat, y: nat, dithered: array<Tone>, classMask: array<Tone>, effTone: array<Tone>)
    requires mask.Valid() && offset.x < mask.width && offset.y < mask.height
    requires 0 < width && y < height && |bytes| == height * width
    requires dithered != classMask && dithered != effTone && classMask != effTone
    requires 0 <= y * width && y * width + width <= |bytes|
    requires PlanesGated(c, mask, offset, bytes, width, dithered[..], classMask[..], effTone[..], y * width)
    modifies dithered, classMask, effTone
    ensures PlanesGated(c, mask, offset, bytes, width, dithered[..], classMask[..], effTone[..], y * width + width)
  {
    var rowBase := y * width;
    var x := 0;
    while x < width
      invariant 0 <= x <= width
      invariant PlanesGated(c, mask, offset, bytes, width, dithered[..], classMask[..], effTone[..], rowBase + x)
    {
      IndexSplits(x, y, width);
      GatePixel(c, mask, offset, bytes, width, x, y, rowBase + x, dithered, classMask, effTone);
      x := x + 1;
    }
  }

  method GatePixel(c: ScreenChannel, mask: Mask, offset: MaskOffset, bytes: seq<Tone>,
                   width: nat, x: nat, y: nat, idx: nat,
                   dithered: array<Tone>, classMask: array<Tone>, effTone: array<Tone>)
    requires mask.Valid() && offset.x < mask.width && offset.y < mask.height
    requires 0 < width && idx < |bytes| && idx % width == x && idx / width == y
    requires dithered != classMask && dithered != effTone && classMask != effTone
    requires PlanesGated(c, mask, offset, bytes, width, dithered[..], classMask[..], effTone[..], idx)
    modifies dithered, classMask, effTone
    ensures PlanesGated(c, mask, offset, bytes, width, dithered[..], classMask[..], effTone[..], idx + 1)
  {
    var u := bytes[idx];
    var minTone := MinTone(c);
    if u <= minTone {
      dithered[idx] := 0;
      effTone[idx] := 0;
      classMask[idx] := 255;
      return;
    }
    var uEff := LiftTone(c, minTone, u);
    var t := SampleMask(mask, offset, x, y);
    dithered[idx] := if uEff > t then 255 else 0;
    classMask[idx] := t;
    effTone[idx] := if c.useEffectiveTone then uEff else u;
  }

  /** Assigns a dot class to every dithered pixel. */
  method DotClassification(c: ScreenChannel, dithered: seq<Tone>, mask: seq<Tone>, channel: seq<Tone>,
                           width: nat, height: nat)
    returns (dotMap: array2<Dot>)
    requires |dithered| == |mask| == |channel| == height * width
    ensures fresh(dotMap) && dotMap.Length0 == height && dotMap.Length1 == width
    ensures forall y, x :: 0 <= y < height && 0 <= x < width ==>
              dotMap[y, x] == ClassifiedCell(c, dithered, mask, channel, width, height, x, y)
  {
    dotMap := new Dot[height, width]((_, _) => 0);
    var y := 0;
    while y < height
      invariant 0 <= y <= height
      invariant forall r, x :: 0 <= r < y && 0 <= x < width ==>
                  dotMap[r, x] == ClassifiedCell(c, dithered, mask, channel, width, height, x, r)
      invariant forall r, x :: y <= r < height && 0 <= x < width ==> dotMap[r, x] == 0
    {
      var x := 0;
      while x < width
        invariant 0 <= x <= width
        invariant forall r, x' :: 0 <= r < y && 0 <= x' < width ==>
                    dotMap[r, x'] == ClassifiedCell(c, dithered, mask, channel, width, height, x', r)
        invariant forall x' :: 0 <= x' < x ==>
                    dotMap[y, x'] == ClassifiedCell(c, dithered, mask, channel, width, height, x', y)
        invariant forall x' :: x <= x' < width ==> dotMap[y, x'] == 0
        invariant forall r, x' :: y < r < height && 0 <= x' < width ==> dotMap[r, x'] == 0
      {
        CellInPlane(x, y, width, height);
        var idx := y * width + x;
        if dithered[idx] != 0 {
          var v := channel[idx];
          dotMap[y, x] := SizeClass(c, v, mask[idx]);
          if c.enableDotSwap {
            if v < SWAP_LOW {
              dotMap[y, x] := 4 - dotMap[y, x];
            } else if v < SWAP_HIGH {
              var probability := (SWAP_HIGH - v) * 255 / (SWAP_HIGH - SWAP_LOW);
              if PixelNoise(x, y) % 256 < probability {
                dotMap[y, x] := 4 - dotMap[y, x];
              }
            }
          }
        }
        x := x + 1;
      }
      y := y + 1;
    }
  }

  ghost function ClassifiedCell(c: ScreenChannel, dithered: seq<Tone>, mask: seq<Tone>, channel: seq<Tone>,
                                width: nat, height: nat, x: nat, y: nat): Dot
    requires |dithered| == |mask| == |channel| == height * width && x < width && y < height
  {
    if At(dithered, width, height, x, y) == 0 then 0
    else Classified(c, At(channel, width, height, x, y), At(mask, width, height, x, y), x, y)
  }

  /** Gating and classification together give the channel's raster before promotion. */
  lemma GatedCell(c: ScreenChannel, m: Mask, offset: MaskOffset, bytes: seq<Tone>, width: nat, height: nat,
                  dithered: seq<Tone>, mask: seq<Tone>, effTone: seq<Tone>, x: nat, y: nat)
    requires m.Valid() && x < width && y < height && |bytes| == height * width
    requires PlanesGated(c, m, offset, bytes, width, dithered, mask, effTone, |bytes|)
    ensures ClassifiedCell(c, dithered, mask, effTone, width, height, x, y) ==
            ChannelFrame(c, m, offset, bytes, width, height).dots[y][x]
    ensures At(effTone, width, height, x, y) == ChannelFrame(c, m, offset, bytes, width, height).tones[y][x]
  {
    CellInPlane(x, y, width, height);
    IndexSplits(x, y, width);
    var u := At(bytes, width, height, x, y);
    assert Gated(c, m, offset, u, x, y, At(dithered, width, height, x, y), At(mask, width, height, x, y),
                 At(effTone, width, height, x, y));
    assert ChannelFrame(c, m, offset, bytes, width, height).dots[y][x] == RawDot(c, m, offset, u, x, y);
  }

  method PackTo2Bpp(dotMap: array2<Dot>, ghost rows: seq<seq<Dot>>) returns (lines: seq<seq<Byte>>)
    requires |rows| == dotMap.Length0 && forall y :: 0 <= y < |rows| ==> |rows[y]| == dotMap.Length1
    requires forall y, x :: 0 <= y < dotMap.Length0 && 0 <= x < dotMap.Length1 ==> dotMap[y, x] == rows[y][x]
    ensures lines == PackRows(rows)
  {
    lines := [];
    var y := 0;
    while y < dotMap.Length0
      invariant 0 <= y <= dotMap.Length0 && |lines| == y
      invariant forall r :: 0 <= r < y ==> lines[r] == PackedLine(rows[r])
    {
      var row := seq(dotMap.Length1, x requires 0 <= x < dotMap.Length1 reads dotMap => dotMap[y, x]);
      assert row == rows[y];
      var line := PackAccumulating(row);
      lines := lines + [line];
      y := y + 1;
    }
  }

  /** One channel, from its tone plane to its packed lines. */
  method ScreenOne(c: ScreenChannel, mask: Mask, channel: int, seed: bv32, modeParams: map<string, int>,
                   bytes: seq<Tone>, width: nat, height: nat, cancel: CancelFlag)
    returns (ok: bool, lines: seq<seq<Byte>>)
    requires mask.Valid() && 0 < width && |bytes| == height * width
    modifies cancel`raises
    ensures old(cancel.raises) <= cancel.raises
    ensures !ok ==> cancel.Raised()
    ensures ok ==> lines == ScreenedLines(c, mask, channel, seed, ReadParameters(modeParams), bytes, width, height)
  {
    lines := [];
    var offset := OffsetFor(mask, channel, seed);
    ghost var f := ChannelFrame(c, mask, offset, bytes, width, height);
    var dithered, classMask, effTone;
    ok, dithered, classMask, effTone := GateChannel(c, mask, offset, bytes, width, height, cancel);
    if !ok {
      return;
    }
    forall y, x | 0 <= y < height && 0 <= x < width
      ensures ClassifiedCell(c, dithered[..], classMask[..], effTone[..], width, height, x, y) == f.dots[y][x]
      ensures At(effTone[..], width, height, x, y) == f.tones[y][x]
    {
      GatedCell(c, mask, offset, bytes, width, height, dithered[..], classMask[..], effTone[..], x, y);
    }
    var dotMap := DotClassification(c, dithered[..], classMask[..], effTone[..], width, height);
    ghost var goal := SettledFrame(f, ReadParameters(modeParams));
    if c.enablePromotion {
      Apply4x4Promotion(dotMap, effTone[..], width, height, modeParams, f, goal);
    }
    lines := PackTo2Bpp(dotMap, FinalRaster(c, ReadParameters(modeParams), f));
  }

  /** The requests the full-frame engine accepts, given the masks that can be loaded. */
  predicate Accepted(req: ScreenRequest, masks: map<string, Mask>, ch: ChannelRequest) {
    && 0 < req.width && 0 < req.height
    && ch.toneBytes.Some? && |ch.toneBytes.value| == req.height * req.width
    && ch.maskKey in masks && masks[ch.maskKey].Valid()
  }

  /** The lines are what channel i of the request screens to. */
  ghost predicate Screened(req: ScreenRequest, masks: map<string, Mask>, i: nat, lines: seq<seq<Byte>>)
    requires i < |req.channels|
  {
    && Accepted(req, masks, req.channels[i])
    && lines == ScreenedLines(Resolve(req, req.channels[i]), masks[req.channels[i].maskKey], i, req.screenSeed,
                              ReadParameters(req.modeParams), req.channels[i].toneBytes.value, req.width, req.height)
  }

  /** Screens every channel of a request. The mask loaded last is reused while the key repeats.
      An empty first key would match the empty cache before any mask is loaded. */
  method ScreenChannels(req: ScreenRequest, masks: map<string, Mask>, cancel: CancelFlag)
    returns (ok: bool, allPacked: seq<seq<seq<Byte>>>)
    requires req.channels != [] ==> req.channels[0].maskKey != ""
    modifies cancel`raises
    ensures old(cancel.raises) <= cancel.raises
    ensures ok ==> req.channels != [] && |allPacked| == |req.channels|
    ensures ok ==> forall i :: 0 <= i < |req.channels| ==> Screened(req, masks, i, allPacked[i])
    ensures !ok ==>
              || cancel.Raised() || req.channels == []
              || exists ch :: ch in req.channels && !Accepted(req, masks, ch)
  {
    ok, allPacked := false, [];
    if req.channels == [] {
      return;
    }
    if req.width <= 0 || req.height <= 0 {
      assert req.channels[0] in req.channels && !Accepted(req, masks, req.channels[0]);
      return;
    }
    var lastMaskKey := "";
    var lastMask := Mask(0, 0, []);
    var i := 0;
    while i < |req.channels|
      invariant 0 <= i <= |req.channels| && |allPacked| == i
      invariant old(cancel.raises) <= cancel.raises
      invariant i == 0 ==> lastMaskKey == ""
      invariant i > 0 ==> Loaded(masks, lastMaskKey, lastMask)
      invariant forall j :: 0 <= j < i ==> Screened(req, masks, j, allPacked[j])
    {
      var done, lines;
      done, lastMaskKey, lastMask, lines := ScreenNext(req, masks, i, lastMaskKey, lastMask, cancel);
      if !done {
        assert req.channels[i] in req.channels;
        return;
      }
      allPacked := allPacked + [lines];
      i := i + 1;
    }
    ok := true;
  }

  predicate Loaded(masks: map<string, Mask>, key: string, mask: Mask) {
    key in masks && mask == masks[key] && mask.Valid()
  }

  /** Screens channel i, loading its mask unless it is the one loaded last. */
  method ScreenNext(req: ScreenRequest, masks: map<string, Mask>, i: nat, lastKey: string, lastMask: Mask,
                    cancel: CancelFlag)
    returns (ok: bool, key: string, mask: Mask, lines: seq<seq<Byte>>)
    requires i < |req.channels| && 0 < req.width && 0 < req.height
    requires req.channels[i].maskKey == lastKey ==> Loaded(masks, lastKey, lastMask)
    modifies cancel`raises
    ensures old(cancel.raises) <= cancel.raises
    ensures ok ==> Loaded(masks, key, mask) && Screened(req, masks, i, lines)
    ensures !ok ==> cancel.Raised() || !Accepted(req, masks, req.channels[i])
  {
    ok, key, mask, lines := false, lastKey, lastMask, [];
    var canceled := cancel.Poll();
    if canceled {
      return;
    }
    var ch := req.channels[i];
    if ch.toneBytes.None? || |ch.toneBytes.value| != req.height * req.width {
      return;
    }
    if ch.maskKey != lastKey {
      if ch.maskKey !in masks || !masks[ch.maskKey].Valid() {
        return;
      }
      key, mask := ch.maskKey, masks[ch.maskKey];
    }
    ok, lines := ScreenOne(Resolve(req, ch), mask, i, req.screenSeed, req.modeParams, ch.toneBytes.value, req.width,
                           req.height, cancel);
  }
}
