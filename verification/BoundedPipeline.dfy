/** The bounded engine: pulls tone strips, keeps at most four rows a channel, promotes the second
    of them and emits the first, and flushes what is left when the raster ends. */
module BoundedPipeline {
  import opened Arithmetic
  import opened RasterTypes
  import opened PixelScreening
  import opened Promotion
  import opened Packing
  import opened ScreenSpec
  import opened SpoolBody
  import opened SpoolWriter
  import opened Cancellation

  const MAXIMUM_STRIP_ROWS := 128

  /** As many rows as fit in the budget by their estimated size, but at least one and at most the maximum. */
  function BoundedRowsForWidth(width: int, bytesPerPixel: nat, budget: nat): (rows: int)
    ensures 1 <= rows <= MAXIMUM_STRIP_ROWS
    ensures rows == 1 || rows * (width * bytesPerPixel) <= budget
    ensures 0 < width && 0 < bytesPerPixel && rows < MAXIMUM_STRIP_ROWS ==>
              budget < (rows + 1) * (width * bytesPerPixel)
  {
    if width <= 0 || bytesPerPixel == 0 then 1
    else
      assert 0 < width * bytesPerPixel;
      RowsWithin(width * bytesPerPixel, budget);
      Clamp(Min(MAXIMUM_STRIP_ROWS, Max(1, budget / (width * bytesPerPixel))), 1, MAXIMUM_STRIP_ROWS)
  }

  lemma RowsWithin(bytesPerRow: int, budget: nat)
    requires 0 < bytesPerRow
    ensures var rows := Clamp(Min(MAXIMUM_STRIP_ROWS, Max(1, budget / bytesPerRow)), 1, MAXIMUM_STRIP_ROWS);
            && (rows == 1 || rows * bytesPerRow <= budget)
            && (rows < MAXIMUM_STRIP_ROWS ==> budget < (rows + 1) * bytesPerRow)
  {
    var rows := Clamp(Min(MAXIMUM_STRIP_ROWS, Max(1, budget / bytesPerRow)), 1, MAXIMUM_STRIP_ROWS);
    ProductFits(rows, bytesPerRow, budget);
    ProductFits(rows + 1, bytesPerRow, budget);
  }

  /** Serves mask rows, keeping the last one read. */
  class MaskRows {
    const mask: Mask
    var bytes: seq<Tone>
    var cachedRow: int

    predicate Valid()
      reads this
    {
      mask.Valid() && (cachedRow == -1 ||
        (0 <= cachedRow < mask.height && bytes == Row(mask.bytes, mask.width, mask.height, cachedRow)))
    }

    constructor (mask: Mask)
      requires mask.Valid()
      ensures Valid() && this.mask == mask
    {
      this.mask := mask;
      bytes, cachedRow := [], -1;
    }

    method FetchRow(row: int) returns (result: seq<Tone>)
      requires Valid()
      modifies this
      ensures Valid()
      ensures result == Row(mask.bytes, mask.width, mask.height, row % mask.height)
    {
      var wrapped := row % mask.height;
      if wrapped != cachedRow {
        bytes := Row(mask.bytes, mask.width, mask.height, wrapped);
        cachedRow := wrapped;
      }
      result := bytes;
    }
  }

  datatype ScreenRow = ScreenRow(y: nat, tone: seq<Tone>, dots: seq<Dot>)

  /** The deque holds rows first..next of the channel: the front row as it will be emitted, the
      others as they were screened. */
  ghost predicate RollingRows(rows: seq<ScreenRow>, f: Frame, final: seq<seq<Dot>>, first: nat, next: nat) {
    && f.Valid() && |final| == f.height && first <= next <= f.height && |rows| == next - first
    && forall k :: 0 <= k < |rows| ==>
         rows[k] == ScreenRow(first + k, f.tones[first + k], if k == 0 then final[first + k] else f.dots[first + k])
  }

  class ScreenState {
    const config: ScreenChannel
    const mask: MaskRows
    const offset: MaskOffset
    var rows: seq<ScreenRow>

    ghost predicate Valid()
      reads this, mask
    {
      mask.Valid() && offset.x < mask.mask.width && offset.y < mask.mask.height
    }

    constructor (config: ScreenChannel, mask: MaskRows, offset: MaskOffset)
      requires mask.Valid() && offset.x < mask.mask.width && offset.y < mask.mask.height
      ensures Valid() && rows == [] && this.config == config && this.mask == mask && this.offset == offset
    {
      this.config, this.mask, this.offset := config, mask, offset;
      rows := [];
    }

    /** Promotes the second of four rows in place. Rows near the border stay as they are, and so does a queue that
        does not hold four rows. */
    method PromoteCenterRow(width: nat, height: nat, parameters: map<string, int>,
                            ghost f: Frame, ghost goal: seq<seq<Dot>>, ghost first: nat)
      requires Settles(f, ReadParameters(parameters), goal) && f.width == width && f.height == height
      requires |rows| == 4 ==> RollingRows(rows, f, goal, first, first + 4)
      modifies this`rows
      ensures rows == if |old(rows)| != 4 then old(rows)
                      else old(rows)[1 := ScreenRow(first + 1, f.tones[first + 1], goal[first + 1])]
    {
      if |rows| != 4 {
        return;
      }
      var y := rows[1].y;
      if y <= 0 || y >= height - 2 {
        return;
      }
      var p := ReadParameters(parameters);
      var x := 1;
      if 0 < width {
        GoalBorder(f, p, goal, 0, y);
      }
      while x < width - 2
        invariant 1 <= x && (x <= width - 2 || x == 1)
        invariant |rows| == 4 && rows == old(rows)[1 := ScreenRow(y, f.tones[y], rows[1].dots)]
        invariant |rows[1].dots| == width
        invariant forall c :: 0 <= c < width ==> rows[1].dots[c] == if c < x then goal[y][c] else f.dots[y][c]
      {
        PromoteAt(x, p, f, goal, y);
        x := x + 1;
      }
      forall c | x <= c < width
        ensures goal[y][c] == f.dots[y][c]
      {
        GoalBorder(f, p, goal, c, y);
      }
      assert rows[1].dots == goal[y];
    }

    method PromoteAt(x: nat, p: PromotionParameters, ghost f: Frame, ghost goal: seq<seq<Dot>>, ghost y: nat)
      requires Settles(f, p, goal) && f.Visited(x, y)
      requires |rows| == 4 && forall k :: 0 <= k < 4 ==> rows[k].y == y - 1 + k && rows[k].tone == f.tones[y - 1 + k]
      requires rows[0].dots == goal[y - 1] && rows[2].dots == f.dots[y + 1] && rows[3].dots == f.dots[y + 2]
      requires |rows[1].dots| == f.width
      requires forall c :: 0 <= c < f.width ==> rows[1].dots[c] == if c < x then goal[y][c] else f.dots[y][c]
      modifies this`rows
      ensures |rows| == 4 && rows == old(rows)[1 := old(rows[1]).(dots := rows[1].dots)]
      ensures rows[1].dots == old(rows[1].dots)[x := goal[y][x]]
    {
      ghost var dots := ScanWindow(f, goal, x, y);
      ghost var tones := Window(f.tones, x, y);
      GoalPixel(f, p, goal, x, y);
      RowsShown(rows, f, goal, x, y);
      assert dots[CENTER] == f.dots[y][x] && tones[CENTER] == f.tones[y][x];
      var center := rows[1];
      var dot := center.dots[x];
      if dot == 0 || dot == 3 {
        return;
      }
      var tone := center.tone[x];
      if tone < p.toneGate {
        return;
      }
      var weighted, inked, deviation, count := SurveyRows(rows, x, dots, tones);
      if inked < p.minimumInked || (count != 0 && deviation / count > p.flatEpsilon) {
        return;
      }
      weighted := weighted + p.kickBonus;
      if dot == 1 {
        if Wins(x, center.y, weighted, p.medLow, p.medHigh, tone) {
          rows := rows[1 := center.(dots := center.dots[x := 2])];
        }
      } else if dot == 2 {
        if Wins(x, center.y, weighted, p.largeLow, p.largeHigh, tone) {
          rows := rows[1 := center.(dots := center.dots[x := 3])];
        }
      }
    }
  }

  /** Around column x, four rolling rows show the given windows. */
  ghost predicate ShowsWindows(rows: seq<ScreenRow>, x: nat, dots: seq<Dot>, tones: seq<Tone>) {
    && |rows| == 4 && |dots| == |tones| == 16 && 1 <= x
    && (forall k :: 0 <= k < 4 ==> x + 2 < |rows[k].dots| && x + 2 < |rows[k].tone|)
    && (forall k, c :: 0 <= k < 4 && x - 1 <= c <= x + 2 ==> rows[k].dots[c] == dots[k * 4 + c - x + 1])
    && (forall k, c :: 0 <= k < 4 && x - 1 <= c <= x + 2 ==> rows[k].tone[c] == tones[k * 4 + c - x + 1])
  }

  lemma RowsShown(rows: seq<ScreenRow>, f: Frame, goal: seq<seq<Dot>>, x: nat, y: nat)
    requires f.Valid() && |goal| == f.height && (forall r :: 0 <= r < f.height ==> |goal[r]| == f.width) &&
             f.Visited(x, y)
    requires |rows| == 4 && forall k :: 0 <= k < 4 ==> rows[k].tone == f.tones[y - 1 + k]
    requires rows[0].dots == goal[y - 1] && rows[2].dots == f.dots[y + 1] && rows[3].dots == f.dots[y + 2]
    requires |rows[1].dots| == f.width
    requires forall c :: 0 <= c < f.width ==> rows[1].dots[c] == if c < x then goal[y][c] else f.dots[y][c]
    ensures ShowsWindows(rows, x, ScanWindow(f, goal, x, y), Window(f.tones, x, y))
  {
    var w := ScanWindow(f, goal, x, y);
    forall k, c | 0 <= k < 4 && x - 1 <= c <= x + 2
      ensures rows[k].dots[c] == w[k * 4 + c - x + 1]
    {
      ScanCell(f, goal, x, y, k, c);
    }
    forall k, c | 0 <= k < 4 && x - 1 <= c <= x + 2
      ensures rows[k].tone[c] == Window(f.tones, x, y)[k * 4 + c - x + 1]
    {
      WindowCell(f.tones, x, y, k, c);
    }
  }

  lemma ScanCell(f: Frame, goal: seq<seq<Dot>>, x: nat, y: nat, k: nat, c: nat)
    requires f.Valid() && |goal| == f.height && (forall r :: 0 <= r < f.height ==> |goal[r]| == f.width) &&
             f.Visited(x, y)
    requires k < 4 && x - 1 <= c <= x + 2
    ensures ScanWindow(f, goal, x, y)[k * 4 + c - x + 1] ==
            if k == 0 || (k == 1 && c < x) then goal[y - 1 + k][c] else f.dots[y - 1 + k][c]
  {
    var w := ScanWindow(f, goal, x, y);
    if k == 0 {
      assert w[0..4] == goal[y - 1][x - 1..x + 3];
    } else if k == 1 {
      assert w[4] == goal[y][x - 1];
      assert w[5..8] == f.dots[y][x..x + 3];
    } else if k == 2 {
      assert w[8..12] == f.dots[y + 1][x - 1..x + 3];
    } else {
      assert w[12..16] == f.dots[y + 2][x - 1..x + 3];
    }
  }

  lemma WindowCell(tones: seq<seq<Tone>>, x: nat, y: nat, k: nat, c: nat)
    requires 1 <= y && y + 2 < |tones| && 1 <= x && k < 4 && x - 1 <= c <= x + 2
    requires forall r :: y - 1 <= r <= y + 2 ==> x + 2 < |tones[r]|
    ensures Window(tones, x, y)[k * 4 + c - x + 1] == tones[y - 1 + k][c]
  {
    var w := Window(tones, x, y);
    if k == 0 {
      assert w[0..4] == tones[y - 1][x - 1..x + 3];
    } else if k == 1 {
      assert w[4..8] == tones[y][x - 1..x + 3];
    } else if k == 2 {
      assert w[8..12] == tones[y + 1][x - 1..x + 3];
    } else {
      assert w[12..16] == tones[y + 2][x - 1..x + 3];
    }
  }

  /** Counts, sums and measures the neighbourhood in one pass over the four rows. */
  method SurveyRows(rows: seq<ScreenRow>, x: nat, ghost dots: seq<Dot>, ghost tones: seq<Tone>)
    returns (weighted: nat, inked: nat, deviation: nat, count: nat)
    requires ShowsWindows(rows, x, dots, tones)
    ensures weighted == WeightUpTo(dots, 16) && inked == InkedUpTo(dots, 16)
    ensures deviation == DeviationUpTo(tones, 16) && count == 15
  {
    weighted, inked, deviation, count := 0, 0, 0, 0;
    var tone := rows[1].tone[x];
    var dy := -1;
    while dy <= 2
      invariant -1 <= dy <= 3
      invariant weighted == WeightUpTo(dots, (dy + 1) * 4) && inked == InkedUpTo(dots, (dy + 1) * 4)
      invariant deviation == DeviationUpTo(tones, (dy + 1) * 4)
      invariant count == (dy + 1) * 4 - (if dy > 0 then 1 else 0)
    {
      var neighbourRow := rows[dy + 1];
      var dx := -1;
      while dx <= 2
        invariant -1 <= dx <= 3
        invariant weighted == WeightUpTo(dots, (dy + 1) * 4 + dx + 1)
        invariant inked == InkedUpTo(dots, (dy + 1) * 4 + dx + 1)
        invariant deviation == DeviationUpTo(tones, (dy + 1) * 4 + dx + 1)
        invariant count == (dy + 1) * 4 + dx + 1 - (if dy > 0 || (dy == 0 && dx > 0) then 1 else 0)
      {
        if !(dx == 0 && dy == 0) {
          var neighbourDot := neighbourRow.dots[x + dx];
          if neighbourDot > 0 {
            inked := inked + 1;
          }
          weighted := weighted + neighbourDot;
          deviation := deviation + Distance(neighbourRow.tone[x + dx], tone);
          count := count + 1;
        }
        dx := dx + 1;
      }
      dy := dy + 1;
    }
  }

  /** Gates and classifies one row of tones against one mask row. */
  method ScreenRowOf(c: ScreenChannel, mask: Mask, offset: MaskOffset, maskRow: seq<Tone>,
                     strip: seq<Tone>, toneBase: nat, width: nat, y: nat, ghost tones: seq<Tone>)
    returns (row: ScreenRow)
    requires mask.Valid() && offset.x < mask.width && offset.y < mask.height
    requires maskRow == Row(mask.bytes, mask.width, mask.height, (y + offset.y) % mask.height)
    requires toneBase + width <= |strip| && tones == strip[toneBase..toneBase + width]
    ensures row == ScreenRow(y, ClassRow(c, tones), RawRow(c, mask, offset, tones, y))
  {
    var tone := new Tone[width](_ => 0);
    var dots := new Dot[width](_ => 0);
    var x := 0;
    while x < width
      invariant 0 <= x <= width
      invariant forall i :: 0 <= i < x ==>
                tone[i] == ClassTone(c, tones[i]) && dots[i] == RawDot(c, mask, offset, tones[i], i, y)
    {
      tone[x], dots[x] := ScreenPixel(c, mask, offset, maskRow, strip[toneBase + x], x, y);
      x := x + 1;
    }
    row := ScreenRow(y, tone[..], dots[..]);
  }

  method ScreenPixel(c: ScreenChannel, mask: Mask, offset: MaskOffset, maskRow: seq<Tone>, originalTone: Tone, x: nat,
                     y: nat)
    returns (tone: Tone, dot: Dot)
    requires mask.Valid() && offset.x < mask.width && offset.y < mask.height
    requires maskRow == Row(mask.bytes, mask.width, mask.height, (y + offset.y) % mask.height)
    ensures tone == ClassTone(c, originalTone) && dot == RawDot(c, mask, offset, originalTone, x, y)
  {
    var minTone := Clamp(c.minInkThreshold, 0, 254);
    if originalTone <= minTone {
      return 0, 0;
    }
    var effectiveTone := LiftTone(c, minTone, originalTone);
    var maskX := x + offset.x;
    if maskX >= mask.width {
      maskX := maskX % mask.width;
    }
    var threshold := maskRow[maskX];
    assert threshold == Threshold(mask, offset, x, y) by {
      SmallModulo(x + offset.x, mask.width);
    }
    var classificationTone := if c.useEffectiveTone then effectiveTone else originalTone;
    tone := classificationTone;
    if effectiveTone <= threshold {
      return tone, 0;
    }
    var relative := RelativeThreshold(threshold, classificationTone);
    var smallCut := Lerp(64, Clamp(c.smallDotThreshold, 0, 255), classificationTone);
    var mediumCut := Lerp(130, Clamp(c.medDotThreshold, 0, 255), classificationTone);
    dot := if relative <= smallCut then 1 else if relative <= mediumCut then 2 else 3;
    if c.enableDotSwap {
      if classificationTone < SWAP_LOW {
        dot := 4 - dot;
      } else if classificationTone < SWAP_HIGH {
        var probability := (SWAP_HIGH - classificationTone) * 255 / (SWAP_HIGH - SWAP_LOW);
        if PixelNoise(x, y) % 256 < probability {
          dot := 4 - dot;
        }
      }
    }
  }

  /** Packs and writes the oldest row, if there is one, and forgets it. */
  method EmitFrontRow(state: ScreenState, channel: int, writer: Writer) returns (ok: bool)
    requires writer.Valid()
    modifies state`rows, writer`linesWritten, writer`log, writer`intact, writer.disk
    ensures writer.Valid() && old(writer.disk.faults) <= writer.disk.faults
    ensures old(state.rows) == [] || !ok ==> writer.log == old(writer.log) && state.rows == old(state.rows)
    ensures old(state.rows) == [] ==> ok && writer.disk.files == old(writer.disk.files)
    ensures ok ==> writer.intact == old(writer.intact)
    ensures ok && old(state.rows) != [] ==>
              && state.rows == old(state.rows)[1..] && 0 <= writer.LineIndex(channel, old(state.rows)[0].y)
              && writer.log == old(writer.log) +
                   [LineWrite(writer.LineIndex(channel, old(state.rows)[0].y), PackedLine(old(state.rows)[0].dots))]
    ensures !ok && 0 <= channel ==>
              old(writer.disk.faults) < writer.disk.faults ||
              !Accepts(writer, channel + 1, |old(state.rows)[0].dots|, old(state.rows)[0].y + 1)
  {
    if state.rows == [] {
      return true;
    }
    var row := state.rows[0];
    var packed := PackZeroed(row.dots);
    ok := writer.WriteLine(channel, row.y, packed);
    if ok {
      state.rows := state.rows[1..];
    }
  }

  /** The writer is open for a raster of this shape. */
  ghost predicate Accepts(writer: Writer, channels: int, width: nat, height: int)
    reads writer
  {
    && writer.isOpen && LineBytes(width) == writer.metadata.bytesPerLine
    && channels <= writer.metadata.logicalChannelCount && height <= writer.metadata.height
  }

  /** `final` is what the channel's raster ends as. */
  ghost predicate Finishes(c: ScreenChannel, p: PromotionParameters, f: Frame, final: seq<seq<Dot>>) {
    f.Valid() && if c.enablePromotion then Settles(f, p, final) else final == f.dots
  }

  /** The first row a channel still holds after `next` rows have been screened: without promotion
      none is held; with it, the row before the one promoted last and everything after. */
  function FirstHeld(promotes: bool, next: nat): (first: nat)
    ensures first <= next
  {
    if !promotes then next else if next <= 3 then 0 else next - 3
  }

  /** One row of one channel: screen it, append it, promote and emit when the window is full. */
  method ProcessRow(state: ScreenState, channel: int, writer: Writer, strip: seq<Tone>, toneBase: nat,
                    width: nat, height: nat, y: nat, parameters: map<string, int>,
                    ghost tones: seq<Tone>, ghost f: Frame, ghost final: seq<seq<Dot>>)
    returns (ok: bool)
    requires state.Valid() && writer.Valid()
    requires f.Valid() && f.width == width && f.height == height && y < height
    requires toneBase + width <= |strip| && tones == strip[toneBase..toneBase + width]
    requires f.tones[y] == ClassRow(state.config, tones)
    requires f.dots[y] == RawRow(state.config, state.mask.mask, state.offset, tones, y)
    requires Finishes(state.config, ReadParameters(parameters), f, final)
    requires RollingRows(state.rows, f, final, FirstHeld(state.config.enablePromotion, y), y)
    modifies state`rows, state.mask, writer`linesWritten, writer`log, writer`intact, writer.disk
    ensures state.Valid() && writer.Valid() && old(writer.disk.faults) <= writer.disk.faults
    ensures ok ==> writer.intact == old(writer.intact)
    ensures ok ==> RollingRows(state.rows, f, final, FirstHeld(state.config.enablePromotion, y + 1), y + 1)
    ensures ok ==> var first := FirstHeld(state.config.enablePromotion, y);
                   && (first < FirstHeld(state.config.enablePromotion, y + 1) ==> 0 <= writer.LineIndex(channel, first))
                   && writer.log == old(writer.log) +
                        (if first < FirstHeld(state.config.enablePromotion, y + 1)
                         then [LineWrite(writer.LineIndex(channel, first), PackedLine(final[first]))] else [])
    ensures !ok && 0 <= channel ==>
              old(writer.disk.faults) < writer.disk.faults || !Accepts(writer, channel + 1, width, height)
  {
    ok := true;
    ghost var first := FirstHeld(state.config.enablePromotion, y);
    if first == y && state.config.enablePromotion {
      GoalBorderRow(f, ReadParameters(parameters), final, 0);
    }
    AppendRow(state, strip, toneBase, width, y, tones, f, final, first);
    if !state.config.enablePromotion {
      ok := EmitFrontRow(state, channel, writer);
    } else if |state.rows| == 4 {
      ok := PromoteAndEmit(state, channel, writer, width, height, parameters, f, final, first);
    }
  }

  /** With the window full: promotes its second row, which makes the first one leave. */
  method PromoteAndEmit(state: ScreenState, channel: int, writer: Writer, width: nat, height: nat,
                        parameters: map<string, int>, ghost f: Frame, ghost final: seq<seq<Dot>>, ghost first: nat)
    returns (ok: bool)
    requires writer.Valid() && f.width == width && f.height == height && |state.rows| == 4
    requires Settles(f, ReadParameters(parameters), final) && RollingRows(state.rows, f, final, first, first + 4)
    modifies state`rows, writer`linesWritten, writer`log, writer`intact, writer.disk
    ensures writer.Valid() && old(writer.disk.faults) <= writer.disk.faults
    ensures ok ==> writer.intact == old(writer.intact)
    ensures ok ==> RollingRows(state.rows, f, final, first + 1, first + 4)
    ensures ok ==>
              && 0 <= writer.LineIndex(channel, first)
              && writer.log == old(writer.log) + [LineWrite(writer.LineIndex(channel, first), PackedLine(final[first]))]
    ensures !ok && 0 <= channel ==>
              old(writer.disk.faults) < writer.disk.faults || !Accepts(writer, channel + 1, width, height)
  {
    FrontPopped(state.rows, f, final, first);
    state.PromoteCenterRow(width, height, parameters, f, final, first);
    ok := EmitFrontRow(state, channel, writer);
  }

  method AppendRow(state: ScreenState, strip: seq<Tone>, toneBase: nat, width: nat, y: nat,
                   ghost tones: seq<Tone>, ghost f: Frame, ghost final: seq<seq<Dot>>, ghost first: nat)
    requires state.Valid() && f.Valid() && f.width == width && y < f.height
    requires toneBase + width <= |strip| && tones == strip[toneBase..toneBase + width]
    requires f.tones[y] == ClassRow(state.config, tones)
    requires f.dots[y] == RawRow(state.config, state.mask.mask, state.offset, tones, y)
    requires RollingRows(state.rows, f, final, first, y) && (first == y ==> f.dots[y] == final[y])
    modifies state`rows, state.mask
    ensures state.Valid() && RollingRows(state.rows, f, final, first, y + 1)
  {
    var maskRow := state.mask.FetchRow(y + state.offset.y);
    var output := ScreenRowOf(state.config, state.mask.mask, state.offset, maskRow, strip, toneBase, width, y, tones);
    RowPushed(state.rows, f, final, first, y);
    state.rows := state.rows + [output];
  }

  lemma RowPushed(rows: seq<ScreenRow>, f: Frame, final: seq<seq<Dot>>, first: nat, y: nat)
    requires RollingRows(rows, f, final, first, y) && y < f.height && (first == y ==> f.dots[y] == final[y])
    ensures RollingRows(rows + [ScreenRow(y, f.tones[y], f.dots[y])], f, final, first, y + 1)
  {
  }

  lemma FrontPopped(rows: seq<ScreenRow>, f: Frame, final: seq<seq<Dot>>, first: nat)
    requires RollingRows(rows, f, final, first, first + 4)
    ensures RollingRows(rows[1 := ScreenRow(first + 1, f.tones[first + 1], final[first + 1])][1..], f, final,
                        first + 1, first + 4)
  {
  }

  /** The rows still held when the raster ends are border rows or already settled. */
  lemma HeldRowsFinal(rows: seq<ScreenRow>, c: ScreenChannel, p: PromotionParameters, f: Frame, final: seq<seq<Dot>>)
    requires f.Valid() && Finishes(c, p, f, final)
    requires RollingRows(rows, f, final, FirstHeld(c.enablePromotion, f.height), f.height)
    ensures forall k :: 0 <= k < |rows| ==>
              var r := FirstHeld(c.enablePromotion, f.height) + k; rows[k].y == r && rows[k].dots == final[r]
  {
    forall k | 0 <= k < |rows|
      ensures rows[k].dots == final[FirstHeld(c.enablePromotion, f.height) + k]
    {
      if k != 0 {
        GoalBorderRow(f, p, final, FirstHeld(c.enablePromotion, f.height) + k);
      }
    }
  }

  /** Entry `i` of the log is the line of cell `cells[i]`, a row its channel has emitted. */
  ghost predicate EntryOf(log: seq<LineWrite>, cells: seq<(nat, nat)>, finals: seq<seq<seq<Dot>>>, height: nat,
                          held: seq<nat>, i: nat)
    requires i < |cells| == |log| && |held| == |finals|
    requires forall c :: 0 <= c < |finals| ==> |finals[c]| == height && held[c] <= height
  {
    var (c, r) := cells[i];
    c < |finals| && r < held[c] && log[i] == LineWrite(c * height + r, PackedLine(finals[c][r]))
  }

  ghost predicate Has(cells: seq<(nat, nat)>, c: nat, r: nat) {
    (c, r) in cells
  }

  ghost predicate Distinct(cells: seq<(nat, nat)>) {
    cells == [] || (cells[|cells| - 1] !in cells[..|cells| - 1] && Distinct(cells[..|cells| - 1]))
  }

  lemma {:induction false} DistinctCells(cells: seq<(nat, nat)>, i: nat, j: nat)
    requires Distinct(cells) && i < j < |cells|
    ensures cells[i] != cells[j]
  {
    var last := |cells| - 1;
    if j == last {
      assert cells[i] in cells[..last];
    } else {
      DistinctCells(cells[..last], i, j);
    }
  }

  /** The log holds the lines of rows below `held[c]` of every channel c, each once. */
  ghost predicate Emitted(log: seq<LineWrite>, cells: seq<(nat, nat)>, finals: seq<seq<seq<Dot>>>, height: nat,
                          held: seq<nat>) {
    && |cells| == |log| && |held| == |finals| && Distinct(cells)
    && (forall c :: 0 <= c < |finals| ==> |finals[c]| == height && held[c] <= height)
    && (forall i: nat {:trigger EntryOf(log, cells, finals, height, held, i)} :: i < |cells| ==>
          EntryOf(log, cells, finals, height, held, i))
    && (forall c: nat, r: nat {:trigger Has(cells, c, r)} :: c < |finals| && r < held[c] ==> Has(cells, c, r))
  }

  lemma EmittedOne(log: seq<LineWrite>, cells: seq<(nat, nat)>, finals: seq<seq<seq<Dot>>>, height: nat,
                   held: seq<nat>, c: nat)
    requires Emitted(log, cells, finals, height, held) && c < |finals| && held[c] < height
    ensures Emitted(log + [LineWrite(c * height + held[c], PackedLine(finals[c][held[c]]))], cells + [(c, held[c])],
                    finals, height, held[c := held[c] + 1])
  {
    var cells' := cells + [(c, held[c])];
    var log' := log + [LineWrite(c * height + held[c], PackedLine(finals[c][held[c]]))];
    var held' := held[c := held[c] + 1];
    forall i: nat | i < |cells'|
      ensures EntryOf(log', cells', finals, height, held', i)
    {
      if i < |cells| {
        assert EntryOf(log, cells, finals, height, held, i);
        assert cells'[i] == cells[i] && held[cells[i].0] <= held'[cells[i].0];
      } else {
        assert cells'[i] == (c, held[c]);
      }
    }
    forall d: nat, r: nat | d < |finals| && r < held'[d]
      ensures Has(cells', d, r)
    {
      if d == c && r == held[c] {
        assert cells'[|cells|] == (d, r);
      } else {
        assert Has(cells, d, r);
      }
    }
    assert cells'[..|cells|] == cells;
    forall i | 0 <= i < |cells|
      ensures cells[i] != (c, held[c])
    {
      assert EntryOf(log, cells, finals, height, held, i);
    }
  }

  /** When every channel is through, every line of the body has been written exactly once. */
  lemma EmittedAll(log: seq<LineWrite>, cells: seq<(nat, nat)>, finals: seq<seq<seq<Dot>>>, height: nat, held: seq<nat>,
                   planes: seq<seq<seq<Byte>>>)
    requires Emitted(log, cells, finals, height, held) && 0 < height
    requires forall c :: 0 <= c < |finals| ==> held[c] == height
    requires |planes| == |finals| && forall c :: 0 <= c < |finals| ==> planes[c] == PackRows(finals[c])
    ensures WritesOnce(log, Flatten(planes))
  {
    var lines := Flatten(planes);
    FlattenLength(planes, height);
    forall i | 0 <= i < |log|
      ensures log[i].index < |lines| && log[i].bytes == lines[log[i].index]
    {
      assert EntryOf(log, cells, finals, height, held, i);
      FlattenAt(planes, height, cells[i].0, cells[i].1);
    }
    forall i, j | 0 <= i < j < |log|
      ensures log[i].index != log[j].index
    {
      assert EntryOf(log, cells, finals, height, held, i) && EntryOf(log, cells, finals, height, held, j);
      DistinctCells(cells, i, j);
      CellInjective(cells[i].1, cells[i].0, cells[j].1, cells[j].0, height);
    }
    forall k | 0 <= k < |lines|
      ensures Names(log, k)
    {
      EmittedNames(log, cells, finals, height, held, k);
    }
  }

  lemma EmittedNames(log: seq<LineWrite>, cells: seq<(nat, nat)>, finals: seq<seq<seq<Dot>>>, height: nat,
                     held: seq<nat>, k: nat)
    requires Emitted(log, cells, finals, height, held) && 0 < height && k < |finals| * height
    requires forall c :: 0 <= c < |finals| ==> held[c] == height
    ensures Names(log, k)
  {
    CellOf(k, height, |finals|);
    var c: nat, r: nat := k / height, k % height;
    assert Has(cells, c, r);
    var i :| 0 <= i < |cells| && cells[i] == (c, r);
    assert EntryOf(log, cells, finals, height, held, i);
    assert log[i] in log && log[i].index == k;
  }

  /** Strips as the engine pulls them: first row and row count to one tone plane a channel. */
  type ToneProvider = (int, int) -> Option<seq<seq<Tone>>>

  predicate WellSized(tones: seq<seq<Tone>>, channels: nat, pixels: nat) {
    |tones| == channels && forall c :: 0 <= c < |tones| ==> |tones[c]| == pixels
  }

  /** Whatever strip is asked for, well-sized tones are that part of the whole planes. */
  ghost predicate SlicesPlanes(provider: ToneProvider, planes: seq<seq<Tone>>, width: nat, height: nat) {
    forall first: nat, count: nat ::
      provider(first, count).Some? && first + count <= height &&
      WellSized(provider(first, count).value, |planes|, count * width) ==>
        StripOf(provider(first, count).value, planes, width, height, first, count)
  }

  ghost predicate StripOf(tones: seq<seq<Tone>>, planes: seq<seq<Tone>>, width: nat, height: nat, first: nat,
                          count: nat)
    requires first + count <= height && WellSized(tones, |planes|, count * width)
  {
    forall c, y :: 0 <= c < |planes| && 0 <= y < count && |planes[c]| == height * width ==>
      Row(tones[c], width, count, y) == Row(planes[c], width, height, first + y)
  }

  /** The rasters a plan stands for, and where each channel reads its mask. */
  datatype Work = Work(configs: seq<ScreenChannel>, masks: seq<Mask>, offsets: seq<MaskOffset>,
                       frames: seq<Frame>, finals: seq<seq<seq<Dot>>>) {
    ghost predicate Shaped(count: nat, width: nat, height: nat) {
      && |configs| == |masks| == |offsets| == |frames| == |finals| == count
      && forall c :: 0 <= c < count ==>
           && frames[c].Valid() && frames[c].width == width && frames[c].height == height
           && |finals[c]| == height
    }

    ghost predicate For(plan: ScreenPlan) {
      && plan.Valid() && Shaped(|plan.channels|, plan.width, plan.height)
      && configs == plan.channels
      && (forall c {:trigger plan.MaskOf(c)} :: 0 <= c < |masks| ==> masks[c] == plan.MaskOf(c))
      && (forall c {:trigger plan.OffsetOf(c)} :: 0 <= c < |offsets| ==> offsets[c] == plan.OffsetOf(c))
      && (forall c {:trigger plan.FrameOf(c)} :: 0 <= c < |frames| ==> frames[c] == plan.FrameOf(c))
      && (forall c {:trigger plan.FinalOf(c)} :: 0 <= c < |finals| ==> finals[c] == plan.FinalOf(c))
    }
  }

  ghost function WorkOf(plan: ScreenPlan): (w: Work)
    requires plan.Valid()
    ensures w.For(plan)
  {
    var n := |plan.channels|;
    Work(plan.channels,
         seq(n, c requires 0 <= c < n => plan.MaskOf(c)),
         seq(n, c requires 0 <= c < n => plan.OffsetOf(c)),
         seq(n, c requires 0 <= c < n => plan.FrameOf(c)),
         seq(n, c requires 0 <= c < n => plan.FinalOf(c)))
  }

  /** Row y of channel c, given its tones, is that row of the channel's rasters. */
  ghost predicate RowReady(w: Work, parameters: map<string, int>, tones: seq<Tone>, c: nat, y: nat)
    requires c < |w.configs| == |w.masks| == |w.offsets| == |w.frames| == |w.finals|
  {
    && w.masks[c].Valid() && w.frames[c].Valid() && y < w.frames[c].height
    && w.frames[c].tones[y] == ClassRow(w.configs[c], tones)
    && w.frames[c].dots[y] == RawRow(w.configs[c], w.masks[c], w.offsets[c], tones, y)
    && Finishes(w.configs[c], ReadParameters(parameters), w.frames[c], w.finals[c])
  }

  lemma WorkRow(plan: ScreenPlan, w: Work, c: nat, y: nat)
    requires w.For(plan) && c < |plan.channels| && y < plan.height
    ensures RowReady(w, plan.parameters, Row(plan.planes[c], plan.width, plan.height, y), c, y)
  {
    assert w.masks[c] == plan.MaskOf(c) && w.offsets[c] == plan.OffsetOf(c);
    assert w.frames[c] == plan.FrameOf(c) && w.finals[c] == plan.FinalOf(c);
  }

  /** Channels below `c` have `y + 1` rows behind them, the others `y`. */
  function RowsDone(c: nat, i: nat, y: nat): nat {
    if i < c then y + 1 else y
  }

  /** Channel i screens with its settings and holds the rows it should after `done` of them. */
  ghost predicate ChannelAt(state: ScreenState, w: Work, i: nat, done: nat)
    requires i < |w.configs| == |w.masks| == |w.offsets| == |w.frames| == |w.finals|
    reads state, state.mask
  {
    && state.Valid() && state.config == w.configs[i] && state.mask.mask == w.masks[i] && state.offset == w.offsets[i]
    && RollingRows(state.rows, w.frames[i], w.finals[i], FirstHeld(w.configs[i].enablePromotion, done), done)
  }

  ghost predicate Separate(states: seq<ScreenState>) {
    forall i, j :: 0 <= i < j < |states| ==> states[i] != states[j] && states[i].mask != states[j].mask
  }

  /** How far each channel has been emitted. */
  ghost function Held(configs: seq<ScreenChannel>, c: nat, y: nat): (held: seq<nat>)
    ensures |held| == |configs|
  {
    seq(|configs|, i requires 0 <= i < |configs| => FirstHeld(configs[i].enablePromotion, RowsDone(c, i, y)))
  }

  /** The log after channel c has had row y: one more line exactly when its held window moved on. */
  ghost function Logged(w: Work, log: seq<LineWrite>, c: nat, y: nat, height: nat): seq<LineWrite>
    requires c < |w.configs| == |w.finals| && |w.finals[c]| == height && y < height
  {
    var first := FirstHeld(w.configs[c].enablePromotion, y);
    if first < FirstHeld(w.configs[c].enablePromotion, y + 1) then
      log + [LineWrite(c * height + first, PackedLine(w.finals[c][first]))]
    else log
  }

  ghost function CellsAfter(w: Work, cells: seq<(nat, nat)>, c: nat, y: nat): seq<(nat, nat)>
    requires c < |w.configs|
  {
    var first := FirstHeld(w.configs[c].enablePromotion, y);
    if first < FirstHeld(w.configs[c].enablePromotion, y + 1) then cells + [(c, first)] else cells
  }

  lemma LoggedStep(w: Work, log: seq<LineWrite>, cells: seq<(nat, nat)>, c: nat, y: nat, height: nat)
    requires c < |w.configs| == |w.finals| && |w.finals[c]| == height && y < height
    requires Emitted(log, cells, w.finals, height, Held(w.configs, c, y))
    ensures Emitted(Logged(w, log, c, y, height), CellsAfter(w, cells, c, y), w.finals, height,
                    Held(w.configs, c + 1, y))
  {
    var held := Held(w.configs, c, y);
    var moved := FirstHeld(w.configs[c].enablePromotion, y + 1);
    assert Held(w.configs, c + 1, y) == held[c := moved];
    if held[c] < moved {
      EmittedOne(log, cells, w.finals, height, held, c);
    } else {
      assert held[c := moved] == held;
    }
  }

  lemma HeldWraps(configs: seq<ScreenChannel>, y: nat)
    ensures Held(configs, |configs|, y) == Held(configs, 0, y + 1)
  {
  }

  /** Row y of channel c. */
  method ScreenCell(state: ScreenState, strip: seq<Tone>, toneBase: nat, width: nat, height: nat, c: nat, y: nat,
                    parameters: map<string, int>, writer: Writer, ghost w: Work)
    returns (ok: bool)
    requires w.Shaped(|w.configs|, width, height) && y < height && c < |w.configs| && ChannelAt(state, w, c, y)
    requires toneBase + width <= |strip| && RowReady(w, parameters, strip[toneBase..toneBase + width], c, y)
    requires writer.Valid() && writer.metadata.height == height
    modifies state`rows, state.mask, writer`linesWritten, writer`log, writer`intact, writer.disk
    ensures writer.Valid() && old(writer.disk.faults) <= writer.disk.faults
    ensures ok ==> writer.intact == old(writer.intact) && ChannelAt(state, w, c, y + 1)
    ensures ok ==> writer.log == Logged(w, old(writer.log), c, y, height)
    ensures !ok ==> old(writer.disk.faults) < writer.disk.faults || !Accepts(writer, c + 1, width, height)
  {
    ok := ProcessRow(state, c, writer, strip, toneBase, width, height, y, parameters,
                     strip[toneBase..toneBase + width], w.frames[c], w.finals[c]);
  }

  /** The strip's row at `toneBase` is row y of channel c. */
  ghost predicate SliceReady(w: Work, parameters: map<string, int>, tones: seq<seq<Tone>>, toneBase: nat, width: nat,
                             c: nat, y: nat)
    requires c < |w.configs| == |w.masks| == |w.offsets| == |w.frames| == |w.finals| == |tones|
  {
    toneBase + width <= |tones[c]| && RowReady(w, parameters, tones[c][toneBase..toneBase + width], c, y)
  }

  ghost predicate StripRowReady(w: Work, parameters: map<string, int>, tones: seq<seq<Tone>>, toneBase: nat,
                                width: nat, y: nat)
    requires |w.configs| == |w.masks| == |w.offsets| == |w.frames| == |w.finals| == |tones|
  {
    forall c: nat {:trigger SliceReady(w, parameters, tones, toneBase, width, c, y)} :: c < |tones| ==>
      SliceReady(w, parameters, tones, toneBase, width, c, y)
  }

  /** Everything that holds between two channel rows: channels below c are one row ahead. */
  ghost predicate InStep(states: seq<ScreenState>, writer: Writer, w: Work, cells: seq<(nat, nat)>,
                         width: nat, height: nat, c: nat, y: nat)
    reads states, set s | s in states :: s.mask, writer, writer.disk
  {
    && w.Shaped(|states|, width, height) && Separate(states)
    && writer.Valid() && writer.metadata.height == height
    && (forall i: nat {:trigger ChannelAt(states[i], w, i, RowsDone(c, i, y))} :: i < |states| ==>
          ChannelAt(states[i], w, i, RowsDone(c, i, y)))
    && Emitted(writer.log, cells, w.finals, height, Held(w.configs, c, y))
  }

  method StepCell(state: ScreenState, ghost states: seq<ScreenState>, strip: seq<Tone>, toneBase: nat,
                  width: nat, height: nat, c: nat, y: nat, parameters: map<string, int>, writer: Writer,
                  cancel: CancelFlag, ghost w: Work, ghost cells: seq<(nat, nat)>)
    returns (ok: bool, ghost cells': seq<(nat, nat)>)
    requires InStep(states, writer, w, cells, width, height, c, y) && y < height && c < |states| && state == states[c]
    requires toneBase + width <= |strip| && RowReady(w, parameters, strip[toneBase..toneBase + width], c, y)
    modifies state`rows, state.mask, writer`linesWritten, writer`log, writer`intact, writer.disk, cancel`raises
    ensures writer.Valid() && old(writer.disk.faults) <= writer.disk.faults
    ensures old(cancel.raises) <= cancel.raises
    ensures ok ==> InStep(states, writer, w, cells', width, height, c + 1, y) && writer.intact == old(writer.intact)
    ensures !ok ==>
              || cancel.Raised() || old(writer.disk.faults) < writer.disk.faults
              || !Accepts(writer, |states|, width, height)
  {
    var canceled := cancel.Poll();
    if canceled {
      return false, cells;
    }
    ok, cells' := TakeCell(state, states, strip, toneBase, width, height, c, y, parameters, writer, w, cells);
  }

  method TakeCell(state: ScreenState, ghost states: seq<ScreenState>, strip: seq<Tone>, toneBase: nat,
                  width: nat, height: nat, c: nat, y: nat, parameters: map<string, int>, writer: Writer,
                  ghost w: Work, ghost cells: seq<(nat, nat)>)
    returns (ok: bool, ghost cells': seq<(nat, nat)>)
    requires InStep(states, writer, w, cells, width, height, c, y) && y < height && c < |states| && state == states[c]
    requires toneBase + width <= |strip| && RowReady(w, parameters, strip[toneBase..toneBase + width], c, y)
    modifies state`rows, state.mask, writer`linesWritten, writer`log, writer`intact, writer.disk
    ensures writer.Valid() && old(writer.disk.faults) <= writer.disk.faults
    ensures ok ==> InStep(states, writer, w, cells', width, height, c + 1, y) && writer.intact == old(writer.intact)
    ensures !ok ==> old(writer.disk.faults) < writer.disk.faults || !Accepts(writer, |states|, width, height)
  {
    LoggedStep(w, writer.log, cells, c, y, height);
    assert ChannelAt(states[c], w, c, RowsDone(c, c, y));
    assert forall i: nat :: i < |states| && i != c ==> ChannelAt(states[i], w, i, RowsDone(c, i, y));
    ok := ScreenCell(state, strip, toneBase, width, height, c, y, parameters, writer, w);
    cells' := CellsAfter(w, cells, c, y);
  }

  lemma SliceIsReady(w: Work, parameters: map<string, int>, tones: seq<seq<Tone>>, toneBase: nat, width: nat, c: nat,
                     y: nat)
    requires |w.configs| == |w.masks| == |w.offsets| == |w.frames| == |w.finals| == |tones| && c < |tones|
    requires StripRowReady(w, parameters, tones, toneBase, width, y)
    ensures toneBase + width <= |tones[c]|
    ensures RowReady(w, parameters, tones[c][toneBase..toneBase + width], c, y)
  {
    assert SliceReady(w, parameters, tones, toneBase, width, c, y);
  }

  /** Row `k` of a strip starting at raster row `first`. */
  ghost predicate LocalRowReady(w: Work, parameters: map<string, int>, tones: seq<seq<Tone>>, width: nat, first: nat,
                                k: nat)
    requires |w.configs| == |w.masks| == |w.offsets| == |w.frames| == |w.finals| == |tones|
  {
    0 <= k * width && StripRowReady(w, parameters, tones, k * width, width, first + k)
  }

  /** Row `localRow` of a strip that starts at raster row `first`, across all channels. */
  method ScreenAcross(states: seq<ScreenState>, tones: seq<seq<Tone>>, first: nat, localRow: nat, width: nat,
                      height: nat, parameters: map<string, int>, writer: Writer, cancel: CancelFlag,
                      ghost w: Work, ghost cells: seq<(nat, nat)>)
    returns (ok: bool, ghost cells': seq<(nat, nat)>)
    requires InStep(states, writer, w, cells, width, height, 0, first + localRow) && first + localRow < height
    requires |tones| == |states| && LocalRowReady(w, parameters, tones, width, first, localRow)
    modifies states, set s | s in states :: s.mask, writer`linesWritten, writer`log, writer`intact, writer.disk,
             cancel`raises
    ensures writer.Valid() && old(writer.disk.faults) <= writer.disk.faults
    ensures old(cancel.raises) <= cancel.raises
    ensures ok ==> InStep(states, writer, w, cells', width, height, 0, first + localRow + 1)
    ensures ok ==> writer.intact == old(writer.intact)
    ensures !ok ==>
              || cancel.Raised() || old(writer.disk.faults) < writer.disk.faults
              || !Accepts(writer, |states|, width, height)
  {
    cells' := cells;
    var y, toneBase := first + localRow, localRow * width;
    assert StripRowReady(w, parameters, tones, toneBase, width, y);
    var c := 0;
    ok := true;
    while c < |states|
      invariant 0 <= c <= |states| && ok
      invariant old(writer.disk.faults) <= writer.disk.faults
      invariant old(cancel.raises) <= cancel.raises
      invariant writer.intact == old(writer.intact)
      invariant InStep(states, writer, w, cells', width, height, c, y)
    {
      SliceIsReady(w, parameters, tones, toneBase, width, c, y);
      ok, cells' := StepCell(states[c], states, tones[c], toneBase, width, height, c, y, parameters, writer, cancel, w,
        cells');
      if !ok {
        return;
      }
      c := c + 1;
    }
    StepWraps(states, writer, w, cells', width, height, y);
  }

  lemma StepWraps(states: seq<ScreenState>, writer: Writer, w: Work, cells: seq<(nat, nat)>, width: nat, height: nat,
                  y: nat)
    requires InStep(states, writer, w, cells, width, height, |states|, y)
    ensures InStep(states, writer, w, cells, width, height, 0, y + 1)
  {
    HeldWraps(w.configs, y);
    assert forall i: nat :: i < |states| ==> ChannelAt(states[i], w, i, RowsDone(|states|, i, y));
  }

  /** A delivered strip shows its rows of the planes. */
  lemma StripReady(plan: ScreenPlan, w: Work, tones: seq<seq<Tone>>, first: nat, count: nat, k: nat)
    requires w.For(plan) && first + count <= plan.height && k < count
    requires WellSized(tones, |plan.planes|, count * plan.width)
    requires StripOf(tones, plan.planes, plan.width, plan.height, first, count)
    ensures LocalRowReady(w, plan.parameters, tones, plan.width, first, k)
  {
    var toneBase := k * plan.width;
    RowsApart(k, count, plan.width);
    forall c: nat {:trigger SliceReady(w, plan.parameters, tones, toneBase, plan.width, c, first + k)} | c < |tones|
      ensures SliceReady(w, plan.parameters, tones, toneBase, plan.width, c, first + k)
    {
      WorkRow(plan, w, c, first + k);
      assert Row(tones[c], plan.width, count, k) == Row(plan.planes[c], plan.width, plan.height, first + k);
    }
  }

  /** All rows of one strip. */
  method ScreenStrip(states: seq<ScreenState>, tones: seq<seq<Tone>>, width: nat, height: nat, first: nat, count: nat,
                     parameters: map<string, int>, writer: Writer, cancel: CancelFlag,
                     ghost w: Work, ghost cells: seq<(nat, nat)>)
    returns (ok: bool, ghost cells': seq<(nat, nat)>)
    requires first + count <= height && |tones| == |states|
    requires InStep(states, writer, w, cells, width, height, 0, first)
    requires forall k: nat {:trigger LocalRowReady(w, parameters, tones, width, first, k)} :: k < count ==>
               LocalRowReady(w, parameters, tones, width, first, k)
    modifies states, set s | s in states :: s.mask, writer`linesWritten, writer`log, writer`intact, writer.disk,
             cancel`raises
    ensures writer.Valid() && old(writer.disk.faults) <= writer.disk.faults
    ensures old(cancel.raises) <= cancel.raises
    ensures ok ==>
              InStep(states, writer, w, cells', width, height, 0, first + count) && writer.intact == old(writer.intact)
    ensures !ok ==>
              || cancel.Raised() || old(writer.disk.faults) < writer.disk.faults
              || !Accepts(writer, |states|, width, height)
  {
    ok, cells' := true, cells;
    var localRow := 0;
    while localRow < count
      invariant 0 <= localRow <= count && ok
      invariant old(writer.disk.faults) <= writer.disk.faults
      invariant old(cancel.raises) <= cancel.raises
      invariant writer.intact == old(writer.intact)
      invariant InStep(states, writer, w, cells', width, height, 0, first + localRow)
    {
      assert LocalRowReady(w, parameters, tones, width, first, localRow);
      ok, cells' := ScreenAcross(states, tones, first, localRow, width, height, parameters, writer, cancel, w, cells');
      if !ok {
        return;
      }
      localRow := localRow + 1;
    }
  }

  /** Opens every channel's mask and places its offset. */
  method OpenStates(channels: seq<ScreenChannel>, masks: map<string, Mask>, seed: bv32)
    returns (ok: bool, states: seq<ScreenState>)
    ensures fresh(set s | s in states :: s) && fresh(set s | s in states :: s.mask)
    ensures ok <==> forall c :: 0 <= c < |channels| ==>
              channels[c].maskPath in masks && masks[channels[c].maskPath].Valid()
    ensures ok ==> |states| == |channels|
    ensures ok ==> forall c :: 0 <= c < |states| ==>
              && states[c].Valid() && states[c].rows == [] && states[c].config == channels[c]
              && states[c].mask.mask == masks[channels[c].maskPath]
              && states[c].offset == OffsetFor(masks[channels[c].maskPath], c, seed)
    ensures ok ==> Separate(states)
  {
    ok, states := true, [];
    var c := 0;
    while c < |channels|
      invariant 0 <= c <= |channels| && ok && |states| == c
      invariant forall s :: s in states ==> fresh(s) && fresh(s.mask)
      invariant forall i :: 0 <= i < c ==> channels[i].maskPath in masks && masks[channels[i].maskPath].Valid()
      invariant forall i :: 0 <= i < c ==>
                  && states[i].Valid() && states[i].rows == [] && states[i].config == channels[i]
                  && states[i].mask.mask == masks[channels[i].maskPath]
                  && states[i].offset == OffsetFor(masks[channels[i].maskPath], i, seed)
      invariant Separate(states)
    {
      if channels[c].maskPath !in masks || !masks[channels[c].maskPath].Valid() {
        return false, states;
      }
      var mask := masks[channels[c].maskPath];
      var rows := new MaskRows(mask);
      var state := new ScreenState(channels[c], rows, OffsetFor(mask, c, seed));
      states := states + [state];
      c := c + 1;
    }
  }

  lemma StatesStart(states: seq<ScreenState>, writer: Writer, plan: ScreenPlan, w: Work)
    requires w.For(plan) && Separate(states) && |states| == |plan.channels|
    requires forall c :: 0 <= c < |states| ==>
               && states[c].Valid() && states[c].rows == [] && states[c].config == plan.channels[c]
               && states[c].mask.mask == plan.masks[plan.channels[c].maskPath]
               && states[c].offset == OffsetFor(plan.masks[plan.channels[c].maskPath], c, plan.seed)
    requires writer.Valid() && writer.metadata.height == plan.height && writer.log == []
    ensures InStep(states, writer, w, [], plan.width, plan.height, 0, 0)
  {
    forall i: nat | i < |states|
      ensures ChannelAt(states[i], w, i, RowsDone(0, i, 0))
    {
      assert w.masks[i] == plan.MaskOf(i) && w.offsets[i] == plan.OffsetOf(i);
    }
  }

  /** Why a request cannot be screened. */
  ghost predicate Refused(width: int, height: int, channels: seq<ScreenChannel>, masks: map<string, Mask>,
                          writer: Writer)
    reads writer
  {
    || width <= 0 || height <= 0 || channels == []
    || (exists c :: 0 <= c < |channels| && !(channels[c].maskPath in masks && masks[channels[c].maskPath].Valid()))
    || !Accepts(writer, |channels|, width, height)
  }

  /** The provider fails, or delivers the wrong amount, for some strip of the raster. */
  ghost predicate ProviderFails(provider: ToneProvider, channels: nat, width: nat, height: nat) {
    exists first: nat, count: nat :: 0 < count && first + count <= height &&
      (provider(first, count).None? || !WellSized(provider(first, count).value, channels, count * width))
  }

  /** Screens a raster strip by strip into an empty spool. On success every line of the spool has been
      written exactly once, with the bytes the plan prescribes, whatever the strip height was. */
  method ScreenToSpool(width: int, height: int, seed: bv32, parameters: map<string, int>, channels: seq<ScreenChannel>,
                       masks: map<string, Mask>, provider: ToneProvider, writer: Writer, cancel: CancelFlag,
                       requestedRows: int, ghost planes: seq<seq<Tone>>)
    returns (ok: bool)
    requires writer.Valid() && writer.log == []
    requires 0 < width && 0 < height ==>
               && writer.metadata.height == height && |planes| == |channels|
               && (forall c :: 0 <= c < |planes| ==> |planes[c]| == height * width)
               && SlicesPlanes(provider, planes, width, height)
    modifies writer`linesWritten, writer`log, writer`intact, writer.disk, cancel`raises
    ensures writer.Valid() && old(writer.disk.faults) <= writer.disk.faults
    ensures old(cancel.raises) <= cancel.raises
    ensures ok ==> 0 < width && 0 < height && writer.intact == old(writer.intact)
    ensures ok ==> var plan := ScreenPlan(width, height, seed, parameters, channels, masks, planes);
                   plan.Valid() && WritesOnce(writer.log, Flatten(plan.Lines()))
    ensures !ok ==>
              cancel.Raised() || old(writer.disk.faults) < writer.disk.faults ||
              Refused(width, height, channels, masks, writer) ||
              ProviderFails(provider, |channels|, width, height)
  {
    if width <= 0 || height <= 0 || |channels| == 0 {
      return false;
    }
    var states;
    ok, states := OpenStates(channels, masks, seed);
    if !ok {
      return;
    }
    ghost var plan := ScreenPlan(width, height, seed, parameters, channels, masks, planes);
    ghost var w := WorkOf(plan);
    StatesStart(states, writer, plan, w);
    ghost var cells;
    ok, cells := ScreenRaster(states, width, height, parameters, |channels|, provider, writer, cancel, requestedRows,
      plan, w);
    if !ok {
      return;
    }
    ok := FlushAll(states, width, height, writer, plan, w, cells);
  }

  method ScreenRaster(states: seq<ScreenState>, width: nat, height: nat, parameters: map<string, int>,
                      channelCount: nat, provider: ToneProvider, writer: Writer, cancel: CancelFlag, requestedRows: int,
                      ghost plan: ScreenPlan, ghost w: Work)
    returns (ok: bool, ghost cells: seq<(nat, nat)>)
    requires w.For(plan) && plan.width == width && plan.height == height && plan.parameters == parameters
    requires channelCount == |states| == |plan.planes|
    requires InStep(states, writer, w, [], width, height, 0, 0)
    requires SlicesPlanes(provider, plan.planes, width, height)
    modifies states, set s | s in states :: s.mask, writer`linesWritten, writer`log, writer`intact, writer.disk,
             cancel`raises
    ensures writer.Valid() && old(writer.disk.faults) <= writer.disk.faults
    ensures old(cancel.raises) <= cancel.raises
    ensures ok ==> InStep(states, writer, w, cells, width, height, 0, height) && writer.intact == old(writer.intact)
    ensures !ok ==>
              cancel.Raised() || old(writer.disk.faults) < writer.disk.faults ||
              !Accepts(writer, |states|, width, height) ||
              ProviderFails(provider, |states|, width, height)
  {
    var stripRows := Min(Clamp(requestedRows, 1, MAXIMUM_STRIP_ROWS),
                         BoundedRowsForWidth(width, 16 + 2 * channelCount, 96 * MIB));
    ok, cells := true, [];
    var first := 0;
    while first < height
      invariant 0 <= first <= height && ok
      invariant old(writer.disk.faults) <= writer.disk.faults
      invariant old(cancel.raises) <= cancel.raises
      invariant writer.intact == old(writer.intact)
      invariant InStep(states, writer, w, cells, width, height, 0, first)
    {
      var count := Min(stripRows, height - first);
      ok, cells := PullStrip(states, width, height, first, count, parameters, channelCount, provider, writer, cancel,
        plan, w, cells);
      if !ok {
        return;
      }
      first := first + count;
    }
  }

  /** Asks for one strip, checks it and screens it. */
  method PullStrip(states: seq<ScreenState>, width: nat, height: nat, first: nat, count: nat,
                   parameters: map<string, int>,
                   channelCount: nat, provider: ToneProvider, writer: Writer, cancel: CancelFlag,
                   ghost plan: ScreenPlan, ghost w: Work, ghost cells: seq<(nat, nat)>)
    returns (ok: bool, ghost cells': seq<(nat, nat)>)
    requires w.For(plan) && plan.width == width && plan.height == height && plan.parameters == parameters
    requires channelCount == |states| == |plan.planes| && 0 < count && first + count <= height
    requires InStep(states, writer, w, cells, width, height, 0, first)
    requires SlicesPlanes(provider, plan.planes, width, height)
    modifies states, set s | s in states :: s.mask, writer`linesWritten, writer`log, writer`intact, writer.disk,
             cancel`raises
    ensures writer.Valid() && old(writer.disk.faults) <= writer.disk.faults
    ensures old(cancel.raises) <= cancel.raises
    ensures ok ==>
              InStep(states, writer, w, cells', width, height, 0, first + count) && writer.intact == old(writer.intact)
    ensures !ok ==>
              cancel.Raised() || old(writer.disk.faults) < writer.disk.faults ||
              !Accepts(writer, |states|, width, height) ||
              ProviderFails(provider, |states|, width, height)
  {
    cells' := cells;
    var canceled := cancel.Poll();
    if canceled {
      return false, cells;
    }
    var delivered := provider(first, count);
    if delivered.None? || !WellSized(delivered.value, channelCount, count * width) {
      return false, cells;
    }
    StripAllReady(plan, w, delivered.value, first, count);
    ok, cells' := ScreenStrip(states, delivered.value, width, height, first, count, parameters, writer, cancel, w,
      cells);
  }

  lemma StripAllReady(plan: ScreenPlan, w: Work, tones: seq<seq<Tone>>, first: nat, count: nat)
    requires w.For(plan) && first + count <= plan.height
    requires WellSized(tones, |plan.planes|, count * plan.width)
    requires StripOf(tones, plan.planes, plan.width, plan.height, first, count)
    ensures forall k: nat {:trigger LocalRowReady(w, plan.parameters, tones, plan.width, first, k)} :: k < count ==>
              LocalRowReady(w, plan.parameters, tones, plan.width, first, k)
  {
    forall k: nat | k < count
      ensures LocalRowReady(w, plan.parameters, tones, plan.width, first, k)
    {
      StripReady(plan, w, tones, first, count, k);
    }
  }

  /** The deque holds exactly the rows from `from` on, all as they will be emitted. */
  ghost predicate Pending(rows: seq<ScreenRow>, final: seq<seq<Dot>>, from: nat) {
    && |rows| + from == |final|
    && forall k :: 0 <= k < |rows| ==> rows[k].y == from + k && rows[k].dots == final[from + k]
  }

  method FlushChannel(state: ScreenState, c: nat, width: nat, height: nat, writer: Writer,
                      ghost finals: seq<seq<seq<Dot>>>, ghost held: seq<nat>, ghost cells: seq<(nat, nat)>)
    returns (ok: bool, ghost cells': seq<(nat, nat)>)
    requires Emitted(writer.log, cells, finals, height, held) && c < |finals| && Pending(state.rows, finals[c], held[c])
    requires forall y :: 0 <= y < height ==> |finals[c][y]| == width
    requires writer.Valid() && writer.metadata.height == height
    modifies state`rows, writer`linesWritten, writer`log, writer`intact, writer.disk
    ensures writer.Valid() && old(writer.disk.faults) <= writer.disk.faults
    ensures ok ==> Emitted(writer.log, cells', finals, height, held[c := height]) && writer.intact == old(writer.intact)
    ensures !ok ==> old(writer.disk.faults) < writer.disk.faults || !Accepts(writer, c + 1, width, height)
  {
    ok, cells' := true, cells;
    ghost var h: seq<nat> := held;
    while |state.rows| > 0
      invariant ok && writer.Valid() && old(writer.disk.faults) <= writer.disk.faults
      invariant writer.intact == old(writer.intact)
      invariant |h| == |held| && h == held[c := h[c]] && Pending(state.rows, finals[c], h[c])
      invariant Emitted(writer.log, cells', finals, height, h)
    {
      EmittedOne(writer.log, cells', finals, height, h, c);
      ok := EmitFrontRow(state, c, writer);
      if !ok {
        return;
      }
      cells', h := cells' + [(c, h[c])], h[c := h[c] + 1];
    }
  }

  ghost predicate PendingFrom(state: ScreenState, final: seq<seq<Dot>>, from: nat)
    reads state
  {
    Pending(state.rows, final, from)
  }

  lemma AllPending(states: seq<ScreenState>, writer: Writer, plan: ScreenPlan, w: Work, cells: seq<(nat, nat)>)
    requires w.For(plan) && InStep(states, writer, w, cells, plan.width, plan.height, 0, plan.height)
    ensures forall i: nat {:trigger PendingFrom(states[i], w.finals[i], Held(w.configs, 0, plan.height)[i])} ::
            i < |states| ==>
              PendingFrom(states[i], w.finals[i], Held(w.configs, 0, plan.height)[i])
    ensures forall i, y :: 0 <= i < |states| && 0 <= y < plan.height ==> |w.finals[i][y]| == plan.width
  {
    forall i: nat | i < |states|
      ensures PendingFrom(states[i], w.finals[i], Held(w.configs, 0, plan.height)[i])
      ensures forall y :: 0 <= y < plan.height ==> |w.finals[i][y]| == plan.width
    {
      assert ChannelAt(states[i], w, i, RowsDone(0, i, plan.height));
      assert w.frames[i] == plan.FrameOf(i) && w.finals[i] == plan.FinalOf(i);
      HeldRowsFinal(states[i].rows, w.configs[i], ReadParameters(plan.parameters), w.frames[i], w.finals[i]);
    }
  }

  /** Emits the rows every channel still holds. */
  method FlushAll(states: seq<ScreenState>, width: nat, height: nat, writer: Writer,
                  ghost plan: ScreenPlan, ghost w: Work, ghost cells: seq<(nat, nat)>)
    returns (ok: bool)
    requires w.For(plan) && plan.width == width && plan.height == height
    requires InStep(states, writer, w, cells, width, height, 0, height)
    modifies states, writer`linesWritten, writer`log, writer`intact, writer.disk
    ensures writer.Valid() && old(writer.disk.faults) <= writer.disk.faults
    ensures ok ==> writer.intact == old(writer.intact) && WritesOnce(writer.log, Flatten(plan.Lines()))
    ensures !ok ==> old(writer.disk.faults) < writer.disk.faults || !Accepts(writer, |states|, width, height)
  {
    AllPending(states, writer, plan, w, cells);
    ghost var held := Held(w.configs, 0, height);
    ok := FlushStates(states, width, height, writer, w.finals, held, cells, plan);
  }

  method FlushStates(states: seq<ScreenState>, width: nat, height: nat, writer: Writer,
                     ghost finals: seq<seq<seq<Dot>>>, ghost start: seq<nat>, ghost cells: seq<(nat, nat)>,
                       ghost plan: ScreenPlan)
    returns (ok: bool)
    requires 0 < height && Separate(states) && writer.Valid() && writer.metadata.height == height
    requires Emitted(writer.log, cells, finals, height, start) && |finals| == |states|
    requires forall i, y :: 0 <= i < |states| && 0 <= y < height ==> |finals[i][y]| == width
    requires forall i: nat {:trigger PendingFrom(states[i], finals[i], start[i])} :: i < |states| ==>
               PendingFrom(states[i], finals[i], start[i])
    requires plan.Valid() && |finals| == |plan.channels|
    requires forall c {:trigger plan.FinalOf(c)} :: 0 <= c < |finals| ==> finals[c] == plan.FinalOf(c)
    modifies states, writer`linesWritten, writer`log, writer`intact, writer.disk
    ensures writer.Valid() && old(writer.disk.faults) <= writer.disk.faults
    ensures ok ==> writer.intact == old(writer.intact) && WritesOnce(writer.log, Flatten(plan.Lines()))
    ensures !ok ==> old(writer.disk.faults) < writer.disk.faults || !Accepts(writer, |states|, width, height)
  {
    ok := true;
    ghost var held: seq<nat> := start;
    ghost var cells' := cells;
    var c := 0;
    while c < |states|
      invariant ok && 0 <= c <= |states| && writer.Valid() && old(writer.disk.faults) <= writer.disk.faults
      invariant writer.intact == old(writer.intact)
      invariant Emitted(writer.log, cells', finals, height, held)
      invariant forall i :: 0 <= i < c ==> held[i] == height
      invariant forall i :: c <= i < |states| ==> held[i] == start[i]
      invariant forall i: nat {:trigger PendingFrom(states[i], finals[i], start[i])} :: c <= i < |states| ==>
                  PendingFrom(states[i], finals[i], start[i])
    {
      assert PendingFrom(states[c], finals[c], start[c]);
      ok, cells' := FlushChannel(states[c], c, width, height, writer, finals, held, cells');
      if !ok {
        return;
      }
      held := held[c := height];
      c := c + 1;
    }
    EmittedAll(writer.log, cells', finals, height, held, plan.Lines());
  }
}
