/** The in-memory raster transfer: plane-lines in physical row order, and back into logical planes. */
module RasterProtocol {
  import opened Arithmetic
  import opened RasterTypes
  import opened ByteCodec
  import opened SpoolBody

  const MAXIMUM_FRAME_SIZE: int := 512 * MIB

  /** The metadata that travels beside the payload. */
  datatype RasterInfo = RasterInfo(
    width: Int32,
    height: Int32,
    xdpi: Int32,
    ydpi: Int32,
    bytesPerLine: Int32,
    format: Int32,
    channels: seq<Int32>,
    canonicalHeader: seq<UInt32>)

  /** Lines by logical channel and row. */
  type PlaneLines = seq<seq<seq<Byte>>>

  datatype Raster = Raster(info: RasterInfo, lines: PlaneLines)

  /** The narrowing of a container size to a signed 32-bit integer. */
  function Narrowed(n: nat): int {
    (n + 0x8000_0000) % 0x1_0000_0000 - 0x8000_0000
  }

  /** Size of the payload, in unsigned 64-bit arithmetic that may wrap around. */
  function CheckedSize(height: Int32, channelCount: int, bytesPerLine: Int32): (size: Option<nat>)
    ensures size.Some? ==> size.value <= MAXIMUM_FRAME_SIZE
  {
    if height <= 0 || channelCount <= 0 || bytesPerLine <= 0 then None
    else
      var total := Wrapped(Wrapped(height as int * channelCount) * bytesPerLine as int);
      if total > MAXIMUM_FRAME_SIZE then None else Some(total)
  }

  function Size(info: RasterInfo): Option<nat> {
    CheckedSize(info.height, Narrowed(|info.channels|), info.bytesPerLine)
  }

  /** Plane-line `row` of `channel` is there and has the declared size. */
  predicate HasLine(r: Raster, channel: Int32, row: nat) {
    && 0 <= channel < |r.lines| && row < |r.lines[channel]|
    && |r.lines[channel][row]| == r.info.bytesPerLine as int
  }

  /** The plane-line, if it is there. */
  function Line(r: Raster, channel: Int32, row: nat): Option<seq<Byte>> {
    if HasLine(r, channel, row) then Some(r.lines[channel][row]) else None
  }

  predicate Complete(r: Raster) {
    forall row: nat, j: nat ::
        row < r.info.height as int && j < |r.info.channels| ==> HasLine(r, r.info.channels[j], row)
  }

  /** The lines of one row in physical order. */
  function RowLines(r: Raster, row: nat): (lines: seq<seq<Byte>>)
    requires forall j: nat :: j < |r.info.channels| ==> HasLine(r, r.info.channels[j], row)
    ensures |lines| == |r.info.channels|
  {
    seq(|r.info.channels|, j requires 0 <= j < |r.info.channels| =>
      assert HasLine(r, r.info.channels[j], row); r.lines[r.info.channels[j]][row])
  }

  /** The lines of the first `rows` rows, row after row. */
  function LinesUpTo(r: Raster, rows: nat): seq<seq<Byte>>
    requires rows <= r.info.height as int && Complete(r)
  {
    if rows == 0 then [] else LinesUpTo(r, rows - 1) + RowLines(r, rows - 1)
  }

  /** What serialization yields. */
  function Serialized(r: Raster): Option<seq<Byte>> {
    if Size(r.info).None? || !Complete(r) then None
    else
      var payload := Concat(LinesUpTo(r, r.info.height as int));
      if |payload| == Size(r.info).value then Some(payload) else None
  }

  /** Appends line after line; any missing or misshapen line spoils the payload. */
  method SerializeRaster(r: Raster) returns (payload: Option<seq<Byte>>)
    ensures payload == Serialized(r)
  {
    var total := Size(r.info);
    if total.None? {
      return None;
    }
    var bytes, row := [], 0;
    while row < r.info.height as int
      invariant 0 <= row <= r.info.height as int
      invariant forall y: nat, j: nat :: y < row && j < |r.info.channels| ==> HasLine(r, r.info.channels[j], y)
      invariant bytes == Concat(PrefixLines(r, row))
    {
      var ok;
      ok, bytes := AppendRow(r, row, bytes);
      if !ok {
        return None;
      }
      PrefixGrows(r, row);
      row := row + 1;
    }
    PrefixIsAll(r, row);
    payload := if |bytes| == total.value then Some(bytes) else None;
  }

  /** As LinesUpTo, while the rows below have not been looked at yet. */
  ghost function PrefixLines(r: Raster, rows: nat): seq<seq<Byte>>
    requires forall y: nat, j: nat :: y < rows && j < |r.info.channels| ==> HasLine(r, r.info.channels[j], y)
  {
    if rows == 0 then [] else PrefixLines(r, rows - 1) + RowLines(r, rows - 1)
  }

  lemma PrefixGrows(r: Raster, row: nat)
    requires forall y: nat, j: nat :: y < row + 1 && j < |r.info.channels| ==> HasLine(r, r.info.channels[j], y)
    ensures Concat(PrefixLines(r, row + 1)) == Concat(PrefixLines(r, row)) + Concat(RowLines(r, row))
  {
    ConcatAppend(PrefixLines(r, row), RowLines(r, row));
  }

  lemma {:induction false} PrefixIsAll(r: Raster, rows: nat)
    requires rows <= r.info.height as int
    requires forall y: nat, j: nat :: y < rows && j < |r.info.channels| ==> HasLine(r, r.info.channels[j], y)
    ensures Complete(r) ==> PrefixLines(r, rows) == LinesUpTo(r, rows)
  {
    if rows > 0 {
      PrefixIsAll(r, rows - 1);
    }
  }

  lemma {:induction false} ConcatAppend(a: seq<seq<Byte>>, b: seq<seq<Byte>>)
    ensures Concat(a + b) == Concat(a) + Concat(b)
  {
    if a == [] {
      assert a + b == b;
    } else {
      ConcatAppend(a[1..], b);
      assert (a + b)[1..] == a[1..] + b;
    }
  }

  method AppendRow(r: Raster, row: nat, before: seq<Byte>) returns (ok: bool, bytes: seq<Byte>)
    ensures ok <==> forall j: nat :: j < |r.info.channels| ==> HasLine(r, r.info.channels[j], row)
    ensures ok ==> bytes == before + Concat(RowLines(r, row))
  {
    bytes := before;
    ghost var done: seq<seq<Byte>> := [];
    var j := 0;
    while j < |r.info.channels|
      invariant 0 <= j <= |r.info.channels| == |r.info.channels|
      invariant forall i: nat :: i < j ==> HasLine(r, r.info.channels[i], row)
      invariant |done| == j && forall i: nat :: i < j ==> done[i] == r.lines[r.info.channels[i]][row]
      invariant bytes == before + Concat(done)
    {
      var channel := r.info.channels[j];
      if !HasLine(r, channel, row) {
        return false, [];
      }
      var line := r.lines[channel][row];
      ConcatAppend(done, [line]);
      assert Concat([line]) == line;
      done, bytes := done + [line], bytes + line;
      j := j + 1;
    }
    assert done == RowLines(r, row);
    ok := true;
  }

  /** Position of the last occurrence of a channel among the first n. */
  function LastAt(channels: seq<Int32>, n: nat, channel: Int32): (at: Option<nat>)
    requires n <= |channels|
    ensures at.Some? <==> channel in channels[..n]
    ensures at.Some? ==> at.value < n && channels[at.value] == channel
  {
    if n == 0 then None else if channels[n - 1] == channel then Some(n - 1) else LastAt(channels, n - 1, channel)
  }

  function Highest(channels: seq<Int32>, n: nat): (m: int)
    requires n <= |channels|
    ensures -1 <= m && forall j :: 0 <= j < n ==> channels[j] <= m
    ensures m == -1 || exists j :: 0 <= j < n && channels[j] == m
  {
    if n == 0 then -1 else Max(Highest(channels, n - 1), channels[n - 1])
  }

  /** Metadata and payload a receiver accepts. */
  predicate Acceptable(info: RasterInfo, payload: seq<Byte>) {
    && 0 <= info.format <= 2 && (forall channel :: channel in info.channels ==> 0 <= channel <= 15)
    && Size(info) == Some(|payload|) && |info.canonicalHeader| == 12
  }

  /** Bytes the header announces. */
  function Length(info: RasterInfo): int {
    info.height as int * |info.channels| * info.bytesPerLine as int
  }

  /** The payload's true size fits in 64 bits, so that the size check is exact. */
  predicate Bounded(info: RasterInfo) {
    |info.channels| <= INT_MAX && Length(info) <= U64_MAX
  }

  /** The payload holds height * channels lines. */
  predicate Shaped(info: RasterInfo, payload: seq<Byte>) {
    0 < info.bytesPerLine && 0 < info.height && |payload| == Length(info)
  }

  /** Line j of row y of a payload. */
  function PayloadLine(info: RasterInfo, payload: seq<Byte>, y: nat, j: nat): (line: seq<Byte>)
    requires Shaped(info, payload) && y < info.height as int && j < |info.channels|
    ensures |line| == info.bytesPerLine as int
  {
    CellInPlane(j, y, |info.channels|, info.height as int);
    LineFits(y * |info.channels| + j, info.height as int * |info.channels|, info.bytesPerLine as int);
    LineOf(payload, info.bytesPerLine as int, y * |info.channels| + j)
  }

  /** One row of storage after the first n lines of the row have been stored. */
  function RestoredCell(info: RasterInfo, payload: seq<Byte>, y: nat, n: nat, channel: Int32): seq<Byte>
    requires Shaped(info, payload) && y < info.height as int && n <= |info.channels|
  {
    match LastAt(info.channels, n, channel)
    case None => []
    case Some(j) => PayloadLine(info, payload, y, j)
  }

  /** The storage that belongs to a payload: each referenced plane-line from the last place that mentions its
      channel, and empty lines for channels no place mentions. */
  ghost predicate Restores(info: RasterInfo, payload: seq<Byte>, storage: PlaneLines)
    requires Shaped(info, payload)
  {
    && |storage| == Highest(info.channels, |info.channels|) + 1
    && (forall c :: 0 <= c < |storage| ==> |storage[c]| == info.height as int)
    && forall c, y :: 0 <= c < |storage| && 0 <= y < info.height as int && 0 <= c < 16 ==>
         storage[c][y] == RestoredCell(info, payload, y, |info.channels|, c)
  }

  /** What becomes of a received raster: it is refused, its loop runs past the end of the payload, or its lines
      are stored. */
  datatype Received = Rejected | Overruns | Stored(lines: PlaneLines)

  /** Stores line after line under its channel and row, without looking for the end of the payload. It runs past
      the end exactly when an accepted payload is not of the announced length, because it is then shorter. */
  method DeserializeRaster(info: RasterInfo, payload: seq<Byte>) returns (received: Received)
    ensures received.Rejected? <==> !Acceptable(info, payload)
    ensures received.Overruns? <==> Acceptable(info, payload) && !Shaped(info, payload)
    ensures received.Overruns? ==> |payload| < Length(info)
    ensures received.Stored? ==> Shaped(info, payload) && Restores(info, payload, received.lines)
  {
    if !Acceptable(info, payload) {
      return Rejected;
    }
    AcceptedLength(info, payload);
    var planes := seq(Highest(info.channels, |info.channels|) + 1, _ => seq(info.height as int, _ => []));
    var row, offset := 0, 0;
    while row < info.height as int
      invariant 0 <= row <= info.height as int && offset == LineStart(info, row, 0) <= |payload|
      invariant |planes| == Highest(info.channels, |info.channels|) + 1
      invariant forall c :: 0 <= c < |planes| ==> |planes[c]| == info.height as int
      invariant forall c, y :: 0 <= c < |planes| && row <= y < info.height as int ==> planes[c][y] == []
      invariant Shaped(info, payload) ==>
                  forall c, y :: 0 <= c < |planes| && 0 <= y < row && 0 <= c < 16 ==>
                    planes[c][y] == RestoredCell(info, payload, y, |info.channels|, c)
    {
      var ok;
      ok, planes, offset := StoreRow(info, payload, planes, row, offset);
      if !ok {
        return Overruns;
      }
      row := row + 1;
    }
    received := Stored(planes);
  }

  /** An accepted payload is as long as its header announces exactly when the announced size fits in 64 bits and
      the channel count in 31; otherwise the check has compared the payload with a wrapped size. */
  lemma AcceptedShape(info: RasterInfo, payload: seq<Byte>)
    requires Acceptable(info, payload)
    ensures Shaped(info, payload) <==> Bounded(info)
  {
    var height, count, lineBytes := info.height as int, |info.channels|, info.bytesPerLine as int;
    if count <= INT_MAX {
      ProductGrows(0, height, count);
      ProductGrows(height, INT_MAX, count);
      Unwrapped(height * count);
      ProductGrows(0, height * count, lineBytes);
      WrapsUnlessFits(height * count * lineBytes);
    } else {
      AtLeastFactors(height, count, lineBytes);
    }
  }

  /** An accepted payload is never longer than its header announces. */
  lemma AcceptedLength(info: RasterInfo, payload: seq<Byte>)
    requires Acceptable(info, payload)
    ensures 0 < info.height && 0 < info.bytesPerLine && |payload| <= Length(info)
    ensures Shaped(info, payload) <==> |payload| == Length(info)
  {
    AcceptedShape(info, payload);
    var height, count, lineBytes := info.height as int, |info.channels|, info.bytesPerLine as int;
    AtLeastFactors(height, count, lineBytes);
  }

  /** Where line j of row `row` starts. */
  function LineStart(info: RasterInfo, row: nat, j: nat): int {
    (row * |info.channels| + j) * info.bytesPerLine as int
  }

  /** Every line lies within the announced length. */
  lemma LineInside(info: RasterInfo, payload: seq<Byte>, row: nat, j: nat)
    requires 0 < info.bytesPerLine && row < info.height as int && j < |info.channels|
    ensures LineStart(info, row, j) + info.bytesPerLine as int == LineStart(info, row, j + 1) <= Length(info)
    ensures Shaped(info, payload) ==>
              0 <= LineStart(info, row, j) &&
              payload[LineStart(info, row, j)..LineStart(info, row, j + 1)] == PayloadLine(info, payload, row, j)
  {
    CellInPlane(j, row, |info.channels|, info.height as int);
    LineFits(row * |info.channels| + j, info.height as int * |info.channels|, info.bytesPerLine as int);
  }

  /** The first line of a row follows the last one of the row before. */
  lemma RowEnds(info: RasterInfo, row: nat)
    ensures LineStart(info, row, |info.channels|) == LineStart(info, row + 1, 0)
  {
    assert (row + 1) * |info.channels| == row * |info.channels| + |info.channels|;
  }

  lemma WrapsUnlessFits(n: nat)
    ensures Wrapped(n) == n <==> n <= U64_MAX
  {
  }

  /** A header that is accepted with an empty payload although it announces 2^64 bytes. */
  lemma WrappedSizeAccepted()
    ensures exists info: RasterInfo :: Acceptable(info, []) && !Shaped(info, [])
  {
    var info := RasterInfo(1, 0x4000_0000, 720, 720, 0x4000_0000, 1, seq(16, _ => 0), seq(12, _ => 0));
    assert Narrowed(16) == 16;
    assert Wrapped(0x4000_0000 * 16) == 0x4_0000_0000 && Wrapped(0x4_0000_0000 * 0x4000_0000) == 0;
    assert Size(info) == Some(0);
    AcceptedShape(info, []);
  }

  method StoreRow(info: RasterInfo, payload: seq<Byte>, before: PlaneLines, row: nat, start: nat)
    returns (ok: bool, planes: PlaneLines, offset: nat)
    requires 0 < info.bytesPerLine && row < info.height as int && start == LineStart(info, row, 0) <= |payload|
    requires forall channel :: channel in info.channels ==> 0 <= channel <= 15
    requires |before| == Highest(info.channels, |info.channels|) + 1
    requires forall c :: 0 <= c < |before| ==> |before[c]| == info.height as int
    requires forall c :: 0 <= c < |before| ==> before[c][row] == []
    ensures |planes| == |before| && forall c :: 0 <= c < |planes| ==> |planes[c]| == info.height as int
    ensures forall c, y :: 0 <= c < |planes| && 0 <= y < info.height as int && y != row ==> planes[c][y] == before[c][y]
    ensures ok ==> offset == LineStart(info, row + 1, 0) <= |payload|
    ensures ok && Shaped(info, payload) ==>
              forall c :: 0 <= c < |planes| && c < 16 ==>
                planes[c][row] == RestoredCell(info, payload, row, |info.channels|, c)
    ensures !ok ==> |payload| < Length(info)
  {
    ok, planes, offset := true, before, start;
    var j := 0;
    while j < |info.channels|
      invariant ok && 0 <= j <= |info.channels| && |planes| == |before|
      invariant offset == LineStart(info, row, j) <= |payload|
      invariant forall c :: 0 <= c < |planes| ==> |planes[c]| == info.height as int
      invariant Shaped(info, payload) ==>
                  forall c :: 0 <= c < |planes| && c < 16 ==>
                    planes[c][row] == RestoredCell(info, payload, row, j, c)
      invariant forall c, y :: 0 <= c < |planes| && 0 <= y < info.height as int && y != row ==>
                  planes[c][y] == before[c][y]
    {
      LineInside(info, payload, row, j);
      if |payload| < offset + info.bytesPerLine as int {
        return false, planes, offset;
      }
      var channel := info.channels[j];
      assert channel in info.channels;
      var line := payload[offset..offset + info.bytesPerLine as int];
      planes := planes[channel := planes[channel][row := line]];
      offset, j := offset + info.bytesPerLine as int, j + 1;
    }
    RowEnds(info, row);
  }

  lemma {:induction false} LinesUpToAt(r: Raster, rows: nat, y: nat, j: nat)
    requires rows <= r.info.height as int && Complete(r) && y < rows && j < |r.info.channels|
    ensures |LinesUpTo(r, rows)| == rows * |r.info.channels|
    ensures 0 <= y * |r.info.channels| + j < |LinesUpTo(r, rows)|
    ensures Line(r, r.info.channels[j], y) == Some(LinesUpTo(r, rows)[y * |r.info.channels| + j])
  {
    CountLines(r, rows - 1);
    assert rows * |r.info.channels| == (rows - 1) * |r.info.channels| + |r.info.channels|;
    CellInPlane(j, y, |r.info.channels|, rows);
    assert HasLine(r, r.info.channels[j], y);
    if y < rows - 1 {
      LinesUpToAt(r, rows - 1, y, j);
    }
  }

  lemma RowUniform(r: Raster, row: nat)
    requires forall j: nat :: j < |r.info.channels| ==> HasLine(r, r.info.channels[j], row)
    ensures Uniform(RowLines(r, row), Max(r.info.bytesPerLine as int, 0))
  {
    forall j | 0 <= j < |r.info.channels|
      ensures |RowLines(r, row)[j]| == Max(r.info.bytesPerLine as int, 0)
    {
      assert HasLine(r, r.info.channels[j], row);
    }
  }

  lemma {:induction false} CountLines(r: Raster, rows: nat)
    requires rows <= r.info.height as int && Complete(r)
    ensures |LinesUpTo(r, rows)| == rows * |r.info.channels| &&
            Uniform(LinesUpTo(r, rows), Max(r.info.bytesPerLine as int, 0))
  {
    if rows > 0 {
      CountLines(r, rows - 1);
      RowUniform(r, rows - 1);
      assert rows * |r.info.channels| == (rows - 1) * |r.info.channels| + |r.info.channels|;
    }
  }

  /** A raster that serializes never wraps around: its payload is as long as it should be. */
  lemma SerializedIsBounded(r: Raster)
    requires Serialized(r).Some?
    ensures Bounded(r.info) && Shaped(r.info, Serialized(r).value) && 0 < |r.info.channels|
  {
    var lines, lineBytes := LinesUpTo(r, r.info.height as int), r.info.bytesPerLine as int;
    CountLines(r, r.info.height as int);
    ConcatLength(lines, lineBytes);
    AtLeastFactors(r.info.height as int, |r.info.channels|, lineBytes);
  }

  lemma AtLeastFactors(a: int, b: int, c: int)
    requires 0 < a && 0 <= b && 0 < c
    ensures b <= a * b <= a * b * c
  {
    ProductGrows(1, a, b);
    ProductGrows(1, c, a * b);
  }

  lemma SerializedLine(r: Raster, y: nat, j: nat)
    requires Serialized(r).Some? && Shaped(r.info, Serialized(r).value) && y < r.info.height as int &&
             j < |r.info.channels|
    ensures Line(r, r.info.channels[j], y) == Some(PayloadLine(r.info, Serialized(r).value, y, j))
  {
    assert HasLine(r, r.info.channels[j], y);
    CountLines(r, r.info.height as int);
    LinesUpToAt(r, r.info.height as int, y, j);
    ConcatLine(LinesUpTo(r, r.info.height as int), r.info.bytesPerLine as int, y * |r.info.channels| + j);
  }

  /** A serialized raster is accepted exactly when its channel indices are at most 15 and its format and header
      are well-formed. */
  lemma SerializedIsAcceptable(r: Raster)
    requires Serialized(r).Some?
    ensures Acceptable(r.info, Serialized(r).value) <==>
              && (forall channel :: channel in r.info.channels ==> channel <= 15)
              && 0 <= r.info.format <= 2 && |r.info.canonicalHeader| == 12
  {
    SerializedIsBounded(r);
    forall channel | channel in r.info.channels
      ensures 0 <= channel
    {
      var j :| 0 <= j < |r.info.channels| && r.info.channels[j] == channel;
      assert HasLine(r, r.info.channels[j], 0);
    }
  }

  /** `b` has every line of `a` that the channel order mentions. */
  ghost predicate Agrees(a: Raster, b: Raster) {
    a.info == b.info && forall j: nat, y: nat :: j < |a.info.channels| && y < a.info.height as int ==>
      HasLine(b, a.info.channels[j], y) && Line(b, a.info.channels[j], y) == Line(a, a.info.channels[j], y)
  }

  /** Round trip: what deserialization stores for a serialized raster agrees with it on every plane-line the
      channel order mentions, repeats included, and serializes to the same payload. */
  lemma RoundTrip(r: Raster, storage: PlaneLines)
    requires Serialized(r).Some? && Acceptable(r.info, Serialized(r).value)
    requires Shaped(r.info, Serialized(r).value) && Restores(r.info, Serialized(r).value, storage)
    ensures Agrees(r, Raster(r.info, storage))
    ensures Serialized(Raster(r.info, storage)) == Serialized(r)
  {
    forall j: nat, y: nat | j < |r.info.channels| && y < r.info.height as int
      ensures var b := Raster(r.info, storage);
              HasLine(b, r.info.channels[j], y) && Line(b, r.info.channels[j], y) == Line(r, r.info.channels[j], y)
    {
      RestoredLine(r, storage, j, y);
    }
    SameSerialization(r, Raster(r.info, storage));
  }

  lemma RestoredLine(r: Raster, storage: PlaneLines, j: nat, y: nat)
    requires Serialized(r).Some? && Acceptable(r.info, Serialized(r).value)
    requires Shaped(r.info, Serialized(r).value) && Restores(r.info, Serialized(r).value, storage)
    requires j < |r.info.channels| && y < r.info.height as int
    ensures HasLine(Raster(r.info, storage), r.info.channels[j], y)
    ensures Line(Raster(r.info, storage), r.info.channels[j], y) == Line(r, r.info.channels[j], y)
  {
    var channel, payload := r.info.channels[j], Serialized(r).value;
    assert channel in r.info.channels && channel in r.info.channels[..|r.info.channels|];
    var last := LastAt(r.info.channels, |r.info.channels|, channel).value;
    SerializedLine(r, y, last);
    assert storage[channel][y] == RestoredCell(r.info, payload, y, |r.info.channels|, channel);
  }

  lemma SameSerialization(a: Raster, b: Raster)
    requires Agrees(a, b) && Complete(a)
    ensures Serialized(b) == Serialized(a)
  {
    forall row: nat, j: nat | row < b.info.height as int && j < |b.info.channels|
      ensures HasLine(b, b.info.channels[j], row)
    {
    }
    if 0 < a.info.height {
      SameLines(a, b, a.info.height as int);
    }
  }

  lemma {:induction false} SameLines(a: Raster, b: Raster, rows: nat)
    requires Agrees(a, b) && Complete(a) && Complete(b) && rows <= a.info.height as int
    ensures LinesUpTo(a, rows) == LinesUpTo(b, rows)
  {
    if rows > 0 {
      SameLines(a, b, rows - 1);
      var y := rows - 1;
      forall j | 0 <= j < |a.info.channels|
        ensures RowLines(a, y)[j] == RowLines(b, y)[j]
      {
        assert HasLine(a, a.info.channels[j], y) && Line(b, a.info.channels[j], y) == Line(a, a.info.channels[j], y);
      }
    }
  }
}
