/** The channel-major body of a spool: fixed-size lines at computed offsets, written in any order. */
module SpoolBody {
  import opened RasterTypes

  function Concat(lines: seq<seq<Byte>>): seq<Byte> {
    if lines == [] then [] else lines[0] + Concat(lines[1..])
  }

  /** Every line of a body has the same size. */
  ghost predicate Uniform(lines: seq<seq<Byte>>, lineBytes: nat) {
    forall k :: 0 <= k < |lines| ==> |lines[k]| == lineBytes
  }

  lemma {:induction false} ConcatLength(lines: seq<seq<Byte>>, lineBytes: nat)
    requires Uniform(lines, lineBytes)
    ensures |Concat(lines)| == |lines| * lineBytes
  {
    if lines != [] {
      ConcatLength(lines[1..], lineBytes);
      assert |lines| * lineBytes == (|lines| - 1) * lineBytes + lineBytes;
    }
  }

  /** The bytes of line `k`. */
  function LineOf(body: seq<Byte>, lineBytes: nat, k: nat): (line: seq<Byte>)
    requires k * lineBytes + lineBytes <= |body|
    ensures |line| == lineBytes
  {
    assert 0 <= k * lineBytes;
    body[k * lineBytes..k * lineBytes + lineBytes]
  }

  lemma LineFits(k: nat, count: nat, lineBytes: nat)
    requires k < count
    ensures 0 <= k * lineBytes && k * lineBytes + lineBytes <= count * lineBytes
  {
    RowsApart(k, count, lineBytes);
  }

  /** The lines tile the body: a body is the concatenation of its lines and nothing else. */
  lemma {:induction false} LinesTile(body: seq<Byte>, lines: seq<seq<Byte>>, lineBytes: nat)
    requires Uniform(lines, lineBytes) && |body| == |lines| * lineBytes
    requires forall k :: 0 <= k < |lines| ==>
              k * lineBytes + lineBytes <= |body| && LineOf(body, lineBytes, k) == lines[k]
    ensures body == Concat(lines)
  {
    if lines != [] {
      var rest := body[lineBytes..];
      assert LineOf(body, lineBytes, 0) == lines[0];
      assert |rest| == (|lines| - 1) * lineBytes;
      forall k | 0 <= k < |lines[1..]|
        ensures k * lineBytes + lineBytes <= |rest| && LineOf(rest, lineBytes, k) == lines[1..][k]
      {
        LineFits(k, |lines| - 1, lineBytes);
        assert (k + 1) * lineBytes == k * lineBytes + lineBytes;
        assert LineOf(body, lineBytes, k + 1) == lines[k + 1];
      }
      LinesTile(rest, lines[1..], lineBytes);
      assert body == lines[0] + rest;
    }
  }

  /** Conversely line k of the concatenation is the k-th line. */
  lemma {:induction false} ConcatLine(lines: seq<seq<Byte>>, lineBytes: nat, k: nat)
    requires Uniform(lines, lineBytes) && k < |lines|
    ensures k * lineBytes + lineBytes <= |Concat(lines)| && LineOf(Concat(lines), lineBytes, k) == lines[k]
  {
    ConcatLength(lines, lineBytes);
    LineFits(k, |lines|, lineBytes);
    if k > 0 {
      ConcatLine(lines[1..], lineBytes, k - 1);
      assert k * lineBytes == (k - 1) * lineBytes + lineBytes;
      ConcatShift(lines[0], Concat(lines[1..]), (k - 1) * lineBytes, lineBytes);
    }
  }

  lemma ConcatShift(head: seq<Byte>, tail: seq<Byte>, at: nat, size: nat)
    requires at + size <= |tail|
    ensures (head + tail)[|head| + at..|head| + at + size] == tail[at..at + size]
  {
  }

  /** Overwrites `bytes` at `offset`; the size does not change. */
  function Put(file: seq<Byte>, offset: nat, bytes: seq<Byte>): (r: seq<Byte>)
    requires offset + |bytes| <= |file|
    ensures |r| == |file|
  {
    file[..offset] + bytes + file[offset + |bytes|..]
  }

  /** Writing one line changes that line and no other: line ranges never overlap. */
  lemma PutLine(body: seq<Byte>, count: nat, lineBytes: nat, k: nat, bytes: seq<Byte>, other: nat)
    requires k < count && other < count && |body| == count * lineBytes && |bytes| == lineBytes
    requires k * lineBytes + lineBytes <= |body| && other * lineBytes + lineBytes <= |body|
    ensures LineOf(Put(body, k * lineBytes, bytes), lineBytes, other) ==
            if other == k then bytes else LineOf(body, lineBytes, other)
  {
    if other < k {
      RowsApart(other, k, lineBytes);
    } else if k < other {
      RowsApart(k, other, lineBytes);
    }
  }

  datatype LineWrite = LineWrite(index: nat, bytes: seq<Byte>)

  ghost predicate WritesInRange(ws: seq<LineWrite>, count: nat, lineBytes: nat) {
    forall w :: w in ws ==> w.index < count && |w.bytes| == lineBytes
  }

  ghost predicate Names(ws: seq<LineWrite>, k: nat) {
    exists w :: w in ws && w.index == k
  }

  ghost predicate AllNamed(ws: seq<LineWrite>, count: nat) {
    forall k :: 0 <= k < count ==> Names(ws, k)
  }

  /** The body after the writes, first to last. */
  ghost function ApplyWrites(body: seq<Byte>, count: nat, lineBytes: nat, ws: seq<LineWrite>): (r: seq<Byte>)
    requires |body| == count * lineBytes && WritesInRange(ws, count, lineBytes)
    ensures |r| == |body|
  {
    if ws == [] then body
    else
      var before := ApplyWrites(body, count, lineBytes, ws[..|ws| - 1]);
      var w := ws[|ws| - 1];
      LineFits(w.index, count, lineBytes);
      Put(before, w.index * lineBytes, w.bytes)
  }

  lemma {:induction false} WrittenLine(body: seq<Byte>, lines: seq<seq<Byte>>, lineBytes: nat, ws: seq<LineWrite>,
                                       k: nat)
    requires |body| == |lines| * lineBytes && WritesInRange(ws, |lines|, lineBytes)
    requires forall w :: w in ws ==> w.bytes == lines[w.index]
    requires k < |lines| && Names(ws, k)
    ensures k * lineBytes + lineBytes <= |body|
    ensures LineOf(ApplyWrites(body, |lines|, lineBytes, ws), lineBytes, k) == lines[k]
  {
    var last := ws[|ws| - 1];
    var before := ws[..|ws| - 1];
    LineFits(k, |lines|, lineBytes);
    LineFits(last.index, |lines|, lineBytes);
    PutLine(ApplyWrites(body, |lines|, lineBytes, before), |lines|, lineBytes, last.index, last.bytes, k);
    if last.index != k {
      var w :| w in ws && w.index == k;
      assert w in before;
      WrittenLine(body, lines, lineBytes, before, k);
    }
  }

  /** The body does not depend on the order of the writes, nor on repeats of them: once every line
      has been written with its own bytes, the body is the lines in channel-major order. */
  lemma AnyWriteOrder(body: seq<Byte>, lines: seq<seq<Byte>>, lineBytes: nat, ws: seq<LineWrite>)
    requires Uniform(lines, lineBytes) && |body| == |lines| * lineBytes && WritesInRange(ws, |lines|, lineBytes)
    requires forall w :: w in ws ==> w.bytes == lines[w.index]
    requires AllNamed(ws, |lines|)
    ensures ApplyWrites(body, |lines|, lineBytes, ws) == Concat(lines)
  {
    var after := ApplyWrites(body, |lines|, lineBytes, ws);
    forall k | 0 <= k < |lines|
      ensures k * lineBytes + lineBytes <= |after| && LineOf(after, lineBytes, k) == lines[k]
    {
      WrittenLine(body, lines, lineBytes, ws, k);
    }
    LinesTile(after, lines, lineBytes);
  }

  /** Conversely an index no write names keeps the bytes it had. */
  lemma {:induction false} UnwrittenLine(body: seq<Byte>, count: nat, lineBytes: nat, ws: seq<LineWrite>, k: nat)
    requires |body| == count * lineBytes && WritesInRange(ws, count, lineBytes)
    requires k < count && !Names(ws, k)
    ensures k * lineBytes + lineBytes <= |body|
    ensures LineOf(ApplyWrites(body, count, lineBytes, ws), lineBytes, k) == LineOf(body, lineBytes, k)
  {
    LineFits(k, count, lineBytes);
    if ws != [] {
      var last := ws[|ws| - 1];
      LineFits(last.index, count, lineBytes);
      UnwrittenLine(body, count, lineBytes, ws[..|ws| - 1], k);
      PutLine(ApplyWrites(body, count, lineBytes, ws[..|ws| - 1]), count, lineBytes, last.index, last.bytes, k);
    }
  }

  /** Channel-major order: all lines of the first plane, then all lines of the second, and so on. */
  function Flatten(planes: seq<seq<seq<Byte>>>): seq<seq<Byte>> {
    if planes == [] then [] else planes[0] + Flatten(planes[1..])
  }

  lemma {:induction false} FlattenAt(planes: seq<seq<seq<Byte>>>, height: nat, channel: nat, row: nat)
    requires forall c :: 0 <= c < |planes| ==> |planes[c]| == height
    requires channel < |planes| && row < height
    ensures 0 <= channel * height + row < |Flatten(planes)|
    ensures Flatten(planes)[channel * height + row] == planes[channel][row]
  {
    if channel != 0 {
      FlattenAt(planes[1..], height, channel - 1, row);
      assert channel * height == (channel - 1) * height + height;
    }
  }

  lemma {:induction false} FlattenLength(planes: seq<seq<seq<Byte>>>, height: nat)
    requires forall c :: 0 <= c < |planes| ==> |planes[c]| == height
    ensures |Flatten(planes)| == |planes| * height
  {
    if planes != [] {
      FlattenLength(planes[1..], height);
      assert |planes| * height == (|planes| - 1) * height + height;
    }
  }

  /** Every line has been written exactly once, with its own bytes. */
  ghost predicate WritesOnce(log: seq<LineWrite>, lines: seq<seq<Byte>>) {
    && (forall i :: 0 <= i < |log| ==> log[i].index < |lines| && log[i].bytes == lines[log[i].index])
    && (forall i, j :: 0 <= i < j < |log| ==> log[i].index != log[j].index)
    && AllNamed(log, |lines|)
  }
}
