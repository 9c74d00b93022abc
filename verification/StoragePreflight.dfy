/** The storage estimate before a job starts, in overflow-checked 64-bit arithmetic, and the choice of engine. */
module StoragePreflight {
  import opened Arithmetic
  import opened RasterTypes
  import opened ByteCodec

  const IN_MEMORY_BUDGET: int := 4096 * MIB

  datatype Estimate = Estimate(
    width: Int32,
    height: Int32,
    sourceWidth: Int32,
    sourceHeight: Int32,
    logicalChannels: Int32,
    physicalChannels: Int32,
    includeFinalPrn: bool,
    includeAlphaCache: bool,
    externalPlateCaches: Int32,
    maskCacheBytes: UInt64,
    quantumBytes: int)
  {
    predicate Positive() {
      && 0 < width && 0 < height && 0 < sourceWidth && 0 < sourceHeight && 0 < logicalChannels && 0 < physicalChannels
      && 1 <= quantumBytes <= 16
    }

    function Pixels(): int {
      width as int * height as int
    }

    function SourcePixels(): int {
      sourceWidth as int * sourceHeight as int
    }

    predicate Resizes() {
      sourceWidth != width || sourceHeight != height
    }

    function PlaneBytes(): int {
      LineBytes(width as int) * height as int
    }

    /** The parts of the estimate, as exact integers. */
    function Parts(): seq<int> {
      [Pixels() * 4,
       Pixels() * (5 * quantumBytes),
       if Resizes() then SourcePixels() * (29 * quantumBytes) else 0,
       (if includeAlphaCache then SourcePixels() * (1 + 5 * quantumBytes) else 0) +
       (if includeAlphaCache && Resizes() then Pixels() * (5 * quantumBytes) else 0),
       Pixels() * (5 * quantumBytes * Clamp(externalPlateCaches as int, 0, 2)),
       maskCacheBytes,
       PlaneBytes() * logicalChannels as int,
       if includeFinalPrn then PlaneBytes() * physicalChannels as int else 0]
    }

    function Base(): int {
      Total(Parts())
    }

    /** What the job needs: everything it holds at once, and a fifth more. */
    function Required(): int {
      Base() + Base() / 5
    }
  }

  function Total(parts: seq<int>): int {
    if parts == [] then 0 else parts[0] + Total(parts[1..])
  }

  method Multiply(left: UInt64, right: UInt64) returns (product: Option<UInt64>)
    ensures product == if left as int * right as int <= U64_MAX then Some(left as int * right as int) else None
  {
    if right != 0 {
      ProductFits(left, right, U64_MAX);
    }
    ProductGrows(0, left as int, right as int);
    product := if right != 0 && left as int > U64_MAX / right as int then None else Some(left as int * right as int);
  }

  method Add(value: UInt64, total: UInt64) returns (sum: Option<UInt64>)
    ensures sum == if total as int + value as int <= U64_MAX then Some(total as int + value as int) else None
  {
    sum := if total as int > U64_MAX - value as int then None else Some(total as int + value as int);
  }

  /** Adds up the parts, or reports an overflow. */
  method AddAll(parts: seq<UInt64>) returns (sum: Option<UInt64>)
    ensures sum == if Total(parts) <= U64_MAX then Some(Total(parts)) else None
  {
    var total: UInt64 := 0;
    var i := 0;
    while i < |parts|
      invariant 0 <= i <= |parts| && total as int + Total(parts[i..]) == Total(parts)
    {
      NonNegativeTotal(parts[i + 1..]);
      var next := Add(parts[i], total);
      if next.None? {
        return None;
      }
      total, i := next.value, i + 1;
    }
    sum := Some(total);
  }

  lemma {:induction false} NonNegativeTotal(parts: seq<int>)
    requires forall k :: 0 <= k < |parts| ==> 0 <= parts[k]
    ensures 0 <= Total(parts) && forall k :: 0 <= k < |parts| ==> parts[k] <= Total(parts)
  {
    if parts != [] {
      NonNegativeTotal(parts[1..]);
      assert forall k :: 0 < k < |parts| ==> parts[k] == parts[1..][k - 1];
    }
  }

  /** The product of two factors, of which only the final product is checked by the caller. */
  method MultiplyTwice(a: UInt64, b: UInt64, c: UInt64) returns (product: Option<UInt64>)
    requires 0 < c
    ensures product == if a as int * b as int * c as int <= U64_MAX then Some(a as int * b as int * c as int) else None
  {
    var first := Multiply(a, b);
    ghost var ab := a as int * b as int;
    ProductGrows(0, a as int, b as int);
    ProductGrows(1, c as int, ab);
    if first.None? {
      return None;
    }
    product := Multiply(first.value, c);
  }

  /** Every part of the estimate, or nothing when one of them does not fit in 64 bits. */
  method EstimateParts(e: Estimate) returns (parts: Option<seq<UInt64>>)
    requires e.Positive()
    ensures parts.Some? ==> parts.value == e.Parts()
    ensures parts.None? ==> exists k :: 0 <= k < 8 && e.Parts()[k] > U64_MAX
    ensures forall k :: 0 <= k < 8 ==> 0 <= e.Parts()[k]
  {
    PartsNonNegative(e);
    var pixels := ExactProduct(e.width, e.height);
    var sourcePixels := ExactProduct(e.sourceWidth, e.sourceHeight);
    var q := e.quantumBytes;
    var canonical := Multiply(pixels, 4);
    var magick := Multiply(pixels, 5 * q);
    var resize := Multiply(sourcePixels, if e.Resizes() then 29 * q else 0);
    var alpha := EstimateAlpha(e, pixels, sourcePixels);
    var external := Multiply(pixels, 5 * q * Clamp(e.externalPlateCaches as int, 0, 2));
    var spool := EstimatePlanes(e, e.logicalChannels);
    var prn := Some(0);
    if e.includeFinalPrn {
      prn := EstimatePlanes(e, e.physicalChannels);
    }
    parts := AllOf([canonical, magick, resize, alpha, external, Some(e.maskCacheBytes), spool, prn], e.Parts());
  }

  /** All parts, if all of them are there. */
  method AllOf(found: seq<Option<UInt64>>, ghost exact: seq<int>) returns (parts: Option<seq<UInt64>>)
    requires |found| == |exact| && (forall k :: 0 <= k < |exact| ==> 0 <= exact[k])
    requires forall k :: 0 <= k < |found| ==> found[k] == if exact[k] <= U64_MAX then Some(exact[k]) else None
    ensures parts.Some? ==> parts.value == exact
    ensures parts.None? ==> exists k :: 0 <= k < |exact| && exact[k] > U64_MAX
  {
    var values: seq<UInt64> := [];
    while |values| < |found|
      invariant |values| <= |found| && values == exact[..|values|]
      decreases |found| - |values|
    {
      var k := |values|;
      if found[k].None? {
        return None;
      }
      values := values + [found[k].value];
    }
    parts := Some(values);
  }

  method EstimatePlanes(e: Estimate, channels: Int32) returns (bytes: Option<UInt64>)
    requires e.Positive() && 0 < channels
    ensures bytes ==
            if e.PlaneBytes() * channels as int <= U64_MAX then Some(e.PlaneBytes() * channels as int) else None
  {
    bytes := MultiplyTwice(LineBytes(e.width as int), e.height as int, channels as int);
  }

  /** Two image dimensions never overflow. */
  method ExactProduct(a: Int32, b: Int32) returns (product: UInt64)
    requires 0 < a && 0 < b
    ensures product == a as int * b as int
  {
    ProductGrows(a as int, INT_MAX, b as int);
    ProductGrows(0, a as int, b as int);
    product := a as int * b as int;
  }

  method EstimateAlpha(e: Estimate, pixels: UInt64, sourcePixels: UInt64) returns (alpha: Option<UInt64>)
    requires e.Positive() && pixels == e.Pixels() && sourcePixels == e.SourcePixels()
    ensures alpha == if e.Parts()[3] <= U64_MAX then Some(e.Parts()[3]) else None
  {
    if !e.includeAlphaCache {
      return Some(0);
    }
    ProductGrows(0, pixels as int, 5 * e.quantumBytes);
    alpha := Multiply(sourcePixels, 1 + 5 * e.quantumBytes);
    if alpha.Some? && e.Resizes() {
      var resized := Multiply(pixels, 5 * e.quantumBytes);
      ProductGrows(0, sourcePixels as int, 1 + 5 * e.quantumBytes);
      if resized.None? {
        return None;
      }
      alpha := Add(resized.value, alpha.value);
    }
  }

  lemma PartsNonNegative(e: Estimate)
    requires e.Positive()
    ensures forall k :: 0 <= k < 8 ==> 0 <= e.Parts()[k]
  {
    ProductGrows(0, e.width as int, e.height as int);
    ProductGrows(0, e.sourceWidth as int, e.sourceHeight as int);
    ProductGrows(0, LineBytes(e.width as int), e.height as int);
    ProductGrows(0, e.Pixels(), 5 * e.quantumBytes);
    ProductGrows(0, e.SourcePixels(), 29 * e.quantumBytes);
    ProductGrows(0, e.SourcePixels(), 1 + 5 * e.quantumBytes);
    ProductGrows(0, Clamp(e.externalPlateCaches as int, 0, 2), 5 * e.quantumBytes);
    ProductGrows(0, e.Pixels(), 5 * e.quantumBytes * Clamp(e.externalPlateCaches as int, 0, 2));
    ProductGrows(0, e.PlaneBytes(), e.logicalChannels as int);
    ProductGrows(0, e.PlaneBytes(), e.physicalChannels as int);
  }

  /** The overflow checks never turn a job away that fits, and never let one through that does not: the job is
      admitted exactly when its true need is within the free space. */
  method PreflightStorage(e: Estimate, available: Option<UInt64>) returns (ok: bool)
    requires 1 <= e.quantumBytes <= 16
    ensures ok <==> && 1 <= e.width && 1 <= e.height && 1 <= e.sourceWidth && 1 <= e.sourceHeight
                    && 1 <= e.logicalChannels && 1 <= e.physicalChannels
                    && available.Some? && Need(e) <= available.value as int
  {
    NeedIsRequired(e);
    if !e.Positive() {
      return false;
    }
    var parts := EstimateParts(e);
    NonNegativeTotal(e.Parts());
    if parts.None? {
      return false;
    }
    var base := AddAll(parts.value);
    if base.None? {
      return false;
    }
    var required := Add(base.value / 5, base.value);
    ok := required.Some? && available.Some? && required.value <= available.value;
  }

  /** What a job needs, in the quantities of the image: four bytes and five quanta a pixel; 29 quanta a source pixel
      when the image is resized; for alpha one byte and five quanta a source pixel and, when resized, five quanta a
      pixel; five quanta a pixel for each of at most two plates; the mask cache; a packed line for every row and
      logical channel and, with a final file, for every row and physical channel; and of all that a fifth more. */
  function Need(e: Estimate): int {
    var q, pixels := e.quantumBytes, e.width as int * e.height as int;
    var source := e.sourceWidth as int * e.sourceHeight as int;
    var resized := e.sourceWidth != e.width || e.sourceHeight != e.height;
    var caches := e.externalPlateCaches as int;
    var plates := if caches < 0 then 0 else if caches > 2 then 2 else caches;
    var plane := (e.width as int + 15) / 16 * 4 * e.height as int;
    var base := pixels * 4 + pixels * (5 * q) + (if resized then source * (29 * q) else 0)
                + (if e.includeAlphaCache then source * (1 + 5 * q) + (if resized then pixels * (5 * q) else 0) else 0)
                + pixels * (5 * q * plates) + e.maskCacheBytes + plane * e.logicalChannels as int
                + (if e.includeFinalPrn then plane * e.physicalChannels as int else 0);
    base + base / 5
  }

  lemma NeedIsRequired(e: Estimate)
    ensures Need(e) == e.Required()
  {
    var parts := e.Parts();
    assert LineBytes(e.width as int) == (e.width as int + 15) / 16 * 4;
    TotalOfEight(parts);
  }

  lemma TotalOfEight(parts: seq<int>)
    requires |parts| == 8
    ensures Total(parts) ==
            parts[0] + parts[1] + parts[2] + parts[3] + parts[4] + parts[5] + parts[6] + parts[7]
  {
    assert Total(parts) == parts[0] + Total(parts[1..]);
    assert Total(parts[1..]) == parts[1] + Total(parts[2..]) by { assert parts[1..][1..] == parts[2..]; }
    assert Total(parts[2..]) == parts[2] + Total(parts[3..]) by { assert parts[2..][1..] == parts[3..]; }
    assert Total(parts[3..]) == parts[3] + Total(parts[4..]) by { assert parts[3..][1..] == parts[4..]; }
    assert Total(parts[4..]) == parts[4] + Total(parts[5..]) by { assert parts[4..][1..] == parts[5..]; }
    assert Total(parts[5..]) == parts[5] + Total(parts[6..]) by { assert parts[5..][1..] == parts[6..]; }
    assert Total(parts[6..]) == parts[6] + Total(parts[7..]) by { assert parts[6..][1..] == parts[7..]; }
    assert Total(parts[7..]) == parts[7] by { assert parts[7..][1..] == []; }
  }

  datatype Strategy = InMemory | BoundedStrips

  /** The engine a job runs on: whole planes exactly when the dimensions are usable, no strips are forced, and the
      true estimate is within the budget or memory is forced. */
  method SelectRasterStrategy(width: Int32, height: Int32, logicalChannels: Int32, multiInk: bool,
                              forced: string) returns (strategy: Strategy)
    ensures strategy.InMemory? <==>
              && 0 < width && 0 < height && 0 < logicalChannels && width as int * height as int <= INT_MAX
              && forced != "bounded"
              && (forced == "memory" ||
                  width as int * height as int *
                    (if multiInk then 24 + 2 * logicalChannels as int else 16 + (logicalChannels as int + 3) / 4)
                  + 8388608 <= 4294967296)
  {
    if width <= 0 || height <= 0 || logicalChannels <= 0 {
      return BoundedStrips;
    }
    var pixels := ExactProduct(width, height);
    ProductGrows(1, width as int, height as int);
    if pixels as int > INT_MAX {
      return BoundedStrips;
    }
    var bytesPerPixel := BytesPerPixel(logicalChannels, multiInk);
    if pixels as int > (U64_MAX - 8 * MIB) / bytesPerPixel {
      NeverTooMany(pixels as int, bytesPerPixel);
      return BoundedStrips;
    }
    var estimated := pixels as int * bytesPerPixel + 8 * MIB;
    strategy := if forced == "bounded" then BoundedStrips
                else if forced == "memory" || estimated <= IN_MEMORY_BUDGET then InMemory else BoundedStrips;
  }

  /** The overflow check of the estimate never decides: 2^31 pixels of 2^31 channels still fit in 64 bits. */
  lemma NeverTooMany(pixels: int, bytesPerPixel: int)
    requires 0 <= pixels <= INT_MAX && 0 < bytesPerPixel <= 24 + 2 * INT_MAX
    ensures pixels <= (U64_MAX - 8 * MIB) / bytesPerPixel
  {
    ProductGrows(pixels, INT_MAX, bytesPerPixel);
    ProductFits(pixels, bytesPerPixel, U64_MAX - 8 * MIB);
  }

  function BytesPerPixel(logicalChannels: Int32, multiInk: bool): (n: int)
    ensures 0 < logicalChannels ==> 0 < n <= 24 + 2 * INT_MAX
  {
    if multiInk then 24 + 2 * logicalChannels as int else 16 + (logicalChannels as int + 3) / 4
  }
}
