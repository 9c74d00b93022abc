/** Values shared by every component, and the arithmetic of row-major planes. */
module RasterTypes {
  import opened Arithmetic

  /** A stored octet. Spool files and packed lines are sequences of these. */
  type Byte = b: int | 0 <= b <= 255

  /** An 8-bit tone, mask or alpha sample. */
  type Tone = t: int | 0 <= t <= 255

  /** A 2-bit dot class: 0 blank, 1 small, 2 medium, 3 large. */
  type Dot = d: int | 0 <= d <= 3

  datatype Option<+T> = None | Some(value: T) {
    predicate IsFailure() {
      None?
    }

    function PropagateFailure<U>(): Option<U>
      requires None?
    {
      None
    }

    function Extract(): T
      requires Some?
    {
      value
    }
  }

  const U32_RANGE: int := 0x1_0000_0000
  const U64_MAX: int := 0xFFFF_FFFF_FFFF_FFFF
  const INT_MAX: int := 0x7FFF_FFFF
  const MIB: int := 1024 * 1024

  function Clamp(value: int, low: int, high: int): (r: int)
    requires low <= high
    ensures low <= r <= high
  {
    if value < low then low else if high < value then high else value
  }

  function Min(a: int, b: int): int {
    if a <= b then a else b
  }

  function Max(a: int, b: int): int {
    if a >= b then a else b
  }

  /** Bytes of one packed plane-line: four dots a byte, rounded up to a multiple of four bytes. */
  function LineBytes(width: int): (n: int)
    ensures 0 <= width ==> width <= 4 * n < width + 16
  {
    ((width + 3) / 4 + 3) / 4 * 4
  }

  function Distance(a: int, b: int): nat {
    if a < b then b - a else a - b
  }

  lemma ScaledTone(weight: nat, tone: Tone)
    ensures 0 <= weight * tone <= weight * 255
  {
  }

  /** The cell of column `x` and row `y` lies inside a plane of `height` rows of `width`. */
  lemma CellInPlane(x: int, y: int, width: int, height: int)
    requires 0 <= x < width && 0 <= y < height
    ensures 0 <= y * width
    ensures y * width + x < y * width + width <= height * width
  {
    assert (y + 1) * width <= height * width;
  }

  lemma RowsApart(y: int, y': int, width: nat)
    requires y < y'
    ensures y * width + width <= y' * width
  {
    assert (y' - y - 1) * width >= 0;
  }

  /** Different cells have different indices: the row-major index is injective. */
  lemma CellInjective(x: int, y: int, x': int, y': int, width: nat)
    requires 0 <= x < width && 0 <= x' < width
    requires x != x' || y != y'
    ensures y * width + x != y' * width + x'
  {
    if y < y' {
      RowsApart(y, y', width);
    } else if y' < y {
      RowsApart(y', y, width);
    }
  }

  /** Every index of a plane is the index of a cell. */
  lemma CellOf(k: int, width: nat, height: nat)
    requires 0 < width && 0 <= k < height * width
    ensures 0 <= k % width < width && 0 <= k / width < height && k == k / width * width + k % width
  {
    var q, r := k / width, k % width;
    assert k == q * width + r;
    assert (height - q) * width == height * width - q * width;
    PositiveFactor(height - q, width);
    assert (q + 1) * width == q * width + width;
    PositiveFactor(q + 1, width);
  }

  lemma SliceOfSlice<T>(s: seq<T>, from: nat, to: nat, low: nat, high: nat)
    requires from <= to <= |s| && low <= high <= to - from
    ensures s[from..to][low..high] == s[from + low..from + high]
  {
    forall k | 0 <= k < high - low
      ensures s[from..to][low..high][k] == s[from + low..from + high][k]
    {
      assert s[from..to][low + k] == s[from + (low + k)];
    }
  }

  function Row<T>(plane: seq<T>, width: nat, height: nat, y: nat): (row: seq<T>)
    requires |plane| == height * width && y < height
    ensures |row| == width
  {
    RowsApart(y, height, width);
    plane[y * width..y * width + width]
  }

  function At<T>(plane: seq<T>, width: nat, height: nat, x: nat, y: nat): (cell: T)
    requires |plane| == height * width && x < width && y < height
    ensures cell == Row(plane, width, height, y)[x]
  {
    CellInPlane(x, y, width, height);
    plane[y * width + x]
  }
}
