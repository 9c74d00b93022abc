/** The packed lines a channel must produce, whichever engine produces them. */
module ScreenSpec {
  import opened RasterTypes
  import opened PixelScreening
  import opened Promotion
  import opened Packing

  /** A channel's raster before promotion. */
  function ChannelFrame(c: ScreenChannel, mask: Mask, offset: MaskOffset, plane: seq<Tone>,
                        width: nat, height: nat): (f: Frame)
    requires mask.Valid() && |plane| == height * width
    ensures f.Valid() && f.width == width && f.height == height
  {
    Frame(width, height,
          seq(height, y requires 0 <= y < height => RawRow(c, mask, offset, Row(plane, width, height, y), y)),
          seq(height, y requires 0 <= y < height => ClassRow(c, Row(plane, width, height, y))))
  }

  /** The raster a channel ends with. */
  function FinalRaster(c: ScreenChannel, p: PromotionParameters, f: Frame): (rows: seq<seq<Dot>>)
    requires f.Valid()
    ensures |rows| == f.height && forall y :: 0 <= y < f.height ==> |rows[y]| == f.width
  {
    if c.enablePromotion then SettledFrame(f, p) else f.dots
  }

  function PackRows(rows: seq<seq<Dot>>): (lines: seq<seq<Byte>>)
    ensures |lines| == |rows| && forall y :: 0 <= y < |rows| ==> lines[y] == PackedLine(rows[y])
  {
    seq(|rows|, y requires 0 <= y < |rows| => PackedLine(rows[y]))
  }

  /** All packed lines of logical channel number `channel`. */
  function ScreenedLines(c: ScreenChannel, mask: Mask, channel: int, seed: bv32, p: PromotionParameters,
                         plane: seq<Tone>, width: nat, height: nat): (lines: seq<seq<Byte>>)
    requires mask.Valid() && |plane| == height * width
    ensures |lines| == height
  {
    PackRows(FinalRaster(c, p, ChannelFrame(c, mask, OffsetFor(mask, channel, seed), plane, width, height)))
  }

  /** A whole screening job: what is to be screened, with which masks. */
  datatype ScreenPlan = ScreenPlan(
    width: nat,
    height: nat,
    seed: bv32,
    parameters: map<string, int>,
    channels: seq<ScreenChannel>,
    masks: map<string, Mask>,
    planes: seq<seq<Tone>>)
  {
    predicate Valid() {
      && 0 < width && 0 < height && channels != [] && |planes| == |channels|
      && forall c :: 0 <= c < |channels| ==>
           channels[c].maskPath in masks && masks[channels[c].maskPath].Valid() && |planes[c]| == height * width
    }

    function MaskOf(c: nat): (m: Mask)
      requires Valid() && c < |channels|
      ensures m.Valid()
    {
      masks[channels[c].maskPath]
    }

    function OffsetOf(c: nat): (offset: MaskOffset)
      requires Valid() && c < |channels|
      ensures offset.x < MaskOf(c).width && offset.y < MaskOf(c).height
    {
      OffsetFor(MaskOf(c), c, seed)
    }

    function FrameOf(c: nat): (f: Frame)
      requires Valid() && c < |channels|
      ensures f.Valid() && f.width == width && f.height == height
    {
      ChannelFrame(channels[c], MaskOf(c), OffsetOf(c), planes[c], width, height)
    }

    function FinalOf(c: nat): (rows: seq<seq<Dot>>)
      requires Valid() && c < |channels|
      ensures |rows| == height && forall y :: 0 <= y < height ==> |rows[y]| == width
    {
      FinalRaster(channels[c], ReadParameters(parameters), FrameOf(c))
    }

    /** The packed lines of every channel. */
    function Lines(): (lines: seq<seq<seq<Byte>>>)
      requires Valid()
      ensures |lines| == |channels|
      ensures forall c :: 0 <= c < |channels| ==> lines[c] == PackRows(FinalOf(c))
      ensures forall c :: 0 <= c < |channels| ==>
                lines[c] == ScreenedLines(channels[c], MaskOf(c), c, seed, ReadParameters(parameters), planes[c],
                  width, height)
    {
      seq(|channels|, c requires 0 <= c < |channels| => PackRows(FinalOf(c)))
    }
  }
}
