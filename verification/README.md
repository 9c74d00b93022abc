# PrintFlow verification

PrintFlow turns a CMYK image into 2-bit-per-pixel plane-lines, keeps them in a spool file, uploads the spool to a
printer service and has it printed. This project models that path in Dafny and proves that the bytes a print backend
receives are those the simple full-frame algorithm would have produced, whichever engine built them and whatever else
happens around the upload.

`dafny verify dfyconfig.toml` checks everything.

## The parts

Screening. `PixelScreening` says what gating and classifying one pixel means, `Promotion` what the in-place 4x4 scan
leaves behind, `ScreenSpec` puts them together into the planned lines of a raster. `ScreenEngine` is the full-frame
engine, over planes and a two-dimensional array promoted in place; `BoundedPipeline` is the streaming engine, with a
rolling queue of at most four rows per channel, interleaved channels, strips of any height and a final flush. Both are
proved against the same specification. `Packing` does the same for their two packers.

Tones. `ToneStage` (X-33) and `MultiInkTones` with `InkSplit`, `NeutralTransfer` and `TransferCurves` (multi-ink) compute
tone planes by loops over arrays; they are proved equal to pointwise functions, so strips concatenate to the frame.
`ToneGate` settles when the gate is monotone.

Meanings. `PixelLaws`, `PromotionLaws`, `ToneLaws`, `CurveLaws`, `InkLaws` and `FormatLaws` say what each of these functions
computes in terms of its inputs alone: whole-number rules, exact bounds, byte offsets, keys and defaults. `PrintedSheet` puts
them together into what a reader finds in a printed file.

Jobs. `RasterBuild`, `RasterJob` and `MultiInkJob` build a spool by either engine, or by the fallback from the first to
the second, and prove that the file is the same. `StoragePreflight` is the storage estimate and the choice of engine.

`Arithmetic`, `RasterTypes`, `Octets` and `ByteCodec` hold what all of them share.

Spool. `SpoolFormat` is the header codec with its checksum, `SpoolBody` the theory of lines in a body, `SpoolWriter` and
`SpoolReader` the two classes, over the failing file store of `Storage`.

Upload. `PrinterService` is the protocol as a step function, `UploadSteps` and `UploadRuns` prove its invariants over whole
runs, `PrinterServer` is the service as a class whose history is such a run. `UploadHistory` and `UploadAttempt` say what a
client can conclude from that history, and `UploadClient` is the client loop against that class among other clients.
`CancelRace` is a cancelling thread against the uploading one and the service, `FrameCodec` the frame format,
`RasterProtocol` the in-memory raster transfer. `EndToEnd` composes everything.

## How it is modelled

Bytes, tones and dots are bounded integers; only the packers and the pixel hash use bit-vectors. Integer widths are written
out where the source can wrap or truncate: the pixel hash, the spool sizes and offsets, the raster size check, the storage
estimate, the upload counters. Floating-point weights are real numbers. The digest is an arbitrary function to 32 bytes;
where injectivity would be needed, the statement says "or there is a collision". Every file operation may fail at any
time and a failed write may leave anything behind; the file store counts its failures and the connection counts its own, so
contracts speak of failures since the call. The connection also keeps a ledger of the service events that were requests
of ours: a call's own upload is told from everybody else's by it. Whether the scratch file of a job can be created, written
and read back is a parameter. A cancellation flag may be raised between any two polls; it counts how often, so that
contracts can speak of cancellations during the call. A commit is two steps of the service, because nested requests are
answered while the backend prints. An identifier of an upload is never issued twice.

In the source the full-frame engine compares the first mask key with an empty cached key; if the first channel's mask key
is empty, it uses a mask that was never loaded. The model requires that one key to be non-empty, which the callers ensure.

## What the code does not do

These statements turned out false of the code; each has the exact condition under which it holds.

- Accepted spool metadata need not keep lines inside the file: a header declaring an empty body is accepted
  (`SpoolReader.LinesInsideUnlessEmpty`, `SpoolReader.EmptyBodyAccepted`).
- The tone gate is not monotone for a floor maximum two or more above its range (`ToneGate.GateMonotone`).
- The three-way split can fail to conserve tone when its bands are out of order: exactly for the tones whose two outer shares
  exceed them (`InkSplit.Split3Total`, `InkSplit.Split3Conserves`, `InkSplit.OverlapDoubles`).
- The light-ink fade can miss pixels changed by grey replacement once yellow has been linearized
  (`MultiInkTones.TablesFade`, `MultiInkTones.TablesFadeMisses`, `NeutralTransfer.LinearizedFadeCovers`).
- The bounded multi-ink path picks a plate by comparing paths and loses the varnish plate when it is the file configured for
  a white that does not use it, so the choice of path can change the printed bytes (`MultiInkJob.PlansAgree`,
  `MultiInkJob.ConflictChangesOutput`).
- A request to cancel an upload is refused while another job prints, so the upload stays until it expires
  (`UploadRuns.RefusedCancelStrands`).
- A cancellation is lost when it raises the client's flag after the last poll, when its abort is taken while nothing prints
  (the start of the job clears the backend's flag), or when its abort is taken after the backend has polled for its last line
  (`CancelRace.CancelLost`, `CancelRace.LosingSchedules`, `UploadRuns.AbortRecorded`).
- The in-memory raster transfer compares the payload with a size computed modulo 2^64: beyond that an accepted payload is
  shorter than its header says (`RasterProtocol.AcceptedShape`, `RasterProtocol.WrappedSizeAccepted`).

## Model

| member | source | states |
|---|---|---|
| `EndToEnd.PrintJob` | src/rip/PrintJobCMYK.cpp:410-586 | A whole X-33 job, by either engine: no request of this call hands the backend anything but, at most once and under this call's own announcement, a file that is line by line what the full-frame algorithm produces, whatever the strip height and whatever other clients do; and it is handed over unless the job is impossible, a file operation, the scratch file or the connection fails during the call, somebody cancels the job or its upload during the call, the final name is taken, or others obstruct this very upload |
| `EndToEnd.PrintMultiInkJob` | src/rip/PrintJobMultiInk.cpp:1078-1276 | The same for a multi-ink job of any ink set, with the plan of the path that succeeded |
| `EndToEnd.HandedPrintsPlan` | src/core/RasterSpool.cpp:387-410 | A finished file handed to the backend, read back plane-line by plane-line, is the packed final raster of the plan |
| `EndToEnd.FinalFileLines` | src/core/RasterSpool.cpp:275-305 | Reading a finalized spool line by line gives the lines it was made of |
| `EndToEnd.FinalizedSendable` | src/core/RasterSpool.cpp:275-305 | A finalized spool passes the announcement check and validates under any name on the receiving side |
| `EndToEnd.PrintedBodyIsAnnounced` | src/printerservice/PrinterServiceServer.cpp:455-483 | If an upload was announced with the metadata of a finalized spool, what is printed for it carries that spool's body, or two different messages with one digest exist |
| `PixelScreening.LiftTone` | src/rip/MultiInkScreenEngine.cpp:137-143 | Above the gate the tone is rescaled and lifted to the effective tone |
| `PixelLaws.HashValues` | src/rip/BoundedRasterPipeline.cpp:51-59 | The pixel hash at fixed points |
| `PixelLaws.NoiseIsHash` | src/rip/MultiInkScreenEngine.cpp:216 | The noise of a pixel is the hash of its coordinates for plane 0 and the screen's own seed, whatever the channel |
| `PixelLaws.NoiseValues` | src/rip/MultiInkScreenEngine.cpp:216 | That hash at four pixels |
| `PixelLaws.OffsetHalves` | src/rip/MultiInkScreenEngine.cpp:114-116 | A channel starts reading its mask at the low 31 bits and at the high half of a hash of its number and the seed |
| `PixelLaws.MaskTiles` | src/rip/MultiInkScreenEngine.cpp:118-122 | The mask repeats in both directions, is shifted by the offset, and is read row by row |
| `PixelLaws.MinimumExact` | src/rip/MultiInkScreenEngine.cpp:105-137 | The minimum stops what is at or below it, always the blank and never the full tone; above it dots are sized by the plain or the lifted tone |
| `PixelLaws.StretchExact` | src/rip/MultiInkScreenEngine.cpp:139 | Above the minimum the remaining tones are stretched over the whole scale, rounding down |
| `PixelLaws.LiftExact` | src/rip/MultiInkScreenEngine.cpp:141-145 | The floor lifts exactly the tones below its range, by the maximum's share of what they lack, at most to full tone |
| `PixelLaws.InkExact` | src/rip/MultiInkScreenEngine.cpp:147-149 | Ink goes exactly where the stretched and lifted tone is above the mask value; full tone prints everywhere but at 255 |
| `PixelLaws.SizeCuts` | src/rip/MultiInkScreenEngine.cpp:196-207 | The size of a dot compares the mask value, scaled by the tone, with two cuts moving from 64 and 130 to the two settings |
| `PixelLaws.SizeAtFullTone` | src/rip/MultiInkScreenEngine.cpp:196-207 | At full tone the two settings are the cuts |
| `PixelLaws.SwapExact` | src/rip/MultiInkScreenEngine.cpp:209-222 | Against the same channel without it, the swap inks the same pixels, exchanges small and large below tone 96, nothing from 160 on, and in between exactly where the noise byte is below the tone's share |
| `PixelLaws.UnswappedIsSize` | src/rip/MultiInkScreenEngine.cpp:196-207 | Without the swap an inked dot is its size class, by the plain tone or the lifted one, as the channel asks |
| `ToneGate.GateMonotone` | src/rip/MultiInkScreenEngine.cpp:105-149 | Raising a tone never turns ink off, for every minimum-ink threshold, exactly when the floor range is at most 1 or the floor maximum at most range + 1 |
| `ToneGate.NormalizedMonotone` | src/rip/BoundedRasterPipeline.cpp:720-740 | The normalized tone stays within 1..255 above the gate and does not fall when the tone rises |
| `ToneGate.SizeGrowsWithMask` | src/rip/MultiInkScreenEngine.cpp:198-207 | At a fixed tone a higher mask value never gives a smaller size class |
| `Promotion.Promoted` | src/rip/MultiInkScreenEngine.cpp:267-304 | One promotion decision raises a small or medium dot by one class or leaves the dot alone; which of the two it does is PromotionLaws.PromotedIsRule |
| `PromotionLaws.PromotedIsRule` | src/rip/MultiInkScreenEngine.cpp:238-304 | The decision is a rule over whole numbers: tone gate, inked neighbours and mean deviation first, then the draw against the first band of weights for a small dot and the second for a medium one |
| `PromotionLaws.SettledIsRule` | src/rip/MultiInkScreenEngine.cpp:262-304 | In the settled raster every interior dot follows that rule for the window it shows, the dots above and to the left as the scan leaves them; first row and column and the last two of each stay |
| `PromotionLaws.BandsApart` | src/rip/MultiInkScreenEngine.cpp:294-302 | No medium dot rises at or below the start of the second band; every open small dot of full tone rises from the end of the first, but for the highest draw |
| `PromotionLaws.ParameterKeys` | src/rip/MultiInkScreenEngine.cpp:235-242 | Every promotion setting has its key, its default and the limits of a byte, and moves nothing but itself |
| `Promotion.Settled` | src/rip/MultiInkScreenEngine.cpp:229-305 | What the in-place scan leaves at a pixel: a recursive raster-scan definition in which earlier pixels are seen settled and later ones raw |
| `Promotion.GoalPixel` | src/rip/MultiInkScreenEngine.cpp:267-304 | In the settled raster every visited pixel is the promotion of exactly what the scan sees when it gets there |
| `Promotion.GoalBorder` | src/rip/MultiInkScreenEngine.cpp:267-268 | First row and column and last two rows and columns are unchanged |
| `Promotion.PromotionSafety` | src/rip/MultiInkScreenEngine.cpp:267-304 | Over the whole scan blank stays blank, no dot falls or rises more than one class, only visited pixels at or above the tone gate change |
| `Promotion.PromotedMonotone` | src/rip/MultiInkScreenEngine.cpp:276-302 | More ink in the window never makes for a smaller centre |
| `Promotion.ScanMonotone` | src/rip/MultiInkScreenEngine.cpp:267-304 | The whole scan is monotone although promotions feed into later ones: more ink before it never leaves less ink anywhere after it |
| `ScreenEngine.Apply4x4Promotion` | src/rip/MultiInkScreenEngine.cpp:229-305 | The in-place scan over the full frame leaves the settled raster |
| `ScreenEngine.GateChannel` | src/rip/MultiInkScreenEngine.cpp:105-151 | Gating and dithering a whole plane gives, cell by cell, the specified ink decision, classification tone and effective tone |
| `ScreenEngine.DotClassification` | src/rip/MultiInkScreenEngine.cpp:180-227 | Classification gives every inked pixel the specified raw dot and leaves the others blank |
| `ScreenEngine.PackTo2Bpp` | src/rip/MultiInkScreenEngine.cpp:307-342 | Packs every row of the frame into the spool's line format |
| `ScreenEngine.ScreenOne` | src/rip/MultiInkScreenEngine.cpp:89-172 | One channel through gate, classification, optional promotion and packing gives its planned lines |
| `ScreenEngine.ScreenChannels` | src/rip/MultiInkScreenEngine.cpp:32-178 | The full-frame engine produces the planned lines of every channel, or fails for cancellation or a channel that is not acceptable; reusing the last mask changes nothing |
| `BoundedPipeline.MaskRows.FetchRow` | src/rip/BoundedRasterPipeline.cpp:73-126 | The cached mask row is the mask row that was asked for, whatever was cached before |
| `BoundedPipeline.ScreenState.PromoteCenterRow` | src/rip/BoundedRasterPipeline.cpp:154-225 | With four rows held, the second becomes its settled row and nothing else moves; a queue of any other length stays as it is |
| `BoundedPipeline.EmitFrontRow` | src/rip/BoundedRasterPipeline.cpp:227-239 | The oldest row is packed, written at its own line and forgotten; an empty queue is success and changes nothing |
| `BoundedPipeline.ProcessRow` | src/rip/BoundedRasterPipeline.cpp:710-780 | One row of one channel: afterwards the held rows are the oldest settled and the rest raw, and each row that left was written with its final dots |
| `BoundedPipeline.DistinctCells` | src/rip/BoundedRasterPipeline.cpp:703-705 | Cells logged once each are pairwise different |
| `BoundedPipeline.EmittedAll` | src/rip/BoundedRasterPipeline.cpp:703-792 | When nothing is held back any more, every channel and row has been written exactly once, with its final dots |
| `BoundedPipeline.HeldRowsFinal` | src/rip/BoundedRasterPipeline.cpp:787-792 | Rows left at the flush need no further promotion: they are final as they are |
| `BoundedPipeline.ScreenRaster` | src/rip/BoundedRasterPipeline.cpp:676-786 | All strips, rows and channels in the interleaved order, for any strip height and any memory budget |
| `BoundedPipeline.FlushAll` | src/rip/BoundedRasterPipeline.cpp:787-792 | The final flush completes every channel |
| `BoundedPipeline.ScreenToSpool` | src/rip/BoundedRasterPipeline.cpp:650-798 | On success each channel and row is written exactly once with the planned bytes, so no plane-line is missing; failure has a named cause |
| `BoundedPipeline.BoundedRowsForWidth` | src/rip/BoundedRasterPipeline.cpp:37-49 | As many rows as the budget holds, but at least one and at most 128: more than one row never exceeds the budget, and one row more would, below the maximum |
| `Packing.PackAccumulating` | src/rip/MultiInkScreenEngine.cpp:315-340 | The accumulating packer with padding yields the packed line of the row |
| `Packing.PackZeroed` | src/rip/BoundedRasterPipeline.cpp:142-152 | The pre-zeroed OR packer yields the same packed line, for every width |
| `Packing.UnpackPacked` | src/rip/MultiInkScreenEngine.cpp:307-342 | Unpacking recovers every dot level |
| `FormatLaws.PackedBytes` | src/rip/BoundedRasterPipeline.cpp:142-152 | A packed byte holds four dots, the leftmost in its highest bits; rows and lines are padded with zeros to a multiple of four bytes |
| `RasterBuild.MirrorsPacked` | src/rip/MultiInkScreenEngine.cpp:32-178 | A request that resolves channel by channel to a plan makes the full-frame engine produce exactly the plan's lines |
| `RasterBuild.ScreenPlanned` | src/rip/MultiInkScreenEngine.cpp:32-178 | Any list of channels, mixed promotion, swap, floor and effective-tone settings included: the full-frame engine carries out the plan or the plan is invalid or cancelled |
| `RasterBuild.SpoolPlanes` | src/rip/PrintJobCMYK.cpp:756-781 | Complete planes written plane after plane become the finalized file of those lines; any other ending leaves other files alone |
| `RasterBuild.SpoolStrips` | src/rip/BoundedRasterPipeline.cpp:650-798 | The bounded engine, fed strips that are slices of the plan's planes, ends in the finalized file of the plan's lines; any other ending leaves other files alone |
| `RasterBuild.OnceMakesBody` | src/core/RasterSpool.cpp:245-262 | Lines written once each, in any order, make the channel-major body |
| `RasterBuild.RangeIsStrip` | src/rip/BoundedRasterPipeline.cpp:676-701 | Row ranges of whole planes are strips of them |
| `RasterJob.ConfigurationsAgree` | src/rip/PrintJobCMYK.cpp:482-507 | The two X-33 paths configure every channel alike |
| `RasterJob.RequestMirrorsPlan` | src/rip/PrintJobCMYK.cpp:678-719 | The in-memory request of a job asks for exactly the plan the bounded path follows |
| `RasterJob.BuildInMemory` | src/rip/PrintJobCMYK.cpp:597-786 | The in-memory path ends in the job's one finished file, or has a named cause |
| `RasterJob.ProvideStrip` | src/rip/PrintJobCMYK.cpp:510-561 | Reading, separating, linearizing and adding white to a strip gives that strip of the tones |
| `RasterJob.ProviderSlices` | src/rip/PrintJobCMYK.cpp:510-561 | Strips are slices of the whole tone planes, wherever they are cut |
| `RasterJob.BuildBounded` | src/rip/PrintJobCMYK.cpp:427-586 | The bounded path ends in the same finished file |
| `RasterJob.BuildRasterSpool` | src/rip/PrintJobCMYK.cpp:410-586 | Choosing an engine, or falling back from the first to the second, never changes the file |
| `PrintedSheet.X33SheetPrinted` | src/rip/PrintJobCMYK.cpp:338-352 | Reading a printed X-33 file in the order its header gives finds yellow, magenta, cyan, black and, if there is white, white twice: each the samples of that separation through its own curve, screened with its own mask and settings |
| `PrintedSheet.X33SheetDelivered` | src/rip/PrintJobCMYK.cpp:410-586 | The file a build leaves on the disk is such a file |
| `PrintedSheet.LineIsPromoted` | src/rip/BoundedRasterPipeline.cpp:710-780 | A line of a separation is the packed row of its raw dots, sample by sample, after promotion if it promotes |
| `MultiInkJob.ChannelsAgree` | src/rip/PrintJobMultiInk.cpp:1147-1206 | The two multi-ink paths configure every channel of every ink set alike |
| `MultiInkJob.PlatesAgree` | src/rip/PrintJobMultiInk.cpp:1236-1254 | The two paths see the same plates exactly when the job has no plate conflict: varnish from the very file configured for white while white does not use its plate |
| `MultiInkJob.ConflictBlanksVarnish` | src/rip/PrintJobMultiInk.cpp:1243-1253 | In a conflict the bounded path lays down what no plate lays down where the in-memory path lays down the plate |
| `MultiInkJob.PlansAgree` | src/rip/PrintJobMultiInk.cpp:1078-1094 | Both paths follow one plan exactly when there is no conflict, or the conflicting plate comes out everywhere as no plate does |
| `MultiInkJob.ConflictChangesOutput` | src/rip/PrintJobMultiInk.cpp:1236-1254 | A job in conflict whose packed lines differ between the two paths |
| `MultiInkJob.BuildInMemory` | src/rip/PrintJobMultiInk.cpp:1285-1486 | The in-memory path ends in the finished file of its plan |
| `MultiInkJob.ProvideInkStrip` | src/rip/PrintJobMultiInk.cpp:1209-1254 | The strip provider gives that strip of the tones |
| `MultiInkJob.StripIsSlice` | src/rip/PrintJobMultiInk.cpp:1209-1254 | Strips are slices of the whole tone planes for every ink set |
| `MultiInkJob.BuildBounded` | src/rip/PrintJobMultiInk.cpp:1096-1276 | The bounded path ends in the finished file of its plan |
| `MultiInkJob.BuildRasterSpool` | src/rip/PrintJobMultiInk.cpp:1078-1276 | Either path, or the fallback, delivers the finished file of the plan of the path that succeeded |
| `PrintedSheet.InkSheetPrinted` | src/rip/PrintJobMultiInk.cpp:1147-1206 | Reading a printed multi-ink file in the order its header gives finds yellow, magenta, cyan, black, light magenta, light cyan, light black, lighter black, white, varnish, as far as the set has them, each with its own tones, mask and settings |
| `PrintedSheet.PlatesInMemory` | src/rip/PrintJobMultiInk.cpp:1285-1380 | In memory, white and varnish get the plate configured for them when their mode asks for one |
| `ToneStage.CanonicalFile.Create` | src/rip/BoundedRasterPipeline.cpp:529-609 | The scratch file holds the image, each sample scaled by its alpha to the nearest whole number, whatever the strip height of the export, or creating or writing it fails and no file is left |
| `ToneStage.CanonicalFile.ReadRows` | src/rip/BoundedRasterPipeline.cpp:611-639 | Rows read back are the slice of the whole image; a range outside it is refused, and so is one the file does not give back |
| `ToneStage.ScaledStretch` | src/rip/RasterAlphaMask.cpp:194-210 | Scaling rows by alpha is scaling the whole plane and taking those rows |
| `ToneStage.ScaleRows` | src/rip/RasterAlphaMask.cpp:194-210 | Row-wise alpha scaling equals whole-plane scaling; every sample becomes the whole number nearest to it times its alpha |
| `ToneStage.ApplyAlpha` | src/rip/RasterAlphaMask.cpp:137-146 | Every tone of a plane is scaled by its alpha sample, in place, to the nearest whole number |
| `ToneLaws.AlphaLaws` | src/rip/RasterAlphaMask.cpp:137-146 | Alpha 0 leaves nothing, 255 everything; the result exceeds neither tone nor alpha, is the nearest whole number and is monotone in both |
| `ToneLaws.InksApart` | src/rip/MultiInkLinearization.cpp:380-403 | Each ink of a pixel is its own sample through its own curve |
| `ToneLaws.WhiteModes` | src/rip/X33WhiteToneBuilder.cpp:47-105 | White is the density, the plate or the heaviest finished ink after threshold and density, through the white curve |
| `ToneLaws.WhiteExact` | src/rip/X33WhiteToneBuilder.cpp:7-18 | White coverage is nothing up to the threshold, then stretched over the scale and weighted by the density, rounding down twice; full coverage has the density |
| `ToneLaws.HeaviestExact` | src/rip/X33WhiteToneBuilder.cpp:78-85 | The underbase starts from one of the four inks, none heavier |
| `ToneStage.WhiteBounds` | src/rip/X33WhiteToneBuilder.cpp:7-17 | Threshold and density keep the white tone within a byte |
| `ToneStage.BuildWhite` | src/rip/X33WhiteToneBuilder.cpp:47-105 | The white plane is, pixel by pixel, flood, plate or heaviest ink after threshold and density; it fails only for a missing plate |
| `ToneStage.ApplyCurve` | src/rip/MultiInkLinearization.cpp:380-414 | A curve is applied to every tone of a plane, in place, or to none when there are no curves |
| `ToneStage.BuildTones` | src/rip/PrintJobCMYK.cpp:510-561 | The step-by-step tone stage gives the pointwise planes |
| `ToneStage.PlanesOfStretch` | src/rip/PrintJobCMYK.cpp:510-561 | The X-33 tone stage is pointwise: on a stretch of pixels it gives that stretch of every plane |
| `InkSplit.Split2Conserves` | src/rip/MultiInkToneBuilder.cpp:111-126 | Dark plus light is the input for any start and end; outside an ascending ramp everything goes to one ink |
| `InkSplit.DarkMonotone` | src/rip/MultiInkToneBuilder.cpp:111-126 | With an ascending ramp a darker tone never gets less dark ink |
| `InkSplit.Split3Total` | src/rip/MultiInkToneBuilder.cpp:135-156 | The three-way split adds up to the larger of the tone and its two outer shares: it conserves the tone exactly when those do not exceed it |
| `InkSplit.Split3Conserves` | src/rip/MultiInkToneBuilder.cpp:135-156 | Ascending bands of which the first neither starts nor ends after the second conserve every tone, even where they overlap |
| `InkSplit.OverlapDoubles` | src/rip/MultiInkToneBuilder.cpp:135-156 | Bands out of order can double the ink |
| `CurveLaws.RampIsCubic` | src/rip/MultiInkLinearization.cpp:36-43 | The ramp is the cubic 3t^2 - 2t^3 between its edges, 0 before and 1 beyond |
| `CurveLaws.RampReverses` | src/rip/MultiInkLinearization.cpp:36-43 | A ramp whose edges are exchanged runs the other way |
| `CurveLaws.SplitShares` | src/rip/MultiInkToneBuilder.cpp:111-126 | The dark ink gets the ramp's share of the tone, to the nearest whole number, and the light ink the rest |
| `CurveLaws.BlackBands` | src/rip/MultiInkToneBuilder.cpp:135-156 | Black is all lighter ink before the bands, all light ink between them and all dark ink beyond them |
| `CurveLaws.BlackShares` | src/rip/MultiInkToneBuilder.cpp:135-156 | The outer blacks get the ramps' shares of the tone, to the nearest whole number |
| `NeutralTransfer.ApplyGcr` | src/rip/MultiInkToneBuilder.cpp:158-198 | Grey replacement in place transforms every pixel as specified |
| `NeutralTransfer.TransferPixel` | src/rip/MultiInkToneBuilder.cpp:171-196 | One pixel, step by step, without underflow |
| `NeutralTransfer.TransferKeeps` | src/rip/MultiInkToneBuilder.cpp:158-198 | Chroma is preserved, black never falls, a changed pixel stays inside the neutral gate |
| `ToneLaws.TransferExact` | src/rip/MultiInkToneBuilder.cpp:158-198 | The strength's share of the least colour leaves all three, black gains the gain's share of it and at least the minimum; pixels outside the gate stay |
| `ToneLaws.ExtremesExact` | src/rip/MultiInkToneBuilder.cpp:171-173 | The neutrality gate and the transfer work with the least and the greatest of the three colours |
| `ToneLaws.FadeExact` | src/rip/MultiInkToneBuilder.cpp:200-229 | A faded ink keeps what the percentage leaves of it, rounding down |
| `NeutralTransfer.TransferInk` | src/rip/MultiInkToneBuilder.cpp:158-198 | Total ink grows exactly when the black minimum adds more than the three colours give up |
| `NeutralTransfer.ApplyFade` | src/rip/MultiInkToneBuilder.cpp:200-229 | Both light inks are faded in place exactly where the given colours are neutral |
| `NeutralTransfer.FadeCoversTransfer` | src/rip/MultiInkToneBuilder.cpp:636-642 | The fade covers every pixel grey replacement changed, where it sees the transferred colours |
| `NeutralTransfer.LinearizedFadeCovers` | src/rip/MultiInkToneBuilder.cpp:606-619 | Where yellow is linearized first, a changed pixel is covered exactly when it is still neutral with the linearized yellow |
| `TransferCurves.BuildLutFromTransferPairs` | src/rip/MultiInkLinearization.cpp:177-220 | The loop fills the table with the polyline through the pairs, or the identity for unusable pairs |
| `TransferCurves.CurveMonotone` | src/rip/MultiInkLinearization.cpp:177-220 | Ascending pairs give an ascending polyline within its end values |
| `TransferCurves.LutMonotone` | src/rip/MultiInkLinearization.cpp:177-220 | Ascending x with non-decreasing y give a non-decreasing table |
| `TransferCurves.DiagonalIsIdentity` | src/rip/MultiInkLinearization.cpp:177-220 | The curve through (0,0) and (1,1) is the identity table |
| `CurveLaws.CurvePassesThrough` | src/rip/MultiInkLinearization.cpp:177-220 | A curve is level outside its pairs and straight between neighbouring ones |
| `CurveLaws.EntryRounds` | src/rip/MultiInkLinearization.cpp:177-220 | A table entry is the curve at that point, limited to the unit interval, to the nearest byte |
| `CurveLaws.DerivedShape` | src/rip/MultiInkLinearization.cpp:223-245 | A derived entry is the parent's times the strength up to the start of the fade, nothing from its end on, and in between the ramp's remainder of it |
| `CurveLaws.DerivedFalls` | src/rip/MultiInkLinearization.cpp:223-245 | With a parent that does not rise, nor does the derived table |
| `CurveLaws.LoadedLightInks` | src/rip/MultiInkLinearization.cpp:248-372 | After a load, light cyan and light magenta without a curve repeat their parent up to entry 114 and are absent from 204 on; light black is at 95 percent up to 140 and absent from 225, lighter black at 85 percent up to 76 and absent from 166 |
| `CurveLaws.LoadedTables` | src/rip/MultiInkLinearization.cpp:310-372 | Every other table is that of the last curve given for its separation, or the identity |
| `CurveLaws.LastCurveCounts` | src/rip/MultiInkLinearization.cpp:310-372 | Among several curves for one separation the last one counts |
| `TransferCurves.DerivedAtMostParent` | src/rip/MultiInkLinearization.cpp:223-245 | A derived light-ink table is pointwise at most its parent, for any fade and strength |
| `TransferCurves.Linearization.DeriveMissingLightChannels` | src/rip/MultiInkLinearization.cpp:248-282 | Exactly the missing light channels with a loaded parent change, to the parent's curve faded out over the range and with the strength of that ink, which is pointwise at most the parent's |
| `TransferCurves.Linearization.LoadTransferCurves` | src/rip/MultiInkLinearization.cpp:310-377 | After a load the tone stages read, grouped by separation, each channel's last curve, for a light channel without one the table derived from its parent, and the identity for the rest; after a failed load they read no tables |
| `TransferCurves.LoadedAtMostParent` | src/rip/MultiInkLinearization.cpp:248-307 | After a load a light channel without a curve of its own is pointwise at most its parent |
| `MultiInkTones.CrossfadeConserves` | src/rip/MultiInkToneBuilder.cpp:620-645 | Cross-faded ink sets with grey replacement off lay down exactly the separation in dark and light inks together, black included when its bands are in order |
| `MultiInkTones.CrossfadeFadeCovers` | src/rip/MultiInkToneBuilder.cpp:636-642 | On the cross-faded path the light inks are faded in every pixel grey replacement changed |
| `MultiInkTones.DerivedInkAtMostDark` | src/rip/MultiInkLinearization.cpp:285-307 | With loaded tables a light ink without a curve of its own prints, at any pixel, at most what its dark ink prints, whatever grey replacement and fading do |
| `MultiInkTones.TablesFade` | src/rip/MultiInkToneBuilder.cpp:606-619 | With tables, in the sets of eight colour inks, the light inks of a changed pixel are faded exactly when it is still neutral with the linearized yellow |
| `MultiInkTones.TablesFadeMisses` | src/rip/MultiInkToneBuilder.cpp:606-619 | Default settings and a table that doubles yellow: grey 100 is replaced, but its light inks keep 38 instead of 11 and 19 |
| `MultiInkTones.BuildSpecialty` | src/rip/MultiInkToneBuilder.cpp:357-424 | A specialty plane is coverage, flood or plate after threshold and density, then its curve; a missing plate leaves it off |
| `MultiInkTones.BuildColourInks` | src/rip/MultiInkToneBuilder.cpp:435-653 | The colour inks of every ink set, and the finished separations, are the pointwise ones |
| `MultiInkTones.BuildToneChannels` | src/rip/MultiInkToneBuilder.cpp:309-730 | The tone builder gives the pointwise planes of every ink of the set |
| `MultiInkTones.PlanesOfPart` | src/rip/MultiInkToneBuilder.cpp:309-730 | The multi-ink tone stage is pointwise: on a stretch of pixels it gives that stretch of every plane |
| `InkLaws.TonesByInk` | src/rip/MultiInkToneBuilder.cpp:433-730 | In every ink set each channel has the tone of its ink: its own separation after grey replacement, through its own table or its share of the split |
| `InkLaws.GreySettings` | src/rip/MultiInkToneBuilder.cpp:43-56 | Every setting of grey replacement and fading has its key, default and limits |
| `InkLaws.RampSettings` | src/rip/MultiInkToneBuilder.cpp:519-695 | The ramps of the light inks have their keys and, for each set, their defaults |
| `SpoolFormat.BodySizeExact` | src/core/RasterSpool.cpp:151-160 | For valid metadata the overflow-checked body size is the exact product, and header plus body stay below 2^63 |
| `SpoolFormat.HeaderRoundTrip` | src/core/RasterSpool.cpp:22-97 | Decoding an encoded valid header gives back the same metadata and checksum |
| `FormatLaws.HeaderFront` | src/core/RasterSpool.cpp:22-43 | The first 34 bytes of the header: magic, version, header size, width, height, resolutions, bytes of a line, highest byte first |
| `FormatLaws.HeaderMiddle` | src/core/RasterSpool.cpp:22-43 | Then format, logical channels, body bytes and the checksum |
| `FormatLaws.HeaderEnd` | src/core/RasterSpool.cpp:22-43 | Then the printer's twelve words, the number of physical channels, their order, and zeros |
| `FormatLaws.MetadataRules` | src/core/RasterSpool.cpp:151-192 | Exactly which metadata are valid |
| `FormatLaws.MessageCoversAll` | src/core/RasterSpool.cpp:99-133 | The digest covers everything the header records, and the body |
| `FormatLaws.VerifiedMeans` | src/core/RasterSpool.cpp:345-369 | A file verifies exactly when it reads as a spool and its digest is the recorded one, and the one the caller holds, if any |
| `FormatLaws.SameJobMeans` | src/printerservice/PrinterServiceServer.cpp:461-471 | Two announcements are of one job exactly when they differ in nothing but the place of the file and of its body |
| `FormatLaws.BodyLayout` | src/core/RasterSpool.cpp:387-392 | The body holds channel after channel, each row by row |
| `SpoolFormat.FinalFileVerifies` | src/core/RasterSpool.cpp:326-369 | A finalized file reads back as the metadata it was finalized with and verifies |
| `SpoolFormat.VerifiedBody` | src/core/RasterSpool.cpp:345-369 | A verified file with the metadata of a finalized spool carries its body, or a digest collision exists |
| `SpoolBody.PutLine` | src/core/RasterSpool.cpp:238-262 | Writing a line changes that line and no other: line ranges never overlap |
| `SpoolBody.LinesTile` | src/core/RasterSpool.cpp:238-243 | The lines tile the body: it is their concatenation and nothing else |
| `SpoolBody.ConcatLine` | src/core/RasterSpool.cpp:387-410 | Conversely line k of the concatenation is the k-th line |
| `SpoolBody.AnyWriteOrder` | src/core/RasterSpool.cpp:245-262 | Once every line has been written with its own bytes, the body does not depend on order or repeats |
| `SpoolBody.UnwrittenLine` | src/core/RasterSpool.cpp:245-262 | A line no write names keeps its bytes |
| `SpoolWriter.Writer.Create` | src/core/RasterSpool.cpp:200-236 | A new partial file is the encoded header without checksum followed by a body of zeros; a failed creation leaves nothing open and other files alone |
| `SpoolWriter.Writer.WriteLine` | src/core/RasterSpool.cpp:245-262 | A line in range is written at its place and marked; anything else is refused without effect on the log |
| `SpoolWriter.Writer.Finalize` | src/core/RasterSpool.cpp:275-305 | Yields the final file, with checksum, only when every line was written; any other ending leaves no final file and other files alone |
| `SpoolWriter.Writer.Cancel` | src/core/RasterSpool.cpp:307-319 | Removes the unfinished file |
| `SpoolWriter.Writer.Destroy` | src/core/RasterSpool.cpp:194-198 | Whatever was not finalized is removed |
| `SpoolWriter.ChecksumBody` | src/core/RasterSpool.cpp:99-133 | The chunked hash loop hashes the canonical header and then the whole body |
| `SpoolReader.OffsetExact` | src/core/RasterSpool.cpp:387-392 | The reader's 64-bit offset never wraps: it is the exact line position, inside header plus implied body and below 2^63 |
| `SpoolReader.LinesInsideUnlessEmpty` | src/core/RasterSpool.cpp:162-192 | Accepted metadata keeps every line inside the file exactly when the declared body is not empty |
| `SpoolReader.EmptyBodyAccepted` | src/core/RasterSpool.cpp:187-191 | A header declaring an empty body is accepted although none of its lines is in the file |
| `SpoolReader.ChunksJoin` | src/core/RasterSpool.cpp:412-431 | Body chunks concatenate to the body, whatever the limits of the calls are |
| `SpoolReader.Reader.Open` | src/core/RasterSpool.cpp:371-385 | Opening succeeds only for readable metadata, and with verification only for a holding checksum |
| `SpoolReader.Reader.ReadLine` | src/core/RasterSpool.cpp:394-410 | A line read is that line of the body; a refusal has a named cause |
| `SpoolReader.Reader.ReadBodyChunk` | src/core/RasterSpool.cpp:412-431 | A chunk read is that part of the body; a refusal has a named cause |
| `PrinterService.NamesApart` | src/printerservice/PrinterServiceServer.cpp:383-384 | Uploads never share a name and no partial name is a final name |
| `UploadSteps.UploadStep` | src/printerservice/PrinterServiceServer.cpp:352-526 | What one event does to each upload and its file: begun empty, extended by an accepted chunk, ended, or left exactly as it was; the service invariant is kept |
| `UploadSteps.RecordStep` | src/printerservice/PrinterServiceServer.cpp:401-427 | An upload keeps what it was begun with |
| `UploadSteps.PrintStep` | src/printerservice/PrinterServiceServer.cpp:474-483 | A job starts only by a commit, keeps its file unchanged, and ends only when the backend is done |
| `UploadSteps.RefusedWhilePrinting` | src/printerservice/PrinterServiceServer.cpp:249-252 | While a job prints exactly the requests other than ping and an abort that can leave its mark are refused, a cancel of an upload included, and nothing changes but the flag such an abort raises |
| `UploadSteps.FlagStep` | src/vendor/nocai/NocaiDirectPrintClient.cpp:1447-1450 | The backend's cancellation flag is raised by an abort that is taken, cleared by the start of a job, and left alone by everything else |
| `UploadSteps.SubmissionStep` | src/printerservice/PrinterServiceServer.cpp:438-480 | A submission hands over the complete upload, validated and with the announced metadata |
| `UploadSteps.CommitAccepted` | src/printerservice/PrinterServiceServer.cpp:438-480 | A commit is accepted exactly when the upload is complete, files work, the final name is free and the file validates with the announced metadata |
| `UploadSteps.BeginAcceptedExactly` | src/printerservice/PrinterServiceServer.cpp:352-400 | A begin request is accepted exactly when nothing prints, the announcement is coherent, free storage covers the file and a fifth more, and the file can be created; no sum wraps around |
| `UploadSteps.AppendAcceptedExactly` | src/printerservice/PrinterServiceServer.cpp:401-427 | A chunk is accepted exactly when nothing prints, it continues a live upload, is not empty, is at most a mebibyte, does not overrun the announced length and can be written; no sum wraps around |
| `UploadSteps.AccountedStep` | src/printerservice/PrinterServiceServer.cpp:401-526 | As long as removals succeed an event leaves no stray file |
| `UploadRuns.EveryStateConsistent` | src/printerservice/PrinterServiceServer.cpp:352-526 | The invariant, and the match between every live upload and its history, hold in every reachable state of every run |
| `UploadRuns.LiveUploads` | src/printerservice/PrinterServiceServer.cpp:401-427 | In every reachable state a live upload's file is the in-order concatenation of its accepted chunks; its length is the received count, at most the announced length |
| `UploadRuns.OnlyCompleteUploadsPrint` | src/printerservice/PrinterServiceServer.cpp:438-483 | A spool reaches the backend only as a complete, verified upload matching its begin request |
| `UploadRuns.PrintingHasCause` | src/printerservice/PrinterServiceServer.cpp:474-483 | The backend holds a job only because an upload was submitted and its print is not over |
| `UploadRuns.NeverBack` | src/printerservice/PrinterServiceServer.cpp:438-446 | An identifier that was used and is no longer live never comes back |
| `UploadRuns.SubmittedAtMostOnce` | src/printerservice/PrinterServiceServer.cpp:438-446 | Each upload is submitted at most once |
| `UploadRuns.PrintsAlone` | src/printerservice/PrinterServiceServer.cpp:249-252 | Until the backend is done nothing else is submitted and the printed file stays unchanged; neither cancel nor expiry can remove it |
| `UploadRuns.Undisturbed` | src/printerservice/PrinterServiceServer.cpp:401-450 | No event of other clients, no sweep of other uploads and no print disturbs an upload |
| `UploadRuns.ActivityRecorded` | src/printerservice/PrinterServiceServer.cpp:424-425 | A live upload remembers when it was last begun or extended |
| `UploadRuns.ExpiryExact` | src/printerservice/PrinterServiceServer.cpp:515-526 | A sweep ends an upload exactly when nothing has begun or extended it for five minutes |
| `UploadRuns.RefusedCancelStrands` | src/printerservice/PrinterServiceServer.cpp:249-252 | A cancel during a print is refused, and if nothing more is asked about the upload it stays live with its file until a sweep at least five minutes after it was last begun or extended, and no longer |
| `UploadRuns.AbortRecorded` | src/vendor/nocai/NocaiDirectPrintClient.cpp:1447-1450 | While a job prints, the backend's flag is up exactly when the backend has taken an abort since the job was submitted: one taken before is forgotten |
| `UploadRuns.NothingLeftBehind` | src/printerservice/PrinterServiceServer.cpp:401-526 | If removals succeed the disk holds only what it held before, live partial files and the printed file |
| `PrinterServer.Server.HandleRequest` | src/printerservice/PrinterServiceServer.cpp:240-512 | The imperative dispatcher takes exactly the step of the protocol; its history is always a run |
| `PrinterServer.Server.BeginRasterUpload` | src/printerservice/PrinterServiceServer.cpp:352-400 | The handler makes the specified begin step under a new identifier; refusals have a named cause |
| `PrinterServer.Server.AppendRasterChunk` | src/printerservice/PrinterServiceServer.cpp:401-427 | The handler makes the specified append step, removal after a failed write included |
| `PrinterServer.Server.CancelRasterUpload` | src/printerservice/PrinterServiceServer.cpp:428-437 | The handler makes the specified cancel step |
| `PrinterServer.Server.CommitRasterUpload` | src/printerservice/PrinterServiceServer.cpp:438-479 | The handler makes the specified commit step up to the submission |
| `PrinterServer.Server.FinishPrint` | src/printerservice/PrinterServiceServer.cpp:475-482 | After the print the flag is cleared and the file removed |
| `PrinterServer.Server.RemoveExpiredUploads` | src/printerservice/PrinterServiceServer.cpp:515-526 | The loop over the uploads drops exactly the expired ones and their files, in any order |
| `PrinterServer.Server.Interleave` | src/printerservice/PrinterServiceServer.cpp:240-526 | Whatever others do in between, the history stays a run |
| `UploadHistory.ChunksGrow` | src/printerservice/PrinterServiceServer.cpp:401-427 | Accepted chunks are never taken back |
| `UploadHistory.ChunkAccepted` | src/printerservice/PrinterServiceClient.cpp:824-857 | An accepted chunk starts where the upload ended and is there afterwards |
| `UploadHistory.CompleteUploadSubmits` | src/printerservice/PrinterServiceClient.cpp:864-867 | A complete upload that validates is submitted unless a file operation fails or the moment is bad |
| `UploadAttempt.ChunkAnswered` | src/printerservice/PrinterServiceClient.cpp:840-857 | Every chunk of the client is accepted, or refused for a cause outside the client |
| `UploadAttempt.CommitAnswered` | src/printerservice/PrinterServiceClient.cpp:864-871 | A commit after the whole file hands exactly the file over, or is refused for a cause outside the client |
| `UploadClient.SendFile` | src/printerservice/PrinterServiceClient.cpp:822-863 | The upload loop terminates with the whole file sent and nothing else in the upload, or gives up for a named cause |
| `UploadClient.SubmitSpooledJob` | src/printerservice/PrinterServiceClient.cpp:741-871 | Whatever other clients do, no request of this call hands the backend anything but, at most once and under this call's own announcement, exactly the spool's bytes; and it hands them over if the spool is in order, nothing fails and nobody cancels during the call, and nobody obstructs this very upload; a flag still up from before is lowered first |
| `CancelRace.CancelLost` | src/printerservice/PrinterServiceClient.cpp:858-876 | However uploading and cancelling interleave, and whatever state of the service they meet: once both are through, the job was not turned down and did not fail of its own, and the canceller was not told that its abort failed, the job is printed to the end exactly when the client's flag was raised after its last poll, or the abort was taken while nothing printed, or it was taken after the backend's last poll |
| `CancelRace.LosingSchedules` | src/printerservice/PrinterServiceClient.cpp:858-880 | Each of the three ways of losing a cancellation happens to any commit that starts its job |
| `CancelRace.FlagIgnored` | src/vendor/nocai/NocaiDirectPrintClient.cpp:1447-1450 | A commit is answered the same, and starts the same job, whether or not an abort was taken before |
| `RasterProtocol.SerializeRaster` | src/printerservice/PrinterServiceProtocol.cpp:292-327 | The loop yields the lines in physical row order, or nothing when a line is missing or misshapen or the size does not agree |
| `RasterProtocol.DeserializeRaster` | src/printerservice/PrinterServiceProtocol.cpp:329-396 | Rejects exactly what is not acceptable; of the rest it stores each line under its channel and row, the last mention of a channel winning, when the payload has the announced length; otherwise the loop runs past the end of a payload that is too short |
| `RasterProtocol.AcceptedShape` | src/printerservice/PrinterServiceProtocol.cpp:21-35 | An accepted payload has the announced length exactly when that length fits in 64 bits and the channel count in 31 |
| `RasterProtocol.AcceptedLength` | src/printerservice/PrinterServiceProtocol.cpp:329-396 | An accepted payload is never longer than its header announces, so whenever its length differs it is too short |
| `RasterProtocol.WrappedSizeAccepted` | src/printerservice/PrinterServiceProtocol.cpp:21-35 | A header announcing 2^64 bytes is accepted with an empty payload |
| `RasterProtocol.SerializedIsBounded` | src/printerservice/PrinterServiceProtocol.cpp:21-35 | A raster that serializes never wraps around: its payload has its true size |
| `RasterProtocol.SerializedIsAcceptable` | src/printerservice/PrinterServiceProtocol.cpp:329-375 | A serialized raster is accepted exactly when its channels are at most 15 and format and header are well-formed |
| `RasterProtocol.RoundTrip` | src/printerservice/PrinterServiceProtocol.cpp:292-396 | Deserializing a serialized raster restores every referenced plane-line, repeats included, and serializes to the same payload |
| `FormatLaws.PayloadLayout` | src/printerservice/PrinterServiceProtocol.cpp:292-327 | A payload holds row after row, in each row its lines in the order of the channel list |
| `FormatLaws.SerializesExactly` | src/printerservice/PrinterServiceProtocol.cpp:292-327 | A raster whose announced size fits in 64 bits serializes exactly when it is neither empty nor over 512 MiB and every announced line is there at its announced length |
| `FormatLaws.AcceptedExactly` | src/printerservice/PrinterServiceProtocol.cpp:329-375 | Exactly which rasters are accepted, when their size fits in 64 bits |
| `FrameCodec.Connection.Take` | src/printerservice/PrinterServiceProtocol.cpp:74-118 | One frame is consumed from the front of the buffer exactly as specified |
| `FrameCodec.FrameBack` | src/printerservice/PrinterServiceProtocol.cpp:55-118 | A whole frame is taken off whatever follows it and yields its message |
| `FrameCodec.PartialFrameWaits` | src/printerservice/PrinterServiceProtocol.cpp:82-101 | While a frame has not arrived completely nothing is consumed |
| `FrameCodec.StreamBack` | src/printerservice/PrinterServiceProtocol.cpp:55-118 | Frames back to back are taken off as the same messages in the same order |
| `FormatLaws.FrameLayout` | src/printerservice/PrinterServiceProtocol.cpp:55-72 | A frame is the length of what follows, the magic, the version and the message, at most 512 MiB |
| `FormatLaws.FrameRefused` | src/printerservice/PrinterServiceProtocol.cpp:82-101 | A buffer announcing an empty or too large frame is invalid and nothing is taken off it |
| `FormatLaws.PreambleRefused` | src/printerservice/PrinterServiceProtocol.cpp:95-117 | A whole frame that does not begin with the magic and the version is taken off the buffer and is invalid |
| `StoragePreflight.EstimateParts` | src/rip/BoundedRasterPipeline.cpp:392-468 | Every part of the estimate is exact, or one of them exceeds 64 bits |
| `StoragePreflight.PreflightStorage` | src/rip/BoundedRasterPipeline.cpp:380-491 | A job is admitted exactly when what it needs in the quantities of the image, and a fifth more, is within the free space |
| `StoragePreflight.NeedIsRequired` | src/rip/BoundedRasterPipeline.cpp:404-468 | What a job needs, written out in pixels, source pixels, line bytes and planes, is the sum of the eight parts |
| `StoragePreflight.SelectRasterStrategy` | src/rip/BoundedRasterPipeline.cpp:493-527 | The full-frame engine is chosen exactly when dimensions and channels are positive, the pixel count fits a signed 32-bit integer, strips are not forced, and its bytes a pixel plus 8 MiB are within 4 GiB or memory is forced; the overflow check of the estimate never decides |

## Left out

- ImageMagick, colour profiles, resizing and image decoding: decoded samples, masks, alpha and plates are inputs.
- The print backend, the vendor library and the exported PRN files: the model stops at the spool handed to the backend.
- Sockets, the event loop, time-outs, service start and restart: a request or its reply may be lost, and requests of other
  clients may be answered in between.
- Message maps are values; only their framing is modelled. Reading settings back from a map is not modelled.
- Commands that do not touch uploads, the whole-raster `submitJob` included, change nothing in the service model. The source
  sets no print-in-progress flag for `submitJob`, so nothing is claimed about it and a committed job excluding each other.
- Waiting for the vendor library's own abort, and what an abort does to the paper.
- Width times height is an exact integer in the engines; the source keeps it in a signed 32-bit integer in the full-frame
  engine, and `StoragePreflight.SelectRasterStrategy` shows that this engine is chosen only when it fits.
- RasterProtocol.DeserializeRaster: for an accepted payload that is shorter than announced it says that the loop runs past
  the end, not what is read there, which the source does not define.
- ScreenEngine.ScreenChannels: requires the first channel's mask key to be non-empty, because with an empty one the source
  samples a mask that was never loaded.
- `CancelRace` has one client and one job besides whatever state the service was in, and its connection does not fail. It
  follows the isolated print worker; on 64-bit ARM Linux the job prints inside the service, where an abort also reaches the
  vendor library directly.
- Which rows of a scratch file cannot be read back is fixed for a job; what a failed read leaves in a buffer is not modelled.
- `MaskRows` reads its rows from a decoded mask; the image library's row access is an input.
- A mask is identified by its key; two keys that name one file are two masks.
- `TransferCurves` starts from parsed pairs; XML parsing and separation names are not modelled. The search for a segment is
  its specification, the first position that is not below, not the library's binary search.
- Rounding is that of exact real arithmetic, not of the source's floating-point types.
- Progress reports, log messages and error texts.
- EndToEnd.PrintJob: assumes that the service keeps its files on a store of its own, separate from the spool directory.
- EndToEnd.PrintMultiInkJob: likewise; with a plate conflict it promises the plan of the path that succeeded, not one plan.
- TransferCurves.LutMonotone: for exact real arithmetic, because rounding of the source's doubles is not modelled.
- Start-up removal of stale partial files, and removal of uploads when the service ends.
