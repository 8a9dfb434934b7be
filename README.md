# Eremore editing pipeline in Dafny

Eremore is a RAW-photo converter. This project models the part of it that
turns a mosaic of sensor samples into an edited, exportable image, and proves
properties of that model:

- the incremental **editor** (`Editor`). It keeps its engines in insertion
  order, each with an update flag. A run re-processes the engines from the
  first flagged one on, each from a deep copy of its cached input.
- the **edit stages** it runs:
  - Bayer demosaicing (split into native channels, and the nearest-neighbour
    copy fill);
  - tone mapping (black-level correction, input clip, curve, output clip, and
    the same curve applied to the camera white-balance multipliers);
  - white balance (rgb scale, camera, white patch, gray world, with
    normalisation to sum 3);
  - quarter-turn rotation.
- the **exporter-side** demosaicers and tone mappers;
- the OpenCV exporter with its cached 8-bit lookup table;
- the standalone array **exporters**;
- the `get_attributes` helper.

## How the model is organised

- `common.dfy`: the errors the pipeline can raise, `Option`/`Result`,
  `numpy.clip`, and the float-to-unsigned casts (truncation toward zero, then
  wrap-around).
- `raster.dfy`: the sample buffer and the `Image` record.
  - A `Raster` is either an H x W mosaic (`Mono`) or an H x W x 3 array kept
    as three planes (`Color`).
  - An `Image` holds the raster and the optional camera white-balance
    multipliers. The pipeline reads those multipliers although the image
    class declares only the raw buffer.
- `cfa.dfy`: the colour-filter-array geometry and the two index-arithmetic
  demosaicers, which both demosaicer modules share.
  - Each algorithm is written twice: as a function (`Split`, `Copy`), and as a
    method with the source's loops over colour sites (`RunSplit`, `RunCopy`)
    that is proved equal to it.
  - Strided slice assignments are `Scatter`, `ColCopy` and `RowCopy`. numpy's
    shape rule for them (equal lengths, or a length-1 broadcast) is `Fits`.
- `edit_demosaicer.dfy`, `core_demosaicer.dfy`: the two demosaicer families.
  - The editor's family stores into a uint16 buffer.
  - The exporter's family stores into a float buffer.
- `tone_curve.dfy`: the affine level map shared by tone mappers and exporters.
- `edit_tone_mapper.dfy`, `core_tone_mapper.dfy`: the two tone-mapper
  families.
- `edit_white_balancer.dfy`: scale estimation, normalisation and the
  per-channel multiply.
- `rotation.dfy`, `edit_rotator.dfy`, `engines_rotator.dfy`: `numpy.rot90`
  as an index permutation, and the two rotators.
- `core_exporter.dfy`, `export_exporter.dfy`: the lookup-table exporter and
  the array exporters.
- `attributes.dfy`: `get_attributes`.
- `editor.dfy`: the editor.

### Modelling choices

- **Numbers.** Samples are exact `real`s. The uint8 and uint16 casts are
  written out as truncation toward zero followed by wrap-around. A numpy
  result made of inf or nan is reported as the error `NonFinite`, where
  numpy would only warn.
- **Editor.**
  - `Editor.Editor` is a class. Its dictionaries are `map` fields plus a
    `seq` holding the insertion order, and its methods update them in place.
  - It is generic in the engine type `E`. It calls nothing of an engine but
    `process` (a `Processor<E>`) and its name (`nameOf`).
  - `StageProcessor` is the processor of the four edit stages.
  - Images are values: the editor deep-copies each cached input before
    processing it. Engines are values by choice. In the source they are
    objects shared by reference and assigned in place, and that aliasing
    is listed under "Left out".
  - An engine's `process` returns the processed image together with the
    engine as it is afterwards. This matters for the white balancer, which
    stores scales in its engines.
- **Stage engines.** Engines whose fields callers assign are datatypes with
  setter functions.
- **Exporter.** The OpenCV exporter is a class, because its lookup table is
  cached in a field that only `UpdateExportMappingTable` rebuilds.
- **Untracked exceptions.** Where the source raises an exception that it
  does not itself check for, the model returns the Python exception it
  would raise:
  - unpacking a three-dimensional shape into height and width: `ValueError`;
  - a non-broadcastable slice assignment: `ValueError`;
  - indexing a scalar percentile: `IndexError`;
  - a missing dictionary key: `KeyError`;
  - a division by zero whose operands are Python numbers, not arrays:
    `ZeroDivisionError`.

### Where the code and its description differ (the code is followed)

- **Re-adding an engine.** Adding an engine under a name that is already
  present replaces it silently. The name keeps its place in the order and
  its flag is reset. No error is raised.
- **Nothing flagged.** Running the editor with no flag set raises
  `IndexError`, because the run indexes the first element of an empty list.
  It does not return a cached output.
- **White-patch and gray-world scales.** `process` copies these scales into
  the `rgb_scale` engine un-normalised. Normalisation only rebinds a local
  variable.
- **Log tone mapping in the editor.** The engine rebinds its local name to
  the logarithm, so the only visible effect is the subtraction of
  `inBlack + 1`.

## Model

| member | source | states |
|---|---|---|
| Attributes.GetAttributes | helper/get_attributes.py:1-9 | the result has no 'logger' key and no key starting with '_'; every other attribute is kept with its value; its keys are a subset of the object's; it equals the filtered dictionary `Visible` |
| Common.Clip | edit/tone_mapper.py:61 | numpy.clip: the result lies in [lo, hi] when lo <= hi; a value inside the range is kept; below it gives lo, above it gives hi |
| Common.ClipMonotone | edit/tone_mapper.py:61 | clipping keeps the order of two samples |
| Common.Trunc | export/exporter.py:44 | float-to-integer conversion truncates toward zero: for v >= 0 the result r satisfies 0 <= r <= v < r + 1, for v < 0 it satisfies r - 1 < v <= r <= 0 |
| Common.CastUnsigned | export/exporter.py:44 | astype to an unsigned type: the result lies in [0, 2^bits) and equals the floor for a value already in range |
| Common.U8 | core/exporter.py:73 | the uint8 cast lies in [0, 256) and is the floor of an in-range value |
| Common.U16 | edit/demosaicer.py:86 | the uint16 cast lies in [0, 65536) and is the floor of an in-range value |
| Cfa.SitesFor | core/demosaicer.py:19-34 | the four-entry table: Ok exactly for a blue location inside the 2 x 2 tile, ValueError otherwise; red is diagonally opposite blue; blue, red and the two green sites cover the four cells exactly once |
| Cfa.Split | core/demosaicer.py:42-54 | the split into a zeroed H x W x 3 buffer: every channel has the mosaic's height and width; `SplitSample` states each sample |
| Cfa.SplitSample | core/demosaicer.py:42-54 | each sample of the split is the mosaic's sample in its native channel and 0 in the other two |
| Cfa.SplitSum | core/demosaicer.py:47-52 | with a partitioned tile the three channels of every cell add up to the mosaic sample |
| Cfa.RunSplit | core/demosaicer.py:45-52 | the loop over the red and blue sites followed by the loop over the green rows produces exactly `Split` |
| Cfa.EvenFits | core/demosaicer.py:77 | an even length splits into two slices of equal length, so the slice assignment is accepted |
| Cfa.ColCopy | core/demosaicer.py:77 | x[r0::2, q::2] = x[r0::2, p::2] succeeds exactly when numpy accepts the shapes (equal lengths or a broadcast of one), is a ValueError otherwise, and keeps the grid's shape |
| Cfa.RowCopy | core/demosaicer.py:78 | x[q::2, :] = x[p::2, :] succeeds exactly when numpy accepts the shapes, is a ValueError otherwise, and keeps the shape |
| Cfa.ChannelFill | core/demosaicer.py:76-78 | the red or blue fill fails only with ValueError and keeps the plane's shape |
| Cfa.GreenFill | core/demosaicer.py:80-81 | the green fill fails only with ValueError and keeps the plane's shape |
| Cfa.FillPlanes | core/demosaicer.py:76-81 | the fill of the split planes fails only with ValueError and gives three planes of the split's shape |
| Cfa.Copy | core/demosaicer.py:73-81 | the copy demosaicer fails only with ValueError and gives an H x W x 3 image |
| Cfa.RunCopy | core/demosaicer.py:73-81 | the split followed by the fill loops produces exactly `Copy` |
| Cfa.RunFill | core/demosaicer.py:76-81 | the two fill loops produce exactly `FillPlanes`, errors included |
| Cfa.FillColorSites | core/demosaicer.py:76-78 | the loop over red and blue succeeds exactly when both fills do, fills those two planes and leaves green alone |
| Cfa.FillGreenRows | core/demosaicer.py:80-81 | the loop over the two green rows produces exactly `GreenFill` |
| Cfa.ColCopyOk | core/demosaicer.py:77 | with an even width the column copy succeeds and keeps the grid's shape |
| Cfa.ColCopyAt | core/demosaicer.py:77 | in the rows of parity r0 both cells of a tile row take the sample of column parity p; the other rows are unchanged |
| Cfa.RowCopyOk | core/demosaicer.py:78 | with an even height the row copy succeeds and keeps the shape |
| Cfa.RowCopyAt | core/demosaicer.py:78 | both rows of every tile become the tile's row of parity p |
| Cfa.ChannelFillOk | core/demosaicer.py:77-78 | with even height and width the red or blue fill is the column copy followed by the row copy, and succeeds |
| Cfa.ChannelFillAt | core/demosaicer.py:77-78 | after the red or blue fill every cell of a tile holds the tile's sample at the colour site |
| Cfa.GreenFillOk | core/demosaicer.py:80-81 | with an even width the green fill is a column copy in the even rows then one in the odd rows, and succeeds |
| Cfa.GreenFillAt | core/demosaicer.py:80-81 | after the green fill each cell holds the green sample of its own tile row |
| Cfa.SplitAt | core/demosaicer.py:47-52 | the split keeps the mosaic sample at every native site of a tile |
| Cfa.CopyOk | core/demosaicer.py:73-81 | with even height and width the copy demosaicer succeeds and its planes are the fills of the split planes |
| Cfa.RedFillAt | core/demosaicer.py:76-78 | the filled red plane holds, everywhere in a tile, the tile's native red sample |
| Cfa.BlueFillAt | core/demosaicer.py:76-78 | the filled blue plane holds, everywhere in a tile, the tile's native blue sample |
| Cfa.GreenSplitFillAt | core/demosaicer.py:80-81 | the filled green plane holds the green sample of the same tile row |
| Cfa.CopyFill | core/demosaicer.py:73-81 | nearest-neighbour property: every red and blue output pixel is the native red or blue sample of its tile, and every green pixel is the green sample of the same row of the same tile |
| Cfa.CopyKeepsNative | core/demosaicer.py:73-81 | the fill writes only missing sites: every native sample keeps its value in its native channel |
| Cfa.CopyOfConstant | core/demosaicer.py:73-81 | a constant mosaic demosaics to the same constant in all three channels |
| CoreDemosaicer.Demosaicer.Demosaice | core/demosaicer.py:42-81 | a three-dimensional buffer is a ValueError; the linear engine is not modelled; on success the image is H x W x 3, every channel the height and width of the mosaic, and its camera multipliers are kept |
| CoreDemosaicer.Demosaicer.Run | core/demosaicer.py:73-81 | the engine's loops over colour sites produce exactly `Demosaice` |
| CoreDemosaicer.NewDemosaicer | core/demosaicer.py:17-34 | the constructor succeeds exactly for a blue location in the tile, raising ValueError otherwise; the derived sites put red opposite blue and partition the tile |
| CoreDemosaicer.SplitterLosesNothing | core/demosaicer.py:42-64 | every constructed splitter succeeds on a mosaic; each channel of a cell holds the sample where that channel is native and 0 elsewhere; the three channels add up to the sample |
| CoreDemosaicer.CopyKeepsSamples | core/demosaicer.py:73-81 | on even dimensions the copy demosaicer succeeds and keeps every native sample |
| CoreDemosaicer.EditAgreesWithCore | core/demosaicer.py:42-81 | on 16-bit samples the editor's new splitter and copy engines give the same image as the exporter-side ones built for blue at (1, 1) |
| EditDemosaicer.ToUint16 | edit/demosaicer.py:86 | every sample stored in the uint16 buffer is its uint16 cast and lies in [0, 65536) |
| EditDemosaicer.ToUint16Identity | edit/demosaicer.py:86-93 | a plane of 16-bit samples is stored unchanged |
| EditDemosaicer.Engine.Set | edit/demosaicer.py:71-76 | set changes the name and blue location given (None keeps the field) and leaves the red and green table as it was |
| EditDemosaicer.Engine.Demosaice | edit/demosaicer.py:83-116 | a three-dimensional buffer is a ValueError; linear is not modelled; on success the image is H x W x 3, every channel the height and width of the mosaic, with its camera multipliers kept |
| EditDemosaicer.Engine.Run | edit/demosaicer.py:104-116 | the engine's loops over colour sites produce exactly `Demosaice` |
| EditDemosaicer.NewEngine | edit/demosaicer.py:38-53 | a new engine has blue at (1, 1) and the table row the four-entry table gives for it |
| EditDemosaicer.StaleTableAfterSet | edit/demosaicer.py:75-76 | moving the blue site of a new engine to (0, 0) leaves red at (0, 0) as well, so the sites no longer partition the tile |
| EditDemosaicer.SetRetabled | edit/demosaicer.py:71-76 | corrected set: the red and green sites are re-derived from the new blue location by the table |
| EditDemosaicer.RetabledPartition | edit/demosaicer.py:42-53 | after the corrected set the sites partition the tile for every blue location |
| EditDemosaicer.Demosaicer.Process | edit/demosaicer.py:27-34 | engine None leaves the image unchanged; an unknown engine name is a ValueError; otherwise the named engine's result |
| EditDemosaicer.NewDemosaicer | edit/demosaicer.py:18-25 | the front holds the engines bayer_splitter, copy and linear, each with blue at (1, 1) |
| EditDemosaicer.SplitterSamples | edit/demosaicer.py:83-95 | the splitter puts each 16-bit sample in its native channel and 0 in the others; with the engine's table the channels add up to the sample |
| EditDemosaicer.CopyKeepsSamples | edit/demosaicer.py:104-116 | on even dimensions the copy engine succeeds and every native sample keeps its 16-bit value |
| ToneCurve.Levels.Scale | edit/tone_mapper.py:85-86 | the scale, a true division of Python numbers, is a ZeroDivisionError exactly when the input range is empty; otherwise scale * (iw - ib) == ow - ob |
| ToneCurve.Levels.Affine | edit/tone_mapper.py:83-87 | the linear curve maps ib to ob and iw to ow |
| ToneCurve.Levels.GammaOne | edit/tone_mapper.py:111-116 | the gamma curve with exponent 1 maps ib to ob and iw to ow |
| ToneCurve.AffineMonotone | edit/tone_mapper.py:83-87 | with ib < iw and ob <= ow the linear curve is non-decreasing |
| ToneCurve.AffineRange | core/tone_mapper.py:60-63 | with ordered levels the curve sends [ib, iw] into [ob, ow] |
| ToneCurve.GammaOneIsAffine | edit/tone_mapper.py:111-116 | gamma correction with exponent 1 equals the linear curve sample by sample |
| EditToneMapper.Engine.CurveError | edit/tone_mapper.py:83-116 | the log engine never fails; linear fails exactly on an empty input range; gamma succeeds exactly on a non-empty range at gamma 1 |
| EditToneMapper.Engine.Curve | edit/tone_mapper.py:83-116 | linear and gamma 1 are the affine curve; the log engine only subtracts ib + 1, because its logarithm is bound to a local name and discarded |
| ToneCurve.Levels.Corrected | edit/tone_mapper.py:59-61 | pre-processing, shared with core/tone_mapper.py:37-39: the result lies in [ib, iw]; it is v - correction when that is in range, ib below the range and iw above it |
| EditToneMapper.Engine.Sample | edit/tone_mapper.py:53-68 | with ordered output levels every sample leaves the wrapper inside [ob, ow] |
| EditToneMapper.Engine.CameraBalance | edit/tone_mapper.py:70-74 | multipliers that are absent or not three long are left alone; otherwise each loses the correction and goes through the curve, unclipped |
| EditToneMapper.Engine.ToneMap | edit/tone_mapper.py:53-57 | succeeds exactly when the curve is defined; keeps the shape; every sample is pre-process, curve, then output clip; the camera multipliers get `CameraBalance` |
| EditToneMapper.NewEngine | edit/tone_mapper.py:36-39 | default correction 512, input [0, 4095], output [0, 255], gamma 1; the curve is defined |
| EditToneMapper.ToneMapper.Process | edit/tone_mapper.py:25-32 | engine 'none' is a no-op; an unknown engine is a ValueError; otherwise the engine's tone map |
| EditToneMapper.NewToneMapper | edit/tone_mapper.py:16-23 | the front holds linear, log and gamma_correction engines of those kinds |
| EditToneMapper.LinearSample | edit/tone_mapper.py:83-87 | with ordered levels the linear sample is the affine image of the pre-processed sample (the output clip changes nothing) and is monotone |
| EditToneMapper.LogSample | edit/tone_mapper.py:96-101 | the log engine's sample is clip(pre(v) - ib - 1, ob, ow) |
| EditToneMapper.ToneMapWithin | edit/tone_mapper.py:67-68 | with ordered output levels every sample of the tone-mapped image lies in [ob, ow] |
| EditToneMapper.GammaOneIsLinear | edit/tone_mapper.py:111-116 | gamma correction at gamma 1 tone-maps every image, multipliers included, exactly as the linear engine |
| EditToneMapper.GammaOneBalance | edit/tone_mapper.py:70-74 | at gamma 1 the camera multipliers are mapped as by the linear engine |
| CoreToneMapper.ToneMapper.CurveError | core/tone_mapper.py:60-102 | the curve is defined exactly for linear or gamma 1 on a non-empty input range; linear on an empty range is a ZeroDivisionError |
| CoreToneMapper.ToneMapper.Curve | core/tone_mapper.py:60-63 | the curve is the affine map for linear and for gamma 1 |
| CoreToneMapper.ToneMapper.Sample | core/tone_mapper.py:33-35 | a sample whose corrected value is in range is mapped affinely |
| CoreToneMapper.ToneMapper.ToneMap | core/tone_mapper.py:33-35 | the wrapper runs pre-process and curve only: shape and camera multipliers kept, every sample is `Sample` of the input |
| CoreToneMapper.ToneMapper.PostProcess | core/tone_mapper.py:45-46 | the output clip that is defined but never called: every sample clipped to [ob, ow], shape kept |
| CoreToneMapper.LinearSample | core/tone_mapper.py:60-63 | with ordered levels each sample lies in [ob, ow], the map is monotone, and ib + correction maps to ob, iw + correction to ow |
| CoreToneMapper.LinearWithinOutput | core/tone_mapper.py:37-63 | the linear engine's whole output lies in [ob, ow] without any output clip |
| CoreToneMapper.PostProcessRedundant | core/tone_mapper.py:45-46 | for the linear engine with ordered levels the skipped output clip would change nothing |
| CoreToneMapper.GammaOneIsLinear | core/tone_mapper.py:97-102 | gamma correction at gamma 1 equals the linear engine on every image |
| CoreToneMapper.EditAgreesWithCore | core/tone_mapper.py:33-63 | with ordered levels the editor's linear engine leaves the same raw buffer as the exporter-side one |
| EditWhiteBalancer.Scales.Inverse | edit/white_balancer.py:119 | the inverse of non-zero scales is non-zero |
| EditWhiteBalancer.Means | edit/white_balancer.py:118 | each component is the mean of its channel plane, and all are non-zero |
| EditWhiteBalancer.ScaleChannels | edit/white_balancer.py:78 | each channel multiplied sample by sample by its scale, shape kept |
| EditWhiteBalancer.CameraScales | edit/white_balancer.py:88-93 | missing or non-3-long camera multipliers fall back to ones; otherwise they are the scales |
| EditWhiteBalancer.WhitePatchScales | edit/white_balancer.py:104-107 | a mosaic is an IndexError; a zero white level is non-finite; otherwise each scale is one over its channel's white level |
| EditWhiteBalancer.GrayWorldScales | edit/white_balancer.py:117-120 | a mosaic is an IndexError; a channel without a finite non-zero mean is non-finite; otherwise each scale is one over its channel mean |
| EditWhiteBalancer.Engine.SetScales | edit/white_balancer.py:66-69 | set_scales writes the three scale fields and nothing else |
| EditWhiteBalancer.Engine.Effective | edit/white_balancer.py:72-75 | without normalize the fields as they are; with it, the scales times 3 over their sum (non-finite for a zero sum) |
| EditWhiteBalancer.Engine.ApplyScales | edit/white_balancer.py:71-78 | scales of all ones leave the image unchanged; otherwise a mosaic is a ValueError (non-finite normalised scales included) and each colour channel is multiplied by its scale, multipliers kept |
| EditWhiteBalancer.Engine.Estimate | edit/white_balancer.py:81-121 | rgb_scale uses its fields; camera, white patch and gray world estimate their scales as above |
| EditWhiteBalancer.Engine.WhiteBalance | edit/white_balancer.py:87-121 | the estimate is stored in the engine's fields, then the image is multiplied; the engine comes back with the stored scales |
| EditWhiteBalancer.NewEngine | edit/white_balancer.py:56-115 | every engine starts at ones; only rgb_scale does not normalise; white patch uses percentile 0.97 |
| EditWhiteBalancer.WhiteBalancer.Process | edit/white_balancer.py:26-38 | 'none' is a no-op; an unknown engine is a ValueError; after an estimating engine its scales are copied into rgb_scale and every other engine is untouched |
| EditWhiteBalancer.NewWhiteBalancer | edit/white_balancer.py:16-24 | the front holds rgb_scale, camera, white_patch and gray_world with their defaults |
| EditWhiteBalancer.MeanScaled | edit/white_balancer.py:78 | multiplying a plane by s multiplies its mean by s |
| EditWhiteBalancer.NormalizedScales | edit/white_balancer.py:74 | normalised scales sum to 3 and keep the proportions of the scales |
| EditWhiteBalancer.EffectiveNormalized | edit/white_balancer.py:72-75 | a normalising engine multiplies by scales that sum to 3 and are proportional to its fields |
| EditWhiteBalancer.NormalizedEqual | edit/white_balancer.py:74-77 | three equal non-zero scales normalise to ones, so the image is left alone |
| EditWhiteBalancer.NormalizedInverseTimes | edit/white_balancer.py:117-121 | each normalised inverse mean times its mean is 3 over the sum of the inverse means |
| EditWhiteBalancer.CameraFallbackKeepsImage | edit/white_balancer.py:88-94 | without valid camera multipliers the camera engine leaves the image unchanged |
| EditWhiteBalancer.ScaledChannelMean | edit/white_balancer.py:76-78 | after the multiply (or its skip) a channel's mean is its scale times its old mean |
| EditWhiteBalancer.GrayWorldOutput | edit/white_balancer.py:117-121 | the gray-world engine succeeds and outputs the input multiplied by the normalised inverse means |
| EditWhiteBalancer.GrayWorldEqualMeans | edit/white_balancer.py:117-121 | gray world equalises the channels: all three output means are 3 over the sum of the inverse input means |
| EditWhiteBalancer.GrayWorldChannelMean | edit/white_balancer.py:117-121 | one channel of the gray-world output has mean 3 over the sum of the inverse means |
| EditWhiteBalancer.ScaledByNormalizedInverse | edit/white_balancer.py:73-78 | scaling by the normalised inverse of given means gives each channel mean 3 over the sum of the inverses |
| EditWhiteBalancer.GrayWorldBalancedIsFixed | edit/white_balancer.py:117-121 | an image whose channel means are already equal is left unchanged by gray world |
| EditWhiteBalancer.ProcessCopiesEstimate | edit/white_balancer.py:35-38 | after an estimating engine, rgb_scale and that engine hold the un-normalised estimate |
| Rotation.Rot90At | engines/rotator.py:23 | one quarter turn makes an H x W grid W x H with out[i][j] = in[j][W-1-i] |
| Rotation.Rot180At | engines/rotator.py:23 | two quarter turns give out[i][j] = in[H-1-i][W-1-j] with the same shape |
| Rotation.Rot270At | engines/rotator.py:23 | three quarter turns give out[i][j] = in[H-1-j][i], W x H |
| Rotation.Rot360 | engines/rotator.py:23 | four quarter turns are the identity |
| Rotation.RotNCompose | engines/rotator.py:23 | turning by a and then by b is turning by a + b |
| Rotation.RotKModulo | edit/rotator.py:65 | k = 0 is the identity; k and k + 4, and k mod 4, give the same rotation |
| Rotation.RotKInverse | edit/rotator.py:65 | rotating by k and then by 4 - k restores the grid |
| Rotation.RotKShape | engines/rotator.py:23 | an odd k swaps height and width, an even k keeps them |
| Rotation.RotateRaster | edit/rotator.py:65 | every channel is rotated by the same k, so the channel axis is carried along unchanged |
| Rotation.RotateRasterInverse | edit/rotator.py:65 | rotating a buffer by k and then by 4 - k restores it |
| EditRotator.Rotator90.Set | edit/rotator.py:67-70 | set changes the name and k given; None keeps the field |
| EditRotator.Rotator90.Rotate | edit/rotator.py:64-65 | only the raw buffer changes, to its rotation through k quarter turns (`RotateRaster`), and it keeps its number of dimensions |
| EditRotator.DefaultRotator90 | edit/rotator.py:58-62 | the engine defaults to k = 1 |
| EditRotator.Rotator.Process | edit/rotator.py:23-30 | engine None is a no-op; an unknown engine is a ValueError; '90' rotates the raw buffer by the engine's k and keeps the multipliers |
| EditRotator.NewRotator | edit/rotator.py:16-21 | the front starts with its engine at k = 1 |
| EditRotator.DefaultQuarterTurn | edit/rotator.py:64-65 | with the default engine an H x W mosaic becomes W x H with out[i][j] = in[j][W-1-i] |
| EditRotator.ProcessInverse | edit/rotator.py:64-65 | processing with k and then with 4 - k restores the image |
| EnginesRotator.Rotator.RotateK | engines/rotator.py:16-23 | rotate_k replaces only the raw buffer, by its rotation through k quarter turns (`RotateRaster`, every channel alike), and keeps its number of dimensions |
| EnginesRotator.Rotator.RotateKAt | engines/rotator.py:22-23 | on a mosaic, by k mod 4: the samples are kept (0), out[i][j] = in[j][W-1-i] (1), in[H-1-i][W-1-j] (2) or in[H-1-j][i] (3), with height and width swapped for odd k |
| EnginesRotator.Rotator.RotateLeft | engines/rotator.py:28-29 | rotate_left is rotate_k with k = 1: only the raw buffer changes, by one quarter turn; its index law is `RotateLeftAt` |
| EnginesRotator.Rotator.RotateRight | engines/rotator.py:25-26 | rotate_right is rotate_k with k = 3: only the raw buffer changes, by three quarter turns; `LeftRightInverse` proves it undoes rotate_left |
| EnginesRotator.Rotator.RotateLeftAt | engines/rotator.py:28-29 | rotate_left moves in[j][W-1-i] to out[i][j] |
| EnginesRotator.Rotator.LeftRightInverse | engines/rotator.py:25-29 | rotate_left then rotate_right, and rotate_right then rotate_left, restore the image |
| EnginesRotator.Rotator.FourLeftTurns | engines/rotator.py:28-29 | four left turns are the identity |
| EnginesRotator.Rotator.RotateKModulo | engines/rotator.py:22-23 | rotate_k(k) equals rotate_k(k mod 4) and rotate_k(k + 4) |
| EnginesRotator.Rotator.RotateKShape | engines/rotator.py:22-23 | an odd k swaps height and width, an even k keeps them |
| CoreExporter.TableEntry | core/exporter.py:68-73 | each entry is floor(clip(affine(clip(i, ib, iw)), 0, 255)) and lies in [0, 255] |
| CoreExporter.MappingTable | core/exporter.py:66-73 | the table has input_magnitude entries, each `TableEntry`; an empty input range is a ZeroDivisionError |
| CoreExporter.Index | core/exporter.py:59 | a numpy index selects entry v, or v + n when negative |
| CoreExporter.LookupGrid | core/exporter.py:59 | table[plane] succeeds exactly when every sample is a valid index (IndexError otherwise) and replaces each sample by the entry it selects |
| CoreExporter.Lookup | core/exporter.py:59 | table[raw_image] applied plane by plane, shape kept, IndexError on any bad sample |
| CoreExporter.ReverseChannels | core/exporter.py:83-84 | a three-channel buffer gets its channel order reversed; a mosaic is unchanged |
| CoreExporter.ReverseTwice | core/exporter.py:83-84 | reversing the channel order twice gives the buffer back |
| CoreExporter.ExporterOpenCV.constructor | core/exporter.py:33-47 | default magnitude 2^14 and levels [0, 4095] to [0, 255]; the table is built from them and is current |
| CoreExporter.ExporterOpenCV.SetLevels | core/exporter.py:41-45 | assigning the level fields does not rebuild the cached table |
| CoreExporter.ExporterOpenCV.UpdateExportMappingTable | core/exporter.py:49-50 | the table is rebuilt from the current fields and is then current; an empty input range raises and leaves the old table |
| CoreExporter.ExporterOpenCV.Export | core/exporter.py:58-84 | the array written is the lookup of every sample in the cached table, with a colour buffer's channels reversed; a bad sample is an IndexError |
| CoreExporter.Exporter.constructor | core/exporter.py:17-22 | the front holds a fresh OpenCV engine with a current default table |
| CoreExporter.Exporter.Process | core/exporter.py:24-29 | an engine other than 'open_cv' is a ValueError; otherwise the engine's export |
| CoreExporter.TableMonotone | core/exporter.py:66-73 | with ordered levels the table is non-decreasing |
| CoreExporter.TableEnds | core/exporter.py:68-72 | the table is constant at or below ib and at or above iw |
| CoreExporter.TableEntryAffine | core/exporter.py:68-73 | inside both ranges an entry is the floor of the affine image of its index |
| CoreExporter.DefaultTableStart | core/exporter.py:33-38 | the default table has 16384 entries and table[0] = 0 |
| CoreExporter.DefaultTableTail | core/exporter.py:33-38 | the default table is 255 from index 4095 to 16383 |
| CoreExporter.ExportCurrent | core/exporter.py:59 | with a current table, a non-negative sample exports to the table entry of its value |
| ExportExporter.Exporter.CurveError | export/exporter.py:54-91 | the curve is defined exactly for linear or gamma 1 on a non-empty raw range; an empty range is a ZeroDivisionError for linear and non-finite for gamma |
| ExportExporter.Exporter.Pre | export/exporter.py:33-36 | pre-processing clips to [raw_min, raw_max] and keeps in-range samples |
| ExportExporter.Exporter.Curve | export/exporter.py:54-59 | the curve is the affine map from the raw range to the export range |
| ExportExporter.Exporter.Post | export/exporter.py:42-45 | post-processing gives a uint8 value, within [floor(export_min), floor(export_max)] when 0 <= export_min <= export_max < 256 |
| ExportExporter.Exporter.Sample | export/exporter.py:28-31 | a sample goes through pre-process, the affine curve, then post-process |
| ExportExporter.Exporter.ExportWrapper | export/exporter.py:19-31 | export returns the wrapper's array: an error exactly when the curve is undefined, otherwise a new array of the same shape with each sample mapped by `Sample`; the input buffer is not changed |
| ExportExporter.NewExporter | export/exporter.py:48-52 | defaults raw [0, 16383], export [0, 255], gamma 1; the curve is defined except for log |
| ExportExporter.LinearSample | export/exporter.py:54-59 | raw_min maps to export_min and raw_max to export_max, and the map is monotone, before and after the uint8 cast |
| ExportExporter.PostMonotone | export/exporter.py:42-45 | the output clip and the cast keep the order of samples |
| ExportExporter.OutputWithinRange | export/exporter.py:42-45 | with export levels in [0, 255] every output sample lies in the export range |
| ExportExporter.GammaOneIsLinear | export/exporter.py:85-91 | gamma correction at gamma 1 exports every buffer exactly as the linear exporter |
| Editor.Stage.Apply | edit/editor.py:39 | running an edit stage gives its front's result; the white balancer also comes back with its updated engines |
| Editor.DistinctAppend | edit/editor.py:24-25 | adding a new key keeps the keys of the ordered dictionary distinct |
| Editor.FirstDirty | edit/editor.py:49-51 | the position of the first flagged name: every name before it is clear, and the name there is flagged |
| Editor.DirtySuffixSpec | edit/editor.py:46-53 | the names to update form a suffix of the order; the suffix is empty exactly when no flag is set; it starts at a flagged name; every name before it is clear |
| Editor.DirtyStep | edit/editor.py:49-52 | the scan collects the name at i exactly when it is flagged or comes after the first flagged one |
| Editor.ScanForUpdate | edit/editor.py:47-53 | the loop over the update-state items returns the order from the first flagged name on |
| Editor.Seed | edit/editor.py:35-36 | the first engine to update reads its cached input, or the editor's input image when it has none; other cache entries are kept |
| Editor.RunChainStep | edit/editor.py:37-44 | after an engine processes its input, the run goes on with its output cached for the next engine (or as the output image), the engine updated and its flag cleared |
| Editor.RunChainStops | edit/editor.py:38-39 | a missing engine (KeyError) or an engine that raises stops the run with the state reached so far |
| Editor.Editor.constructor | edit/editor.py:12-19 | a new editor has empty dictionaries, no output image, and the given name and input image |
| Editor.Editor.AddEngine | edit/editor.py:21-25 | the engine is stored under the given name or its own, its flag is set to False, a new name goes last and an existing name keeps its place; nothing else changes |
| Editor.Editor.RegisterEngineForUpdate | edit/editor.py:27-28 | the name's flag becomes True and every other flag is unchanged |
| Editor.Editor.GetEnginesToUpdate | edit/editor.py:46-53 | returns exactly the suffix of the order from the first flagged name, empty when none is set |
| Editor.Editor.Process | edit/editor.py:33-44 | no flagged engine is an IndexError with nothing changed; otherwise the cache is seeded and the state afterwards is the run over the dirty suffix; the order and the set of flagged names are kept, so the editor stays valid for further registering and processing |
| Editor.RunChainFlags | edit/editor.py:44 | a successful run clears the flag of every engine it ran and leaves every other flag as it was |
| Editor.RunChainKeepsOthers | edit/editor.py:37-43 | engines outside the run are neither run nor replaced, and their cached inputs are untouched |
| Editor.SuccessClearsAllFlags | edit/editor.py:33-53 | after a successful run over the dirty suffix every update flag is False |
| Editor.ProcessClearsFlags | edit/editor.py:33-44 | after a successful Process every update flag is False |

## Left out

- The linear demosaicer. It needs a 2-D convolution and float32 to uint16
  truncation, so it returns `NotModelled`.
- The logarithm: the log tone mapper of the exporter side and the log
  exporter. Both return `NotModelled`. The editor's log engine is modelled,
  because its logarithm is discarded.
- Gamma correction with a gamma other than 1. It needs a real power, so it
  returns `NotModelled`.
- float32 and numpy dtype rules. Arithmetic is exact; only the uint8 and
  uint16 casts are modelled. The editor's stages after the demosaicer are
  therefore modelled on float buffers, while the edit demosaicer stores
  uint16 (edit/demosaicer.py:86). On that buffer numpy would behave
  differently:
  - the tone mapper's `raw_image -= correction` (edit/tone_mapper.py:60)
    wraps samples below the correction to large values before the clip;
  - its in-place `image *= scale` (edit/tone_mapper.py:86) and the white
    balancer's in-place multiply (edit/white_balancer.py:78) raise a
    casting error.
  `EditToneMapper.ToneMapWithin` and `EditToneMapper.LinearSample` describe
  float buffers only.
- inf and nan. A result numpy would fill with them is the error `NonFinite`,
  where numpy only warns and goes on. The error is reported at the first
  intermediate that would hold inf or nan. Later steps that numpy would
  still run are not modelled: a clip of inf to a bound, or a cast of nan to
  an integer. One exception is handled: `EditWhiteBalancer.Engine.ApplyScales`
  on a mosaic. Its non-finite normalised scales still reach the multiply
  there, which raises ValueError.
- `np.percentile`. The white level of a channel is a function given to the
  white balancer (`Percentile`).
- Timing, logging and `cv2.imwrite`. `run_and_measure_time` only pairs a
  result with the elapsed time from the clock, so it is not modelled: the
  exporters' `export` is `ExportWrapper`, the array `run_and_measure_time`
  returns first. The OpenCV exporter returns the array it would write.
- The RAW loader, the console front ends and the `Image` string methods.
  core/loader.py and the console scripts are not part of this model.
- Engines as objects.
  - Engines and images are values, so aliasing between them is not
    captured.
  - Neither is the partial state an engine leaves when it raises midway.
    A failing engine leaves the editor's state as it was before that engine.
- The engine interface. The editor calls `process` and reads `name`; any
  other attribute of an engine is outside the model.
- The blue location. It is a cell of the 2 x 2 tile (`Loc`), so the
  demosaicer engines cannot hold a location outside it. Only the
  exporter-side constructor checks an arbitrary pair of integers.
- Zero-width grids. A nested sequence cannot record an H x 0 shape, so the
  rotation laws require `Shaped` grids.
- Cfa.Copy: its per-pixel properties are proved for even height and width
  only. On odd dimensions the model follows numpy's shape rule (`Fits`) but
  states no per-pixel property.
- CoreExporter.Index: a float sample used as an index is accepted when it
  is a whole number. numpy refuses float indices outright; the model treats
  raw samples as the integers the loader produces.
- ExportExporter.LinearSample: the monotonicity of the uint8 output is
  proved only for export levels in [0, 255], where the cast does not wrap.

## Findings

| source | as written | input that shows it | evidently intended | confidence | as-written member | corrected member |
|---|---|---|---|---|---|---|
| edit/demosaicer.py:71-76 | set(blue_loc=...), and the console's direct assignment of blue_loc, change blue_loc only; the red and green sites keep the table row derived from the default (1, 1) | a new BayerSplitter after set(blue_loc=(0, 0)): red and blue are both at (0, 0), so that sample goes to both channels and cell (1, 1) to none | the red and green sites follow the new blue location, as the constructor's table derives them | high (not executed) | EditDemosaicer.StaleTableAfterSet | EditDemosaicer.RetabledPartition |
