# Image resizing kernels, modelled and verified in Dafny

The image resizer scales an RGBA image to a new width and height with one of three
kernels: nearest neighbour, bilinear and bicubic (Catmull-Rom). It has two versions
of the resampling engine:

- `interpolator/interpolator.go` is the current one. Each kernel object holds an
  input image and a zeroed output buffer. Its `operate(start, end)` loop fills the
  output pixels whose flat index lies in `[start, end)`. `Interpolate` runs
  `operate` once over the whole image, or once per worker over the ranges
  `[i*N/k, (i+1)*N/k)`.
- `interpolation/interpolation.go` is the older, sequential one: free functions with
  nested `for y` / `for x` loops that allocate and return the result.

`imageprocessor/imageprocessor.go` validates a resize request. It maps file names to
an encoding, derives a missing output dimension from the source's aspect ratio,
defaults the output name and builds the kernel object.

The Dafny modules follow that structure:

| file | module | contents |
|---|---|---|
| `wrappers.dfy` | `Wrappers` | `Option` and `Result` |
| `raster.dfy` | `Raster` | pixels (four bytes), row-major images, the total pixel lookup, `math.Round`, `int(float64)`, colours held as four reals |
| `sampling.dfy` | `Sampling` | rules both versions share: scale, half-pixel offset, nearest-neighbour index, edge indices, the Catmull-Rom spline |
| `interpolator.dfy` | `Interpolator` | the current version: `clamp`, `internalDivision`, coordinate mapping, the three kernels per pixel, the worker ranges, and the class `Interpolator` with `Operate` and `Interpolate` |
| `interpolation.dfy` | `Interpolation` | the older version: its `internalDivision` with the fatal range check, and the three kernels as methods with nested loops |
| `versions.dfy` | `Versions` | the two versions compute the same pixels |
| `tables.dfy` | `Tables` | the worked 2 x 2 to 6 x 6 examples of the test files |
| `imageprocessor.dfy` | `ImageProcessor` | `extCheck`, size derivation, default name, and `New` |

Modelling choices:

- `float64` arithmetic is exact `real` arithmetic. `math.Floor` is `.Floor`.
  `math.Round` is `Raster.Round`, which rounds halfway cases away from zero.
  `int(f)` is `Raster.Trunc`, which truncates toward zero.
- `RGBAAt` and `At` return the zero colour outside the image, and the kernels rely
  on this. `Raster.At` is total in the same way.
- `log.Fatal` becomes an error value (`Option`, `Result`, `Fault`), or a
  precondition where the program checks an internal invariant
  (`Interpolation.InternalDivision`).
- The older kernels write into `image.NewRGBA(...)` with `res.Set(x, y, c)`. The
  model writes into a `w x h` two-dimensional array indexed `[x, y]`. It then reads
  that array off row by row into the returned image (`Interpolation.Flatten`). The
  current version's output buffer is a flat array indexed `y*oW + x`, as its
  `operate` loop computes it.
- The fixed gather loops over 2 or 4 neighbours (`for i := range 4`) are written as
  the values they gather (`RowSpline`, `ColumnSpline`, the `BilinearSample` blends).

## Model

| member | source | states |
|---|---|---|
| Raster.At | interpolator/interpolator.go:258 | a lookup outside the image gives the zero colour; inside it gives the row-major pixel `y*w+x` |
| Raster.Round | interpolator/interpolator.go:550 | `math.Round` gives the nearest integer; its sign follows the argument, and halfway cases go away from zero |
| Raster.RoundMonotonic | interpolator/interpolator.go:550 | rounding preserves order |
| Raster.Trunc | interpolator/interpolator.go:70 | `int(f)` truncates toward zero |
| Raster.ToQuad | interpolator/interpolator.go:259-262 | a pixel's channels read as floats lie in [0, 255] |
| Sampling.Scale | interpolator/interpolator.go:44-52 | the scale `o/i` times the input size is the output size; it is positive, and 1 between equal sizes |
| Sampling.GetOffset | interpolator/interpolator.go:540-542 | the offset is `1/2 - 1/(2k)`; it is 0 exactly when the scale is 1 |
| Sampling.CenteredCoordCentres | interpolator/interpolator.go:122-129 | the centre `x + 1/2` of an output pixel maps to the source point with the same relative position |
| Sampling.CenteredCoordRange | interpolator/interpolator.go:122-129 | for every output index in `[0, o)` the source coordinate lies in `(-1/2, i - 1/2)` |
| Sampling.CenteredCoordSameSize | interpolator/interpolator.go:540-542 | at equal sizes the centred mapping is the identity |
| Sampling.NearestIndexIsQuotient | interpolator/interpolator.go:55-70 | `int(x / (o/i))` is the integer quotient `x*i/o`, and it lies in `[0, i)` for `x < o` |
| Sampling.EdgeIndex | interpolator/interpolator.go:376-394 | the bicubic edge index is 0 below 1/2, 1 on `[1/2, 1)`, size-2 on `[1, size-3/2]` and size-1 above size-3/2 |
| Sampling.EdgeIndexOfPixel | interpolator/interpolator.go:372-394 | a whole-number coordinate inside the image but outside `[1, size-2]` is its own edge index |
| Sampling.BilinearEdgeIsNearest | interpolator/interpolator.go:170-186 | on an out-of-range coordinate the bilinear edge index is inside the image and within 1/2 of the coordinate |
| Sampling.EdgeIndexIsNearest | interpolator/interpolator.go:376-394 | on a coordinate outside `[1, size-2]` the four-way edge index is inside the image and within 1/2 of the coordinate |
| Sampling.BilinearSpan | interpolator/interpolator.go:241-258 | on an in-range axis the reads `floor(t)` and `floor(t)+1` are in the image, except `size`, which comes with weight 0 |
| Sampling.BicubicSpan | interpolator/interpolator.go:464-488 | on an in-range axis the reads `floor(t)-1 .. floor(t)+2` lie in `[0, size]`; `size` is reached only when the fraction is 0 |
| Sampling.CatmullRomSpline | interpolator/interpolator.go:340-350 | the spline passes through `p1` at `u = 0` and `p2` at `u = 1` |
| Sampling.CatmullRomReproducesLines | interpolator/interpolator.go:340-350 | samples of a straight line are reproduced exactly for every `u` |
| Sampling.SplineQuad | interpolator/interpolator.go:485-494 | the per-channel spline passes through its second and third colours |
| Sampling.RowSpline | interpolator/interpolator.go:443-460 | at fraction 0 a row blend is the pixel itself |
| Sampling.ColumnSpline | interpolator/interpolator.go:410-427 | at fraction 0 a column blend is the pixel itself |
| Interpolator.ParseMethod | interpolator/interpolator.go:21-30 | exactly the names `nearestneighbor`, `bilinear` and `bicubic` select a kernel |
| Interpolator.Clamp | interpolator/interpolator.go:544-552 | the result is 255 above 255, 0 below 0, and otherwise within 1/2 of the argument |
| Interpolator.ClampOfChannel | interpolator/interpolator.go:544-552 | a value that is already a byte is unchanged |
| Interpolator.ClampMonotonic | interpolator/interpolator.go:544-552 | clamp preserves order |
| Interpolator.ClampQuad | interpolator/interpolator.go:269 | on channels in [0, 255] the result is their rounding |
| Interpolator.ClampQuadOfColor | interpolator/interpolator.go:544-552 | clamping a colour's own channels gives the colour back |
| Interpolator.SplineOvershootIsClamped | interpolator/interpolator.go:491-494 | the spline can overshoot 255 (286.875 for samples 0, 255, 255, 0) and clamp saturates it |
| Interpolator.Divide | interpolator/interpolator.go:134-141 | weight 1 falls on `p0` at `v = nV` and on `p1` at `v = nV+1`; between them the value lies between `p0` and `p1` |
| Interpolator.InternalDivision | interpolator/interpolator.go:134-141 | the blend is `p0` at `v = nV`; on `[nV, nV+1]` it lies between the two colours and stays in [0, 255] |
| Interpolator.InternalDivisionIsConvex | interpolator/interpolator.go:131-141 | with `nV = floor(v)` both weights are in [0, 1], they sum to 1, and the blend lies between the colours |
| Interpolator.GetScale | interpolator/interpolator.go:111-119 | each scale times the input size is the output size |
| Interpolator.NearestCoords | interpolator/interpolator.go:55-59 | nearest neighbour maps output `x` to the source coordinate `t` with `t*o = x*i`; between equal sizes `t = x` |
| Interpolator.OffsetCoords | interpolator/interpolator.go:122-129 | bilinear and bicubic map the centre `x + 1/2` of an output pixel onto the point with the same relative position in the source: `(t + 1/2)*o = (x + 1/2)*i`; between equal sizes `t = x` |
| Interpolator.TransformCoords | interpolator/interpolator.go:122-129 | between equal sizes every kernel maps output pixel `(x, y)` onto source pixel `(x, y)` |
| Interpolator.NearestNeighborAt | interpolator/interpolator.go:61-72 | the pixel is the source pixel `(x*iW/oW, y*iH/oH)`, which lies inside the source; at equal sizes it is source pixel `(x, y)` |
| Interpolator.BilinearAt | interpolator/interpolator.go:149-270 | resampling to the source's own size reproduces it: output pixel `(x, y)` is source pixel `(x, y)` |
| Interpolator.BilinearSample | interpolator/interpolator.go:157-268 | at a whole-number coordinate inside the source, the edge and inner blends give exactly that source pixel |
| Interpolator.BicubicAt | interpolator/interpolator.go:358-498 | resampling to the source's own size reproduces it: output pixel `(x, y)` is source pixel `(x, y)` |
| Interpolator.BicubicSample | interpolator/interpolator.go:366-496 | at a whole-number coordinate inside the source, the edge copy and the splines give exactly that source pixel |
| Interpolator.KernelAt | interpolator/interpolator.go:18-33 | whichever kernel `New` selects, resampling to the source's own size reproduces the source |
| Interpolator.BilinearEdgeCoords | interpolator/interpolator.go:170-186 | an out-of-range axis picks index 0 or size-1, the one closest to the coordinate |
| Interpolator.BilinearCornerCopy | interpolator/interpolator.go:170-186 | when both axes are out of range the pixel is a verbatim copy of a corner pixel |
| Interpolator.BicubicEdgeCoords | interpolator/interpolator.go:376-394 | an axis outside `[1, size-2]` picks an in-image index closest to the coordinate |
| Interpolator.BicubicCornerCopy | interpolator/interpolator.go:372-396 | when both axes are outside `[1, size-2]` the pixel is a verbatim copy of the picked source pixel |
| Interpolator.WorkerStartMonotonic | interpolator/interpolator.go:88-93 | a later worker never starts before an earlier one |
| Interpolator.WorkerStartEnds | interpolator/interpolator.go:88-93 | the first range starts at 0 and the last ends at `oW*oH` |
| Interpolator.WorkerRangesDisjoint | interpolator/interpolator.go:88-93 | the ranges of two different workers do not overlap |
| Interpolator.WorkerOwnsIndex | interpolator/interpolator.go:88-93 | every index of `[0, oW*oH)` lies in some worker's range |
| Interpolator.WorkerOwnerUnique | interpolator/interpolator.go:88-93 | no index lies in two workers' ranges |
| Interpolator.Interpolator.constructor | interpolator/interpolator.go:21-27 | the kernel object holds the source and a zeroed `w x h` output |
| Interpolator.Interpolator.Operate | interpolator/interpolator.go:143-152 | exactly the pixels with flat index in `[start, end)` are set to the kernel's colour at `(i % oW, i / oW)`; every other output pixel is unchanged |
| Interpolator.Interpolator.Interpolate | interpolator/interpolator.go:74-104 | with or without workers, every output pixel ends up as the kernel's colour |
| Interpolator.New | interpolator/interpolator.go:18-33 | a known method name gives a kernel object with the given size and a zeroed output; an unknown name is the fatal error |
| Interpolation.TransformCoords | interpolation/interpolation.go:19-32 | without the offset `t*scale = x`; with the offset `(t + 1/2)*scale = x + 1/2`; at scale 1 it is the identity |
| Interpolation.Weighted | interpolation/interpolation.go:55-66 | one channel is `p1` at `v1`, `p2` at `v2`, and between them in general |
| Interpolation.InternalDivision | interpolation/interpolation.go:55-66 | under the checked `v1 <= v <= v2` the colour is `c1` at `v1` and `c2` at `v2`; it lies between them and stays in [0, 255] |
| Interpolation.RoundQuad | interpolation/interpolation.go:139 | without any clamp, each channel rounds to within 1/2 of its value and lies in [0, 255] |
| Interpolation.NarrowQuad | interpolation/interpolation.go:317-320 | for a byte conversion exact on [0, 255], narrowing in-range channels is plain rounding |
| Interpolation.NarrowQuadOfColor | interpolation/interpolation.go:350-353 | narrowing the float channels of a pixel gives the pixel back |
| Interpolation.NearestPixel | interpolation/interpolation.go:43-50 | resampling to the source's own size reproduces it: output pixel `(x, y)` is source pixel `(x, y)` |
| Interpolation.BilinearPixel | interpolation/interpolation.go:78-208 | resampling to the source's own size reproduces it: output pixel `(x, y)` is source pixel `(x, y)` |
| Interpolation.BilinearSample | interpolation/interpolation.go:83-206 | at a whole-number coordinate inside the source, the blend is exactly that source pixel, with no rounding error |
| Interpolation.BicubicSample | interpolation/interpolation.go:253-390 | at a whole-number coordinate inside the source, the edge copy and the splines give exactly that source pixel |
| Interpolation.BicubicSameSize | interpolation/interpolation.go:246-390 | bicubic resampling to the source's own size reproduces it: output pixel `(x, y)` is source pixel `(x, y)` |
| Interpolation.Flatten | interpolation/interpolation.go:41-48 | the image built by `Set` on a `w x h` canvas is `w x h`, and its pixel `(x, y)` is the canvas entry `(x, y)` |
| Interpolation.NearestNeighbor | interpolation/interpolation.go:34-53 | the result is `w x h`, and pixel `(x, y)` is source pixel `(x*srcW/w, y*srcH/h)` |
| Interpolation.NearestPixelIsQuotient | interpolation/interpolation.go:43-50 | the pixel read is `(x*srcW/w, y*srcH/h)`, which lies inside the source |
| Interpolation.Bilinear | interpolation/interpolation.go:68-212 | the result is `w x h`, and every pixel is the bilinear colour |
| Interpolation.Bicubic | interpolation/interpolation.go:231-396 | a source under 4 x 4 gives an error and no image; otherwise the result is `w x h` with every pixel the bicubic colour |
| Versions.Saturate | interpolation/interpolation.go:385-388 | one choice for the byte conversion of a rounded channel: out-of-range values go to 0 or 255 |
| Versions.TransformCoordsAgree | interpolation/interpolation.go:19-32 | the older mapping equals the newer one, with the offset used exactly for bilinear and bicubic |
| Versions.NearestAgree | interpolation/interpolation.go:43-50 | both versions' nearest-neighbour pixels agree |
| Versions.InternalDivisionAgree | interpolation/interpolation.go:55-66 | with `v2 = v1 + 1` the older `internalDivision` is the newer one |
| Versions.RoundIsClamp | interpolation/interpolation.go:139 | on channels in [0, 255], rounding is what clamp does |
| Versions.BilinearAgree | interpolation/interpolation.go:68-212 | both versions' bilinear pixels agree, so the older one needs no clamp |
| Versions.BilinearSampleAgree | interpolation/interpolation.go:97-206 | at every source coordinate, including the edges, both bilinear blends agree |
| Versions.SaturateRoundIsClamp | interpolator/interpolator.go:544-552 | rounding then saturating is clamp |
| Versions.NarrowSaturateIsClamp | interpolator/interpolator.go:544-552 | the same, for all four channels |
| Versions.BicubicAgree | interpolation/interpolation.go:231-396 | with a saturating byte conversion, the older bicubic pixel is the newer one |
| Versions.BicubicSampleAgree | interpolation/interpolation.go:289-390 | the same, at every source coordinate |
| Tables.NearestBlocks | interpolation/interpolation_test.go:18-42 | scaling it to 6 x 6 with nearest neighbour gives four uniform 3 x 3 blocks, in both versions |
| Tables.CornersCoords | interpolator/interpolator_test.go:172 | for that resize, output pixel `x` maps to source coordinate `(x - 1)/3` |
| Tables.BilinearTable | interpolator/interpolator_test.go:100-193 | bilinear gives the tabulated 6 x 6 pixels within 1 per channel, in both versions |
| Tables.BilinearSampleTable | interpolation/interpolation_test.go:82-173 | the same table, at the source coordinates |
| ImageProcessor.ExtCheck | imageprocessor/imageprocessor.go:143-157 | `jpeg` exactly for names ending in `.jpg` or `.jpeg`, `png` exactly for `.png` (case-sensitive, at the end); otherwise the fatal error |
| ImageProcessor.ExtCheckNormalises | imageprocessor/imageprocessor.go:152-156 | the result is always `jpeg` or `png`, and `jpg` is reported as `jpeg` |
| ImageProcessor.DeriveSize | imageprocessor/imageprocessor.go:113-125 | both dimensions 0 is the fatal error; given dimensions are kept |
| ImageProcessor.DeriveSizeKeepsAspect | imageprocessor/imageprocessor.go:115-123 | a derived width `w'` keeps the aspect ratio to within half a pixel, halves rounded up: `-iH < 2*(w'*iH - iW*h) <= iH`; likewise for a derived height |
| ImageProcessor.DeriveWidthOfMultiple | imageprocessor/imageprocessor.go:115-118 | a height that is a multiple of the source height gives the same multiple of the source width |
| ImageProcessor.DeriveHeightOfMultiple | imageprocessor/imageprocessor.go:119-122 | likewise for a derived height |
| ImageProcessor.DefaultName | imageprocessor/imageprocessor.go:128-131 | an empty name becomes `<method>.<ext>`; a given name is kept |
| ImageProcessor.DefaultNameRoundTrip | imageprocessor/imageprocessor.go:128-135 | `extCheck` of the default name gives back the input extension |
| ImageProcessor.Processor.constructor | imageprocessor/imageprocessor.go:17-26 | the processor holds the settings it is given |
| ImageProcessor.New | imageprocessor/imageprocessor.go:90-141 | each fatal error occurs exactly when its check is the first to fail, in the source's order, and the result is a processor exactly when every check passes; on success the processor holds the derived size, the defaulted name, its extension, and a kernel object built for exactly that size and method |

## Left out

- Goroutines, channels and `runtime.NumCPU`: `Interpolate` runs the worker ranges one after another, and the number of workers is a parameter.
- `timeTrack` and its timing output: instrumentation only.
- `log.Fatal` ending the process: it is an error value or a precondition.
- File and codec I/O: `readImageFile`, `CreateImageFile` and `imageio/imageio.go` are not part of this model. `ImageProcessor.New` receives the decoded image, or its absence, as the parameter `decoded`.
- `main.go`: command-line parsing and dispatch are not part of this model.
- IEEE-754 rounding: coordinates and weights are exact reals. The tests' tolerance of 1 per channel is kept in `Tables.Close`.
- The regular expression engine: `\.(jpe?g|png)$` is written as three suffix checks.
- `*image.NRGBA` versus `*image.RGBA`: both are a buffer of four-byte pixels here. Alpha premultiplication is not modelled.
- Interpolation.Bicubic: Go's conversion `uint8(f)` of a float outside [0, 255] is left to the implementation, so the conversion is the parameter `narrow`. It is required to leave [0, 255] unchanged (`ExactOnChannels`), as Go's conversion does. Outside that range nothing is claimed for it beyond the type, and the agreement with the newer version is proved for the saturating choice `Versions.Saturate` only.
- Interpolation.InternalDivision: also requires `v1 < v2`, since `v1 == v2` would divide 0 by 0. Every call in `Bilinear` passes `v2 = v1 + 1`.
- ImageProcessor.DeriveSize: the requested and source dimensions are natural numbers. Negative dimensions from the command line are not modelled.
- ImageProcessor.New: requires a decoded source of at least 1 x 1. An empty source would make the derived dimension divide by zero.
- Interpolator.BicubicAt: the newer bicubic has no size guard. For a source under 4 x 4 it reads zero colours outside the image, and the model does the same without claiming more.
- The nearest-neighbour test of `interpolator/interpolator_test.go` compares the result with itself. `Tables.NearestBlocks` states what it evidently meant to check.
- Test files call the kernels with an extra `concurrency` argument (`interpolation/interpolation_test.go:45`). The tables use the kernels' declared signatures.
