# Depth Vision Studio core, modelled in Dafny

This project models the core of a chromostereopsis editor. It is a React
Native app that:

- turns a photo into a gray depth map by one of five named depth-estimation
  formulas;
- recolours that depth map along a two-colour gradient, so that near pixels
  take the foreground colour and far pixels the background colour;
- applies brightness and contrast to the result.

The model covers:

- the two pixel passes of `app/index.tsx`;
- the `App` component, as a class whose handlers update its state;
- the pure helpers of the gradient, method and depth controls;
- `hexToRgb`, `add` and `clamp`, as their tests pin them down.

Modules:

- `Uint8`: canvas bytes, and the ToUint8Clamp conversion applied by every
  store into a `Uint8ClampedArray` (section 7.1.12 of ECMA-262). The
  conversion rounds half to even and saturates at 0 and 255.
- `MathUtils`: `Math.min` and `Math.max`, `add`, and `clamp`, written the
  way the app inlines it: `Math.max(lo, Math.min(hi, x))`.
- `ColorUtils`: `hexToRgb`. It accepts six hex digits with an optional `#`
  and gives black otherwise. A hex spelling of a colour serves as its
  inverse.
- `MethodParams`: the untyped `methodParams` bag and JavaScript's
  `params.key || fallback`. A missing key, 0 and NaN all fall back.
- `Pixels`: the shape both pixel passes share. A loop over RGBA bytes, four
  at a time, rewrites the three colour bytes of each pixel from that
  pixel's own bytes and leaves alpha alone.
- `DepthEstimator`: the depth pass. The loop is `EstimateDepth`. It is
  proved against `DepthMap`, and `DepthMap` is proved gray, size-preserving
  and alpha-preserving.
- `Colorizer`: the colour pass. The loop is `ApplyColors`. It is proved
  against `Colorize`, and `Colorize` is proved to:
  - read only the red byte of each pixel;
  - ignore saturation, sharpness and gamma;
  - map red 0 and red 255 to the background and foreground colours.
- `GradientControls`, `MethodControls`, `DepthControls`: the pure helpers
  of those components.
- `Pipeline`: the `App` component as a class. Its ghost invariant `Valid()`
  says:
  - a depth map exists only for a selected image, and matches that image's
    size and alpha;
  - a depth map is gray;
  - a coloured image exists only beside a depth map, and matches its size
    and alpha.

Two behaviours of the code differ from what one might expect, and the model
follows the code:

- One might expect the colours to be reapplied after every generation. The
  code does not do this: the effect that recolours (lines 35-39 of
  `app/index.tsx`) does not depend on `depthMap`. After generating, the
  coloured image stays as it was until a setting changes or Apply is
  pressed. `Pipeline.App.GenerateDepthMap` states this.
- One might expect a second generation to be refused while one is running.
  The Generate button is disabled while `isGenerating` is set
  (`components/ActionButtons.tsx`, lines 37 and 59), but `generateDepthMap`
  itself has no guard. So the bottom sheet's Apply on the depth tool
  (`app/index.tsx`, line 266) starts a generation whatever `isGenerating`
  is. The model records every write to `isGenerating` in a ghost log.
  `Pipeline.App.GenerateDepthMap` and `Pipeline.App.BottomSheetApply` state
  that each generation that passes validation raises the flag and then
  lowers it, and neither reads the flag first.

Some behaviour of the code may surprise a reader, and the model proves it
as written:

- The tfjs-depth "Portrait Focus" slider allows 0. A stored 0 is falsy, so
  the slider displays 0.8 and the depth pass scales by 0.8
  (`MethodControls.ChosenZeroFocus`).

## Model

| member | source | states |
|---|---|---|
| Uint8.ToUint8ClampIntegral | app/index.tsx:101-103 | storing an integral value in [0, 255] into image data stores that value |
| Uint8.ToUint8ClampNearest | app/index.tsx:152-154 | a stored value in [0, 255] becomes a byte between its floor and ceiling, within 0.5 of it, with exact halves going to an even byte |
| Uint8.ToUint8Clamp | app/index.tsx:101-103 | values at or below 0 store 0, values at or above 255 store 255, and a value in [0, 255] stores a byte within 0.5 of it |
| Uint8.ToUint8ClampMonotone | app/index.tsx:152-154 | a larger number never stores a smaller byte |
| MathUtils.Min | app/index.tsx:100 | `Math.min` is a lower bound of both arguments and equals one of them |
| MathUtils.Max | app/index.tsx:100 | `Math.max` is an upper bound of both arguments and equals one of them |
| MathUtils.Add | __tests__/math.test.ts:5 | `add(a, b)` is the number that differs from a by b and from b by a |
| MathUtils.Clamp | __tests__/math.test.ts:9-11 | for lo <= hi the result lies in [lo, hi], and a value already in range is returned unchanged |
| MathUtils.ClampInRange | __tests__/math.test.ts:9-11 | for lo <= hi, clamp lies in [lo, hi], returns x inside, lo below and hi above |
| MathUtils.ClampMonotone | app/index.tsx:148-150 | clamping preserves order |
| MathUtils.ClampIdempotent | app/index.tsx:100 | clamping twice equals clamping once |
| MathUtils.AddTest | __tests__/math.test.ts:5 | add(1, 2) is 3 |
| MathUtils.ClampTests | __tests__/math.test.ts:9-11 | clamp(10,0,5)=5, clamp(-1,0,5)=0, clamp(3,0,5)=3 |
| ColorUtils.Digits | __tests__/colorUtils.test.ts:9 | a string starting with '#' has as digits everything after that one '#'; any other string is all digits |
| ColorUtils.HexToRgb | __tests__/colorUtils.test.ts:5-13 | a string that is not an optional '#' and six hex digits parses as black; a well-formed one parses to the colour whose lower-case hex spelling is its digits |
| ColorUtils.ParseIgnoresCase | app/index.tsx:138-139 | a colour string parses the same as its lower-case spelling, so the upper-case defaults '#FF0000' and '#0000FF' parse like '#ff0000' and '#0000ff' |
| ColorUtils.HexRoundTrip | app/index.tsx:138-139 | every colour's hex spelling is well formed and parses back to that colour |
| ColorUtils.HashOptional | __tests__/colorUtils.test.ts:9 | a colour parses the same with or without the leading '#' |
| ColorUtils.WrongLengthIsBlack | __tests__/colorUtils.test.ts:13 | a string whose digits are not six long parses as black |
| ColorUtils.NonHexIsBlack | __tests__/colorUtils.test.ts:13 | a non-hex character among the digits gives black |
| ColorUtils.WhiteTest | __tests__/colorUtils.test.ts:5 | '#ffffff' is (255, 255, 255) |
| ColorUtils.BlackWithoutHashTest | __tests__/colorUtils.test.ts:9 | '000000' is (0, 0, 0) |
| ColorUtils.InvalidTest | __tests__/colorUtils.test.ts:13 | '#xyz' is (0, 0, 0), not an error |
| ColorUtils.DefaultGradientColors | app/index.tsx:26 | the initial endpoints '#FF0000' and '#0000FF' are pure red and pure blue |
| MethodParams.ParamOr | app/index.tsx:82-94 | the `or`-default read gives the default or a stored non-zero number under that key, and never 0 when the default is not 0 |
| MethodParams.ParamOrFallback | app/index.tsx:82-94 | the `or`-default read of a parameter gives the default d exactly when the key is missing, 0 or NaN, and the stored number otherwise |
| MethodParams.ParamOrWriteBack | components/MethodControls.tsx:12-14 | writing back what the `or`-default read gave (default d non-zero) reads the same again |
| Pixels.NextPixel | app/index.tsx:78 | stepping `i += 4` from a whole pixel of a buffer with length a multiple of 4 stays on whole pixels, and all four bytes are in bounds |
| Pixels.PixelSlot | app/index.tsx:141-155 | byte k of the pixel at p is colour byte k - p computed from that pixel, or its alpha unchanged |
| Pixels.RecolorShape | app/index.tsx:78-104 | a per-pixel pass keeps the length and every alpha byte, and sets each colour byte from its own pixel |
| Pixels.RecolorLocal | app/index.tsx:141-155 | two passes that colour every pixel alike and share alpha give equal buffers, so the passes are pixel-local |
| DepthEstimator.Luminance | app/index.tsx:97 | the 0.299/0.587/0.114 luminance of three bytes lies in [0, 255] |
| DepthEstimator.RawGray | app/index.tsx:80-98 | before clamping, depth-pro's level is at most 255 and the default formula's lies in [0, 255] |
| DepthEstimator.DepthMap | app/index.tsx:78-104 | the depth map has the image's size and alpha bytes and is gray (r = g = b in every pixel) |
| DepthEstimator.Gray | app/index.tsx:100 | the clamped gray level of every method lies in [0, 255] |
| DepthEstimator.EstimateDepth | app/index.tsx:78-104 | the in-place loop leaves the buffer equal to DepthMap of its old contents |
| DepthEstimator.DepthMapShape | app/index.tsx:78-104 | the depth map has the image's size and alpha, is gray (r = g = b), and each pixel's level is the method's clamped formula on that pixel |
| DepthEstimator.UnknownMethodFallsBack | app/index.tsx:96-97 | an unknown method name uses plain luminance 0.299/0.587/0.114 |
| DepthEstimator.DefaultScales | app/index.tsx:81-95 | with no parameters each method uses its own weights and default factor (0.5, 0.6, 4/4, 0.8, min with 255 at 1.0) |
| DepthEstimator.FalsyParamIsDefault | app/index.tsx:82-94 | a parameter stored as 0 or NaN acts exactly as if it were absent |
| DepthEstimator.MarigoldClamped | app/index.tsx:87-88 | marigold's level is `pow(luminance) * ensemble / 4` when that lies in [0, 255]; a larger value stores 255 and a value at or below 0 stores 0, however large `pow` or the ensemble count |
| DepthEstimator.MidasExample | app/index.tsx:85 | midas on (200, 100, 50) gives gray 74.52, stored as 75 |
| DepthEstimator.DefaultFormulaOnGray | app/index.tsx:97-103 | the default formula maps a gray pixel (v, v, v) to v exactly |
| MethodControls.UpdateParam | components/MethodControls.tsx:12-14 | the update adds or replaces exactly one key and keeps every other entry |
| MethodControls.Controls | components/MethodControls.tsx:16-168 | each of the five methods has three sliders; any other name has none |
| MethodControls.DisplayedValue | components/MethodControls.tsx:23-158 | a slider shows its default, or the truthy number stored under its key; never 0 when its default is not 0 |
| MethodControls.SlidersWellFormed | components/MethodControls.tsx:21-163 | every slider has min < max, a default within range, a positive step and a non-zero default |
| MethodControls.DisplayedValueRange | components/MethodControls.tsx:23-158 | a slider shows the stored number when truthy and its default otherwise, never 0, and stays in range when the stored number is in range |
| MethodControls.DisplayedIsComputed | components/MethodControls.tsx:32-142 | for each method's scale slider (the values shown at lines 32, 62, 91, 129 and 142), storing what the slider displays changes no gray level, so the displayed defaults equal the estimator's |
| MethodControls.ChosenZeroFocus | components/MethodControls.tsx:127-134 | the focus slider allows 0, yet a stored 0 is displayed as 0.8 and the depth pass scales by 0.8 |
| Colorizer.Mix | app/index.tsx:142-146 | the mixed channel lies between the background and foreground channels |
| Colorizer.ChannelByte | app/index.tsx:144-154 | the stored channel is within 0.5 of the enhanced mix |
| Colorizer.Colorize | app/index.tsx:141-155 | the coloured buffer keeps the size and every alpha byte of the depth map |
| Colorizer.Enhance | app/index.tsx:148-150 | the enhanced value lies in [0, 255] and equals `x * contrast + brightness` when that is in range |
| Colorizer.ApplyColors | app/index.tsx:141-155 | the in-place loop leaves the buffer equal to Colorize of its old contents |
| Colorizer.ColorizeShape | app/index.tsx:141-155 | the coloured buffer keeps size and alpha, and channel c of each pixel is the enhanced mix of bg.c and fg.c by that pixel's red byte |
| Colorizer.ReadsOnlyRed | app/index.tsx:142 | depth buffers that agree on red and alpha colour identically; green and blue are never read |
| Colorizer.ChannelInert | app/index.tsx:148-150 | a channel depends on the settings only through brightness and contrast |
| Colorizer.EnhanceInert | app/index.tsx:148-150 | enhancing a value reads only brightness and contrast |
| Colorizer.InertSettings | app/index.tsx:28-30 | saturation, sharpness and gamma have no effect on the coloured image |
| Colorizer.GradientEndpoints | app/index.tsx:142-146 | with contrast 1 and brightness 0, red 0 gives exactly the background channel and red 255 the foreground channel |
| Colorizer.LerpBounds | app/index.tsx:144-146 | moving from bg by a fraction in [0, 1] of (fg - bg) stays between bg and fg |
| Colorizer.ChannelBetweenEndpoints | app/index.tsx:142-154 | with contrast 1 and brightness 0, every stored channel is a byte between the two endpoint channels |
| Colorizer.ColorizeEndpoints | app/index.tsx:141-155 | in the whole buffer, pixels with red 0 become the background colour and those with red 255 the foreground colour |
| GradientControls.UpdateColor | components/GradientControls.tsx:20-22 | updating one slot sets it and keeps the other |
| GradientControls.InvertGradient | components/GradientControls.tsx:30-35 | inversion swaps foreground and background |
| GradientControls.InvertInvolution | components/GradientControls.tsx:30-35 | inverting twice restores the pair |
| GradientControls.UpdateAfterInvert | components/GradientControls.tsx:20-35 | updating a slot after inverting equals inverting after updating the other slot |
| GradientControls.UpdateLayerColor | components/GradientControls.tsx:24-28 | the layer list gets the colour at the index, keeps every other entry, and grows with holes when the index is past the end |
| GradientControls.ShownLayerColor | components/GradientControls.tsx:131 | a picker never shows an empty colour: it shows white or the colour stored at its index |
| GradientControls.MissingLayerShownWhite | components/GradientControls.tsx:131 | a missing or hole entry is shown as '#FFFFFF' |
| GradientControls.ShownAfterUpdate | components/GradientControls.tsx:24-28 | after an update the picker at the index shows the new colour and every other picker shows what it showed before |
| GradientControls.PreviewColors | components/GradientControls.tsx:59-72 | in layers mode the preview is a prefix of the layers, layerCount long unless the list is shorter; otherwise it is [background, foreground] |
| GradientControls.PreviewContents | components/GradientControls.tsx:59-72 | simple and advanced previews are [background, foreground]; the layers preview is the first layerCount layers, or all of them if fewer |
| GradientControls.InitialLayersPreview | components/GradientControls.tsx:14-15 | with the initial three layers, the layers preview is red, yellow and blue, and each picker shows its own colour |
| GradientControls.InvertReversesPreview | components/GradientControls.tsx:62-71 | outside layers mode, inverting reverses the preview |
| DepthControls.ResolveBounds | components/DepthControls.tsx:16-18 | an omitted min, max and step are -100, 100 and 5; given ones are kept, zero included |
| DepthControls.StepDown | components/DepthControls.tsx:30 | the '-' button gives max(min, value - step): never below min |
| DepthControls.StepUp | components/DepthControls.tsx:46 | the '+' button gives min(max, value + step): never above max |
| DepthControls.StepsStayInRange | components/DepthControls.tsx:28-49 | from an in-range value with a non-negative step both buttons stay in range |
| DepthControls.StepRoundTrip | components/DepthControls.tsx:28-49 | away from the bounds, '+' then '-' and '-' then '+' return to the value |
| DepthControls.FillPercent | components/DepthControls.tsx:39 | the fill is 0 at min, positive above min and negative below it |
| DepthControls.FillPercentBounds | components/DepthControls.tsx:39 | the fill is 0% at min and 100% at max, within [0, 100] in range, and monotone |
| Pipeline.CopyToBuffer | app/index.tsx:74-76 | the image data is a fresh buffer holding the image's bytes |
| Pipeline.App.constructor | app/index.tsx:20-33 | the initial state: no image or artifacts, empty tool and method, default colours, edge and enhancement settings, not generating |
| Pipeline.App.HandleImageSelect | app/index.tsx:41-46 | a new image clears the depth map, the coloured image and the tool, and keeps the rest |
| Pipeline.App.HandleToolSelect | app/index.tsx:48-52 | selects the tool, sets the sheet content to it and opens the sheet |
| Pipeline.App.SetSelectedMethod | app/index.tsx:202 | only the method changes; nothing is recomputed |
| Pipeline.App.SetMethodParams | app/index.tsx:204 | only the parameters change; nothing is recomputed |
| Pipeline.App.ApplyColorsToDepthMap | app/index.tsx:122-165 | without a depth map nothing changes; otherwise the coloured image becomes Colorize of the depth map under the current colours and enhancement |
| Pipeline.App.SettingsChanged | app/index.tsx:35-39 | the effect recolours exactly when a depth map exists |
| Pipeline.App.SetGradientColors | app/index.tsx:209 | new colours are stored and the coloured image follows them when a depth map exists |
| Pipeline.App.SetEnhancementSettings | app/index.tsx:211 | new enhancement settings are stored and the coloured image follows them when a depth map exists |
| Pipeline.App.SetEdgeSettings | app/index.tsx:213 | new edge settings are stored and trigger the same recolouring, which they do not affect |
| Pipeline.App.GenerateDepthMap | app/index.tsx:54-120 | a validation error, with no change, iff the image or method is missing; otherwise isGenerating goes true then false; on success the depth map is DepthMap of the image; the coloured image is not recomputed |
| Pipeline.App.BottomSheetApply | app/index.tsx:265-269 | on the depth tool Apply runs a generation: a validation error iff the image or method is missing, success iff it passes and the load succeeds; once validation passes, isGenerating is raised and then lowered whatever it was before, and on success the depth map is replaced; on the gradient tool it recolours; other tools change nothing else, isGenerating included; the sheet closes |
| Pipeline.App.CloseBottomSheet | app/index.tsx:264 | closing only hides the sheet |
| Pipeline.App.BottomSheetRevert | app/index.tsx:270-274 | Revert on the enhance tool restores the default enhancement and recolours; on other tools nothing changes |

## Left out

- Image I/O is left out. `fetch`, `Image` loading, canvas drawing,
  `getImageData` returning null, and `toDataURL` are not modelled. An image
  is its decoded RGBA buffer, and encoding then decoding it is taken as the
  identity. A failed load becomes the `succeeds` parameter of
  `Pipeline.App.GenerateDepthMap`. An image that never finishes loading,
  which would leave `isGenerating` raised, is not modelled.
- Image data length is assumed to be a multiple of 4, as every canvas
  `ImageData` is.
- Async interleavings are left out. Every handler runs as one atomic step,
  so races between overlapping generations and recolourings, and React's
  batching of state updates, are not modelled.
- `handleDownload` (media library permission and file writing) is left out,
  because it is I/O only. The same goes for the `Alert` pop-ups, which
  become the `GenerateOutcome` result.
- `Math.pow(_, 1.2)` of the marigold formula is an uninterpreted parameter
  `pow`. Its properties are real-number analysis that the model does not
  need.
- Numbers are exact reals, not IEEE doubles. Rounding inside the formulas
  is not modelled. Infinity is not modelled, and NaN is modelled only as a
  parameter value that falls back to the default.
- `randomizeColors` of GradientControls is left out, because it draws from
  `Math.random`.
- The local hue, saturation and brightness sliders of GradientControls, and
  the edge and enhancement controls, are left out. They only forward
  values to the setters modelled in `Pipeline`, or to state the pixel
  passes never read.
- UI components are left out: rendering, styles, the bottom sheet's title
  and `renderBottomSheetContent`.
- utils/math and utils/colorUtils are not part of this model. `add`,
  `clamp` and `hexToRgb` are modelled from what their tests pin down, and
  `clamp` takes the app's inline `Math.max(lo, Math.min(hi, x))` form.
- DepthControls is not used by the app, so it is modelled as a standalone
  component.
- DepthControls.FillPercentBounds: requires min < max. With min = max the
  source divides by zero, and the resulting NaN or Infinity width is not
  modelled.

