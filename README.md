# YYEVA WebGPU renderer: geometry and sizing model

This project models the arithmetic at the heart of the YYEVA player's WebGPU
renderer (`RenderWebGPUBase` in `packages/yyeva/src/player/render/webgpu/base.ts`).
A YYEVA clip is a video whose frame holds a colour (RGB) region and a
luminance-encoded alpha region. The renderer draws one quad that samples
both regions and blends them.

The model covers how the renderer places those regions and sizes its output:

- `Coord`: `computeCoord`, from a pixel rectangle to texture coordinates `[left, right, bottom, top]` with the vertical axis flipped.
- `RgbaPos`: `getRgbaPos`, where the RGB and alpha regions sit. It uses the clip's descriptor when there is one, with its alpha y-origin forced to `vH - aH`. Otherwise it splits the video 50/50 by `alphaDirection`, using 1800 x 1000 when the video reports no size.
- `Vertices`: `verriceArray`, the 6-vertex two-triangle quad of 36 floats.
- `Scale`: `getScale`, the fit-mode policy producing `(scaleX, scaleY)`.
- `PosUniform`: the array built in `setImgPosUniform`. Each element contributes 9 numbers, and the array is zero-padded to `(maxTextureDimension2D - 1) * 9`.
- `Dom`: the canvas element, the sizes a canvas keeps when numbers are assigned to `width`/`height` (whole pixels up to 2^31 - 1, else the default), and ASCII lower-casing for the class name.
- `Renderer`: the class `RenderWebGpuBase`. It holds the canvas, options, descriptor and video, plus the contents written to the scale uniform, vertex and position buffers. Its methods are `setSizeCanvas`, `resizeCanvasToDisplaySize`, `getScale` (including the class-name side effect), and the buffer writes of `initGPUContext`/`setImgPosUniform`.

Numbers are Dafny `real`s. JavaScript's `undefined` is `Option.None`. A
thrown error is the `Failure` case of a `Result`: the RangeError of the
padding (`PosUniform.Error`), the TypeError of destructuring an undefined
layout (`Vertices.VertexError`), and a missing adapter or device
(`Renderer.InitError`). An unset string option (mode, alpha direction,
resize policy) is the empty string, which is as falsy as `undefined`.

Some behaviour of the code is worth stating plainly:

- `currentFrame` is set to -1 and is not read anywhere in `RenderWebGPUBase`. `createRender` (base.ts:71-107) skips no frame.
- `createRender` has no guard against being called before initialisation or after destruction.
- Each element's texture index is `+this.textureMap[...]` (base.ts:212). `textureMap` is private and nothing in the class writes it, so within this class every index is `+undefined`, which is NaN. The model takes the index as an opaque input.
- The 1800/1000 fallback applies to each dimension separately (base.ts:287-288). A video of width 0 and height 720 gives an 1800 x 720 frame. Likewise the canvas falls back to 900 for the width and 1000 for the height separately (base.ts:368-369).

## Model

| member | source | states |
|---|---|---|
| Coord.ComputeCoord | packages/yyeva/src/player/render/webgpu/base.ts:295-303 | four coordinates; right - left = w/vw and top - bottom = h/vh; left < right iff w > 0, left <= right iff w >= 0, and likewise bottom/top with h (for a positive reference size) |
| Coord.RectOfCoord | packages/yyeva/src/player/render/webgpu/base.ts:295-303 | mapping a rectangle to coordinates and back gives the rectangle: the mapping loses nothing |
| Coord.CoordOfRect | packages/yyeva/src/player/render/webgpu/base.ts:295-303 | every 4-tuple of coordinates comes back unchanged through the inverse, so the mapping is a bijection |
| Coord.InsideIffInUnit | packages/yyeva/src/player/render/webgpu/base.ts:295-303 | a rectangle of non-negative size lies inside [0,vw]x[0,vh] exactly when all four coordinates lie in [0,1] |
| RgbaPos.SplitLayout | packages/yyeva/src/player/render/webgpu/base.ts:286-292 | both halves are vW/2 wide, vH high, at y = 0; alpha on the right puts RGB at x = 0 and alpha at vW/2, any other direction swaps them |
| RgbaPos.GetRgbaPos | packages/yyeva/src/player/render/webgpu/base.ts:274-294 | undefined exactly when there is neither descriptor nor video; with a descriptor: its RGB frame and size unchanged, alpha x/w/h unchanged, alpha region ending at the frame's bottom edge (y + h = vH); without: video size or 1800/1000 when zero, split by direction, positive size |
| RgbaPos.AlphaYIgnored | packages/yyeva/src/player/render/webgpu/base.ts:279-284 | the descriptor's own alpha y-origin has no effect, and neither do the video or the direction when a descriptor is present |
| RgbaPos.SplitTiles | packages/yyeva/src/player/render/webgpu/base.ts:286-292 | both halves lie inside the frame and every pixel position of the frame falls in exactly one of them |
| RgbaPos.SplitExample | packages/yyeva/src/player/render/webgpu/base.ts:286-292 | a 1800x1000 video with alpha on the right gives RGB (0,0,900,1000) and alpha (900,0,900,1000) |
| Vertices.VertexArray | packages/yyeva/src/player/render/webgpu/base.ts:259-272 | always 36 numbers: 6 vertices of 6 floats |
| Vertices.VertexPairing | packages/yyeva/src/player/render/webgpu/base.ts:259-272 | vertex i sits at corner i of (1,1),(1,-1),(-1,-1),(1,1),(-1,-1),(-1,1); clip x = +1 takes coordinate 1 (right), -1 takes 0 (left); clip y = +1 takes 2 (bottomY), -1 takes 3 (topY), for the RGB and the alpha UV alike |
| Vertices.UVsInUnit | packages/yyeva/src/player/render/webgpu/base.ts:259-272 | when both regions lie inside the frame every UV of every vertex is in [0,1] |
| Vertices.VerriceArray | packages/yyeva/src/player/render/webgpu/base.ts:254-273 | fails with the TypeError of destructuring undefined exactly when there is neither descriptor nor video; otherwise 36 numbers |
| Vertices.FallbackUVsInUnit | packages/yyeva/src/player/render/webgpu/base.ts:254-273 | without a descriptor every UV of the quad is in [0,1] |
| Scale.ContainScale | packages/yyeva/src/player/render/webgpu/base.ts:323-330 | the `contain` clamp fits the unit box, keeps scaleX/scaleY equal to the raw ratio and touches a side |
| Scale.CoverScale | packages/yyeva/src/player/render/webgpu/base.ts:331-339 | the `cover`/`Fill` clamp covers the unit box, keeps the ratio and touches a side |
| Scale.GetScale | packages/yyeva/src/player/render/webgpu/base.ts:304-346 | positive scales; (1,1) with no video, no mode or an unknown mode; AspectFill/vertical give (videoAspect/canvasAspect, 1); AspectFit/horizontal give (1, canvasAspect/videoAspect); contain fits and cover covers with the ratio kept |
| Scale.ClampCharacterised | packages/yyeva/src/player/render/webgpu/base.ts:323-339 | the fit (resp. cover) property holds of exactly one scale, the `contain` (resp. `cover`) result |
| Scale.ClampSides | packages/yyeva/src/player/render/webgpu/base.ts:323-339 | contain gives (r,1) for r <= 1 and (1,1/r) for r > 1; cover gives (1,1/r) for r < 1 and (r,1) for r >= 1 |
| Scale.SameAspectIdentity | packages/yyeva/src/player/render/webgpu/base.ts:307-340 | when the laid-out canvas has the aspect of its backing store, every mode gives (1,1) |
| Scale.ContainExample | packages/yyeva/src/player/render/webgpu/base.ts:323-330 | source aspect 0.5 on a square canvas: contain gives (0.5, 1) |
| Scale.CoverExample | packages/yyeva/src/player/render/webgpu/base.ts:331-339 | source aspect 0.5 on a square canvas: cover gives (1, 2) |
| PosUniform.EncodeElement | packages/yyeva/src/player/render/webgpu/base.ts:212-219 | one element encodes to PER_SIZE = 9 numbers |
| PosUniform.EncodeElements | packages/yyeva/src/player/render/webgpu/base.ts:211-220 | n elements encode to 9n numbers |
| PosUniform.EncodedBlock | packages/yyeva/src/player/render/webgpu/base.ts:211-220 | numbers 9k..9k+9 are the texture index, the offset render rectangle's and the output rectangle's coordinates of element k |
| PosUniform.PosArray | packages/yyeva/src/player/render/webgpu/base.ts:207-224 | fails exactly when the encoding exceeds (maxTextureDimension2D - 1) * 9; otherwise exactly that long, beginning with the encoding and zero after it |
| PosUniform.FitsIffFewElements | packages/yyeva/src/player/render/webgpu/base.ts:223-224 | the array can be built exactly when the frame has at most maxTextureDimension2D - 1 elements |
| PosUniform.OneElementExample | packages/yyeva/src/player/render/webgpu/base.ts:207-224 | limit 8192 and one element: 73719 numbers, the element's 9 then zeros |
| PosUniform.BuildPosArray | packages/yyeva/src/player/render/webgpu/base.ts:207-224 | the forEach loop and the padding produce exactly PosArray |
| Dom.Canvas.constructor | packages/yyeva/src/player/render/webgpu/base.ts:42 | a new canvas has the default 300x150 backing store, no inline size and no class |
| Dom.ToUnsignedLong | packages/yyeva/src/player/render/webgpu/base.ts:372-378 | the unsigned-long conversion of an assigned size: a whole number below 2^32 that agrees, modulo 2^32, with the number truncated toward zero |
| Dom.CanvasDimension | packages/yyeva/src/player/render/webgpu/base.ts:372-378 | the canvas keeps the converted size when it is at most 2^31 - 1 and its default (300 wide, 150 high) otherwise |
| Dom.CanvasDimensionWhole | packages/yyeva/src/player/render/webgpu/base.ts:377-378 | a whole number of pixels up to 2^31 - 1 is kept as it is |
| Dom.CanvasDimensionOutOfRange | packages/yyeva/src/player/render/webgpu/base.ts:377-378 | a negative size down to -2^31, or one from 2^31 below 2^32, leaves the canvas at its default |
| Dom.CanvasDimensionHalf | packages/yyeva/src/player/render/webgpu/base.ts:368-373 | half a video width is kept rounded down |
| Dom.AsciiLower | packages/yyeva/src/player/render/webgpu/base.ts:311 | same length, every letter A-Z lowered, everything else kept |
| Renderer.DisplaySize | packages/yyeva/src/player/render/webgpu/base.ts:363-380 | none exactly without descriptor and video; with a descriptor, the RGB frame's w x h |
| Renderer.DisplaySizeIsRgbRegion | packages/yyeva/src/player/render/webgpu/base.ts:363-380 | in both branches the canvas is sized to the RGB region that getRgbaPos resolves (videoWidth/2 or 900 by videoHeight or 1000 without a descriptor) |
| Renderer.RenderWebGpuBase.constructor | packages/yyeva/src/player/render/webgpu/base.ts:34-47 | currentFrame = -1, no video, a fresh canvas whose CSS size follows the resize policy, empty buffers |
| Renderer.RenderWebGpuBase.SetSizeCanvas | packages/yyeva/src/player/render/webgpu/base.ts:347-362 | percent sets both CSS sizes to 100%, percentH only the height, percentW only the width, anything else nothing |
| Renderer.RenderWebGpuBase.ResizeCanvasToDisplaySize | packages/yyeva/src/player/render/webgpu/base.ts:363-380 | the backing store becomes DisplaySize as the canvas keeps it (whole pixels, default 300x150 when out of range); unchanged without descriptor and video |
| Renderer.RenderWebGpuBase.GetScale | packages/yyeva/src/player/render/webgpu/base.ts:304-346 | returns Scale.GetScale of the laid-out size read at the call and the current backing size; tags the canvas `e-video-<mode lower-cased>` only when a video and a mode are present |
| Renderer.RenderWebGpuBase.SetScaleUniform | packages/yyeva/src/player/render/webgpu/base.ts:117-129 | the scale uniform holds [scaleX, scaleY] for the laid-out size given at the call and the current backing size, and the canvas class is the one GetScale sets |
| Renderer.RenderWebGpuBase.SetVertexBuffer | packages/yyeva/src/player/render/webgpu/base.ts:130-142 | the vertex buffer holds the 36 numbers of verriceArray, or the getter's TypeError is returned and the buffer is untouched |
| Renderer.RenderWebGpuBase.InitGpuContext | packages/yyeva/src/player/render/webgpu/base.ts:48-70 | fails without adapter or device leaving the buffers and the canvas class as they were; otherwise writes the scale uniform and the canvas class, then the vertex buffer, failing (buffer untouched) only when there is no layout |
| Renderer.RenderWebGpuBase.SetImgPosUniform | packages/yyeva/src/player/render/webgpu/base.ts:203-234 | returns PosArray and stores it in the position buffer; on the RangeError the buffer is untouched |

## Left out

- The canvas's laid-out size (`ofs.clientWidth`/`clientHeight`) is an argument read at each call. How the page's CSS decides it is not modelled, nor that an unstyled canvas's laid-out size follows its `width`/`height`. `Scale.SameAspectIdentity` gives the consequence for that case.
- Adapter and device acquisition are asynchronous browser calls. `InitGpuContext` takes their availability as two booleans.
- `ctx.configure`, sampler, bind-group and pipeline layouts, the shader module and the render pipeline (base.ts:60-69, 108-116, 143-201) are GPU API calls with no arithmetic. Only the numbers written into buffers are modelled.
- `createRender` (base.ts:71-107) encodes a render pass that draws 6 vertices. It is GPU command encoding and has no state of its own.
- Teardown in `webgpuDestroy`/`destroy` (base.ts:241-253) is foreign `destroy()` calls plus DOM removal.
- The video entity, render cache, logger and shader source are not part of this model. The frame's element list, the descriptor and the device limit are inputs.
- The texture-index lookup through an untyped cache (base.ts:212) is not modelled. Each element carries its index as an opaque number.
- Float32 storage is not modelled: buffers hold exact reals. A zero reference or canvas size is excluded by the preconditions, so the Infinity/NaN results the source would produce there are not modelled.
- `appendChild` and `document.createElement` beyond the new canvas's initial state are not modelled.
- Dom.AsciiLower: lowers ASCII letters only, whereas `toLocaleLowerCase` also lowers other scripts according to the locale.
- PosUniform.PosArray: `new Array` also throws for lengths of 2^32 or more. Such lengths would need a device limit above 477 million, so this case is not modelled.
- The `version`, `isPlay` and `renderType` fields are never read by this core and are not modelled.
