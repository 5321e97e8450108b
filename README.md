# Photobooth — a Dafny model of the page script

The photobooth page shows the user's camera. It offers a frame overlay and a
sticker overlay, and on "start" it takes four stills, each after a 3-2-1
countdown. It stacks the stills into a vertical strip with a white border,
shows a scaled-down preview, and offers the strip for download or as a QR
code. The script keeps its session state in module-level variables and in
DOM properties, and it changes that state from event handlers.

The model has four modules:

- `Optional` (`optional.dfy`): `Option`, standing for JavaScript's `null`.
- `Overlay` (`overlay.dfy`): the geometry of `drawOverlay` and `captureFrame`, as pure functions and lemmas.
  - How big a still is (the video's size, with a per-dimension fallback to the overlay canvas).
  - Which filter it gets.
  - Where the frame and the sticker are drawn on screen and in a still.
- `Strip` (`strip.dfy`): the layout arithmetic of `buildStrip`.
  - It has the loop that draws the tiles, as a method proved against a function.
  - Tile `i` sits at row `i * h` of a `w` x `h * n` strip.
  - The border is `max(6, round(1% of w))` wide, inset by half of that.
  - The preview scale is `min(240 / W, 1)`.
- `Booth` (`booth.dfy`): the session as a class.
  - Its fields are the script's state: the captures, the busy flag, the four buttons' `disabled` states, the two overlay slots, the overlay canvas's size and contents, the thumbnails, the timer text, the preview, the strip's data URL, the download link's `href` and the QR panel.
  - Each handler is a method with a `modifies` frame listing exactly the fields it writes. `Press`, which may run any of the button handlers, lists the union of their frames; it never touches the camera flag, the overlay slots or the overlay canvas.
  - `take4Photos` keeps its nested loop: four rounds, each with a countdown from 3 to 1.
  - Each `await` of a run is recorded as a `Pause`, a snapshot of what the page shows at that moment. This lets the contracts state what the user sees during a run: the countdown, the "taking" and "done" messages, and start and retake disabled throughout.
  - `Valid()` is the state between two events. It is made of three parts:
    - `Idle`: not busy, start and retake enabled.
    - `Drawn`: the overlay canvas shows the current slots.
    - `InStep`: the thumbnails match the captures; either nothing is stored, or four captures are stored with their strip; download and share are enabled exactly when a strip is stored.
  - `Press` dispatches a click only to an enabled button, as the browser does. It states what the button's handler did (the two-state predicate `Handled`, which picks the handler's own predicate: `Started`, `Retaken`, `Downloaded` or `Shared`), and it preserves each of the three parts on its own: `Idle` into `Idle`, `Drawn` into `Drawn`, `InStep` into `InStep`.

Canvas coordinates are exact reals. `Math.round` is "round half up" on those
reals: `Round(x) = floor(x + 0.5)`, which is what `Math.round` does on
finite doubles, without the rounding error of double arithmetic.

Where the code differs from what a reader might expect of a photobooth, the
model follows the code:

- Stills are not forced to one size. Each still takes the size the video reports at that moment, and the strip uses the first still's size for every tile.
- The border width is `max(6, round(1% of the width))`, so it stays at 6 px for every strip narrower than 650 px.
- The preview caps only the width at 240 px. The height follows the same scale.
- Retake does not check the busy flag. It relies on its button being disabled during a run.
- Retake leaves the QR panel and the download link's `href` as they were.

## Model

| member | source | states |
|---|---|---|
| Overlay.Round | script.js:101 | `Math.round(x)` lies within half a unit of `x`, and halves round up |
| Overlay.RoundOfInteger | script.js:188-189 | rounding a whole number gives it back |
| Overlay.StickerScale | script.js:63 | the sticker's scale, `min(0.4 W / iw, 0.3 H / ih, 1)`; characterised by `StickerScaleIsLargestFit` and bounded by `StickerScaleBounds` |
| Overlay.ScaledRect | script.js:64-66 | the rectangle of an image drawn at scale `s`, centred, `margin` above the bottom; its properties are `ScaledRectFits` |
| Overlay.StickerRect | script.js:98-100 | the sticker's rectangle at `StickerScale`; its properties are `StickerPlacement` |
| Overlay.OverlayLayout | script.js:53-68 | the layers drawn over a surface; its properties are `OverlayLayers` |
| Overlay.CaptureSize | script.js:76-77 | the per-dimension fallback size of a still; its properties are `CaptureSizeFallback` |
| Overlay.ScreenLayers | script.js:53-69 | what `drawOverlay` shows on an overlay canvas with a 20 px sticker margin; its properties are `ScreenLayersShape` |
| Overlay.ScreenLayersShape | script.js:53-69 | the overlay canvas carries a frame layer (covering it) or a sticker layer exactly when that slot is filled; the sticker is centred, its bottom edge 20 px above the bottom, within 40% x 30% of the canvas, and inside it when the canvas is at least 29 px high |
| Overlay.StillLayers | script.js:92-103 | what `captureFrame` draws over the video in a still, with the margin `CaptureMargin`; its properties are `CaptureFrameShape` |
| Overlay.CaptureFrame | script.js:72-106 | `captureFrame`'s still; its properties are `CaptureFrameShape` and `SameVideoSameSize` |
| Overlay.StickerScaleIsLargestFit | script.js:63 | the sticker scale is the LARGEST factor `t` with `t <= 1`, `t * iw <= 40%` of the target width and `t * ih <= 30%` of its height (both directions) |
| Overlay.StickerScaleBounds | script.js:97 | the scale lies in `[0, 1]` and keeps the sticker within 40% x 30% of the target |
| Overlay.ScaledRectFits | script.js:98-101 | an image drawn at a fitting scale, centred, `margin` above the bottom: it keeps its aspect ratio, is not upscaled, stays within 40% x 30%, and stays inside the target sideways |
| Overlay.StickerPlacement | script.js:61-67 | the sticker is centred horizontally, its bottom edge is `margin` above the target's bottom, its aspect ratio is the image's, it is no larger than the image, and it is inside the target sideways |
| Overlay.OverlayLayers | script.js:53-69 | each layer is drawn exactly when its slot is filled; the frame covers the whole surface; the sticker is centred, `margin` above the bottom, within 40% x 30% |
| Overlay.CaptureMargin | script.js:101 | a still's sticker margin is 3% of the height rounded, so it is between 0 and `3% + 0.5` |
| Overlay.CaptureStickerInside | script.js:96-103 | in a still the sticker lies wholly inside the canvas, including a still of height 0 |
| Overlay.ScreenStickerInside | script.js:59-68 | on an overlay at least 29 px high the on-screen sticker lies wholly inside the canvas |
| Overlay.ScreenStickerAboveShortOverlay | script.js:66 | on an overlay lower than 20 px the on-screen sticker always starts above the top edge, because of the fixed 20 px margin |
| Overlay.ScreenStickerBoundTight | script.js:63-66 | the 29 px bound is tight: a 10 x 10 sticker on a 1000 x 28 overlay starts above the top edge |
| Overlay.FilterOf | script.js:86 | a still's filter is never empty: the selector's value if it has one, `"none"` otherwise |
| Overlay.CaptureSizeFallback | script.js:76-82 | each dimension is the video's when that is non-zero and the overlay canvas's otherwise; a dimension is 0 exactly when both sources report 0 |
| Overlay.CaptureFrameShape | script.js:72-106 | a still has the capture size and a non-empty filter; it carries a frame layer (covering it) or a sticker layer exactly when that slot is filled; its sticker is centred, inside the still, and its bottom edge is `round(3% of the height)` above the bottom |
| Overlay.SameVideoSameSize | script.js:76-82 | two stills taken while the video reports the same size have the same size and overlays, whatever the filter |
| Strip.TileColumn | script.js:173-175 | `n` tiles; tile `i` shows capture `i`, is `w` x `h`, and has its top at row `i * h` |
| Strip.TilesStack | script.js:165-175 | the first tile starts at row 0, each tile starts where the previous one ends, and the last one ends at the strip's height `h * n` |
| Strip.TilesPartitionRows | script.js:165-175 | every row of the strip is covered by exactly one tile, namely tile `r / h` |
| Strip.LayTiles | script.js:173-175 | the drawing loop produces exactly `TileColumn(n, w, h)` |
| Strip.LineWidth | script.js:179 | `max(6, round(w * 0.01))`; its properties are `LineWidthBounds` |
| Strip.LineWidthBounds | script.js:179 | the border's line width is at least 6 and at least `round(1% of w)`; it is exactly 6 below 650 px and exactly the rounded 1% from 650 px on |
| Strip.BorderRect | script.js:180 | the stroked rectangle is inset by half the line width on each side, so the stroke's outer edges run along the canvas edges |
| Strip.PreviewScale | script.js:187 | `min(240 / W, 1)`, and 1 for a zero-width strip; its properties are `PreviewNeverUpscales` |
| Strip.PreviewSize | script.js:188-189 | the preview canvas's size, both dimensions rounded after scaling; its properties are `PreviewNeverUpscales` |
| Strip.PreviewOf | script.js:184-193 | the preview canvas: the strip drawn at `PreviewSize`; its properties are `PreviewOfShape` |
| Strip.PreviewOfShape | script.js:184-193 | the preview shows the strip, is exactly `min(W, 240)` wide and no taller than the strip, and is the strip's own size when `W <= 240` |
| Strip.PreviewNeverUpscales | script.js:186-189 | the preview scale lies in `(0, 1]`; the preview is exactly `min(W, 240)` wide and no taller than the strip; a strip at most 240 px wide is shown at its own size |
| Strip.Composite | script.js:158-180 | `buildStrip`'s layout; its properties are `CompositeShape`, and `ComposeStrip` computes it with the source's loop |
| Strip.CompositeShape | script.js:158-180 | there is no strip exactly when there are no captures; otherwise the strip is the first capture's width and `n` tiles high, with the tiles of `TileColumn`, a line width of at least 6 and the inset border |
| Strip.ComposeStrip | script.js:158-180 | `buildStrip`'s geometry, computed by its loop, equals `Composite(captures)` |
| Booth.CountdownPauses | script.js:120-123 | the `j`-th countdown pause of photo `i` shows "photo `i + 1`, `3 - j` seconds", busy, with start and retake disabled and `i` captures taken |
| Booth.PhotoPauses | script.js:119-131 | the five pauses of one photo: three countdown seconds, the stabilisation pause, the "done" pause; read through `RunScript` |
| Booth.RunPauses | script.js:118-132 | the pauses of the first `n` photos, five per photo; indexed by `RunPausesAt` |
| Booth.RunPausesAt | script.js:118-132 | pause `k` of a run is pause `k % 5` of photo `k / 5` |
| Booth.RunScript | script.js:111-132 | at every pause of a run the page is busy with start and retake disabled; pauses 0-2 of each photo count down 3, 2, 1; pause 3 says "taking"; pause 4 says "done" with one more capture |
| Booth.Shots | script.js:118-132 | the stills taken in order from the samples, one per sample; indexed by `ShotsAt` |
| Booth.ShotsAt | script.js:127-128 | the `i`-th capture is the still taken from the `i`-th sample |
| Booth.Photobooth.constructor | script.js:22-41 | the initial session state, with the camera granted or not and the overlay sized to the video: between-events state, no captures, no overlays, no pauses, download and share disabled |
| Booth.Photobooth.Await | script.js:122 | an `await` records the page as it is at that moment |
| Booth.Photobooth.DrawOverlay | script.js:53-69 | the overlay canvas shows the current slots at the current size |
| Booth.Photobooth.ScreenShowsSlots | script.js:53-69 | while the overlay canvas is up to date, it shows the frame slot's image over the whole canvas and the sticker slot's image centred, 20 px above the canvas's bottom edge, each exactly when its slot is filled |
| Booth.Photobooth.DrawnKept | script.js:53-69 | whether the overlay canvas is up to date depends only on the canvas, its size and the two slots, so a handler that writes none of them keeps it |
| Booth.Photobooth.ResizeOverlay | script.js:43-51 | the overlay canvas takes the new size and is redrawn |
| Booth.Photobooth.BuildStrip | script.js:158-204 | without captures nothing changes; otherwise the preview canvas shows `Composite(captures)` at `PreviewSize` (`PreviewOf`), and the strip's data URL is stored and put on the download link |
| Booth.Photobooth.Take4Photos | script.js:109-142 | without a stream nothing changes; otherwise the captures and thumbnails are the four stills taken from the samples, in order; the run's pauses are `RunPauses(4)`; the strip is built; every button is enabled; the session ends idle and in step |
| Booth.Photobooth.Run | script.js:111-141 | the body of a run once the stream is known to exist, with the same results as `take4Photos` |
| Booth.Photobooth.BeginRun | script.js:111-116 | busy, start and retake disabled, captures and thumbnails cleared, timer emptied |
| Booth.Photobooth.ShootAll | script.js:118-132 | four rounds give the captures `Shots(samples)`, one thumbnail per capture, and the pauses `RunPauses(4)` |
| Booth.Photobooth.TakePhoto | script.js:119-131 | one round appends the still from its sample to the captures and to the thumbnails, after the pauses `PhotoPauses(i)` |
| Booth.Photobooth.FinishRun | script.js:135-141 | the strip is built, the final message is shown, every button is enabled and the busy flag is cleared |
| Booth.Photobooth.OnStart | script.js:271-274 | does what `Started` says; after a run the session is idle and in step, and an up-to-date overlay canvas stays so |
| Booth.Photobooth.OnRetake | script.js:276-284 | does what `Retaken` says; the session's data is in step afterwards, and an up-to-date overlay canvas stays so |
| Booth.Photobooth.OnDownload | script.js:207-213 | does what `Downloaded` says |
| Booth.Photobooth.OnShareQR | script.js:216-238 | does what `Shared` says |
| Booth.Photobooth.OnFrameUpload | script.js:241-250 | no file: nothing changes; a loaded image: it fills the frame slot and the overlay is redrawn |
| Booth.Photobooth.OnStickerUpload | script.js:253-262 | the same as the frame upload, for the sticker slot |
| Booth.Photobooth.OnClearOverlays | script.js:264-268 | both slots are emptied and the overlay is redrawn |
| Booth.Photobooth.Started | script.js:109-142 | a start: ignored (nothing changes) while a run is in progress or without a stream; otherwise the captures and thumbnails are `Shots(samples)`, the pauses `RunPauses(4)`, the final message shown, every button enabled, the strip shown at `PreviewOf`, stored and put on the download link; the QR panel is left as it was |
| Booth.Photobooth.Retaken | script.js:276-284 | a retake: no captures, thumbnails, preview or data URL; download and share disabled; the timer shows a dash; the busy flag, start, retake, the pause record, the download link and the QR panel are left as they were |
| Booth.Photobooth.Downloaded | script.js:207-213 | a download: the saved file is the stored data URL; without one nothing changes; otherwise the link points at it; every other field is left as it was |
| Booth.Photobooth.Shared | script.js:216-238 | a share: without a stored data URL nothing changes; otherwise the QR panel holds a 160 px code for the strip; every other field is left as it was |
| Booth.Photobooth.Handled | script.js:271-287 | a click on button `b` does what that button's handler predicate says (`Started`, `Retaken`, `Downloaded`, `Shared`), and only a download saves a file |
| Booth.Photobooth.Dispatch | script.js:271-287 | running the handler of button `b` does what `Handled` says, and keeps `Idle`, `Drawn` and `InStep` |
| Booth.Photobooth.Press | script.js:271-287 | a click on a disabled button changes nothing and saves nothing; a click on an enabled one does what `Handled` says; every click keeps `Idle`, `Drawn` and `InStep`, each on its own |

## Left out

- Camera acquisition: `getUserMedia`, `video.play()` and the alert on failure. The constructor takes whether the camera was granted and the overlay's initial size.
- Timers and asynchrony. A run is atomic. Its `await`s are recorded as pauses, but no other event can be handled during one. In the page a click on download or share (which stay enabled from an earlier run), or an overlay upload, can happen between two stills.
- The initial button states come from the page markup, which is not part of this model. They are taken to be: start and retake enabled, download and share disabled.
- Pixel drawing: the video frame, the rendering of the CSS filter, the background fill and the stroke colour, and the smoothing of the preview. Only what is drawn where is modelled.
- PNG encoding: `toDataURL`. A data URL stands for the strip it encodes.
- Thumbnails are kept as the stills they show. Their encoding and CSS are not modelled.
- `fetch`, blobs, `URL.createObjectURL` and the QR library, with its console error path. The QR panel is modelled as holding a code for the strip's data URL, rather than for a blob URL of it.
- The `Date.now()` file names of downloads.
- DOM positioning of the overlay (`style.left`/`style.top`), and the truncation of the video's display size to canvas integers. The model takes the size as a natural number.
- Floating-point arithmetic. Coordinates and scales are exact reals, and `Math.round` is rounding half up on them.
- Zero-sized uploaded images. A decoded image has a positive size.
- The unused `videoSettings` lookup in `captureFrame`, the empty filter-change handler, and stopping the camera tracks on unload.
- After a retake the preview canvas is cleared but keeps its size. The model records only that there is no preview, so that size is not kept.
