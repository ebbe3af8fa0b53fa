# Canvas fallback viewer of the cervical cytology demo, in Dafny

This project models the 2D canvas fallback of the demo's browser viewer (`viewer.js`): the view state the mouse handlers change (zoom scale, pan offset, dragging flag, last pointer position, current image, coordinate readout), the geometry that places the image on the canvas and maps the pointer back to image pixels, and the decision `handleFiles` makes about a dropped or picked file.

- `wrappers.dfy` (module `Wrappers`): `Option`.
- `geometry.dfy` (module `Geometry`): images and canvases as integer sizes, placement (`Place`), the closed hit test (`Contains`), `Math.round` as `(x + 0.5).Floor` (`Round`), the coordinate readout (`Readout`) and the zoom percentage.
- `view.dfy` (module `View`): the view state as a datatype and one transition function per handler (`Wheel`, `MouseDown`, `MouseMove`, `MouseUp`, `MouseLeave`, `ResetView`), with lemmas about runs of wheel steps and drags and about the reset.
- `dispatch.dfy` (module `Dispatch`): `Decide`, the outcome of `handleFiles`, given whether the canvas's 2D context exists, whether `nv` is non-null, whether Niivue would load the file and whether the browser would decode it.
- `viewer.dfy` (module `Viewer`): class `Viewer` holding the module-level variables as fields. Each handler is a method, with the same steps as the source. Each method is proved against its transition function in `View`.

Scale, pan and pointer positions are `real`s.

Modelling decisions:
- `resetView` is declared twice (lines 216 and 492). The later declaration is the one in effect, so that is the one modelled. When Niivue holds a volume, the Niivue camera reset is external and the canvas state stays as it is.
- The wheel handler rejects a step that would leave [0.1, 10]. It does not clamp. A reset may set the scale below 0.1 (`ResetCanLeaveZoomRange`). Once the scale times 1.1 is still below 0.1, every wheel step is rejected (`WheelStuckBelowRange`).
- In `handleFiles`, the `catch` block refers to `fileUrl`, a `const` local to the `try` block. A Niivue load failure therefore ends in a ReferenceError (outcome `Aborted`), and the raster fallback runs only when there is no Niivue instance.
- The raster path can also fail, in the file reader or the image decoder (lines 428-439). This enters `Decide` as the boolean `decodes` and gives the outcome `RasterFailed`.
- The 2D context `ctx` is created only when Niivue fails to initialise (line 64). With a fully attached Niivue, `handleFiles` throws a TypeError when it draws the loading screen (lines 378 and 450), before it reaches `loadVolumes`. `Decide` takes this as the input `hasContext` and gives the outcome `NoContext`. With a context, a non-null `nv` means that Niivue's constructor succeeded and `attachTo` threw. That is the only configuration in which `handleFiles` offers the file to Niivue.
- `viewer.js` has no classification by file extension (`.nii`, `.dcm`, ...), no "mask"/"overlay" tagging, no brightness/contrast and no zoom clamping. The model follows the code: any file goes to Niivue first, the raster test is the MIME prefix `image/` only, and zoom steps outside the range are rejected, not clamped.
- Pointer positions are used as canvas coordinates, as the source does with `clientX`/`clientY`.

## Model

| member | source | states |
|---|---|---|
| Geometry.Round | viewer.js:303-304 | `Math.round(x)` is the integer n with x - 1/2 < n <= x + 1/2 |
| Geometry.Place | viewer.js:202-205 | the drawn size is the image size times the scale, and the image centre is the canvas centre plus the pan |
| Geometry.PlaceUnpannedIsCentred | viewer.js:204-205 | with zero pan the left and right margins are equal, and so are the top and bottom ones |
| Geometry.PlacePanShifts | viewer.js:293-296 | changing the pan by (dx, dy) moves the drawn rectangle by (dx, dy) and keeps its size |
| Geometry.Readout | viewer.js:289-310 | a readout exists iff the pointer is in the closed drawn rectangle (the edge-inclusive hit test `Geometry.Contains` of lines 299-300); it lies in [0, w] x [0, h] and is the nearest integer to the pointer's image-space position |
| Geometry.AxisRoundTrip | viewer.js:303-304 | on one axis, the screen position origin + p*scale of an integer pixel p maps back, through the division by the scale and `Math.round`, to exactly p |
| Geometry.ReadoutRoundTrip | viewer.js:295-304 | an integer pixel p in [0, w] x [0, h] shown at left + p*scale reads back as exactly p |
| Geometry.ReadoutPanInvariant | viewer.js:295-304 | panning by d and moving the pointer by d leave the readout unchanged |
| Geometry.ZoomPercent | viewer.js:477 | the zoom percentage is the nearest integer to scale*100 |
| Geometry.ZoomPercentRange | viewer.js:240-243 | for a scale in [0.1, 10] the percentage lies in [10, 1000] |
| View.Initial | viewer.js:2-8 | the page-load state: no image, no volumes, scale 1 (inside the zoom range), pan (0, 0), not dragging, no readout |
| View.ZoomFactor | viewer.js:236 | a positive deltaY zooms out (factor below 1); any other deltaY, zero included, zooms in |
| View.Wheel | viewer.js:234-245 | the zoomed scale is committed iff it lies in [0.1, 10], otherwise the scale is kept; a scale in range stays in range; nothing but the scale changes |
| View.WheelSteps | viewer.js:234-245 | a run of wheel steps changes nothing but the scale, and keeps a positive scale positive |
| View.WheelStepsStayInRange | viewer.js:236-244 | after any number of wheel steps a scale in [0.1, 10] is still in it, and pan and everything else are untouched |
| View.ZoomInAtTopIsRejected | viewer.js:236-240 | from 9.5, every zoom-in step (deltaY <= 0) is rejected, so the scale does not exceed 10 |
| View.WheelStuckBelowRange | viewer.js:236-241 | when scale*1.1 < 0.1, every wheel step, in or out, is rejected |
| View.MouseDown | viewer.js:248-253 | dragging starts and the press position becomes the last position; nothing else changes |
| View.MouseMove | viewer.js:255-271 | while dragging, the pan grows by exactly the pointer's movement since the last event and that position becomes the last one; otherwise pan and last position are kept; scale, image and dragging never change; with an image the readout becomes `Readout` of the view before the move (so it exists iff the pointer hits the drawn image); without an image it is left alone |
| View.MouseUp | viewer.js:273-276 | the drag ends; nothing else changes |
| View.MouseLeave | viewer.js:278-282 | the drag ends and the readout is cleared; nothing else changes |
| View.Moves | viewer.js:255-271 | a run of moves keeps the scale, the image and the dragging flag |
| View.MovesWhileDragging | viewer.js:259-268 | while dragging, a run of moves pans by the final pointer position minus the last recorded one |
| View.MovesWithoutDragKeepPan | viewer.js:259 | moves while not dragging never change the pan |
| View.DragPansByPointerTravel | viewer.js:248-268 | after a press at (x0, y0) and a run of moves, the total pan change is the final pointer position minus (x0, y0), and the scale is unchanged |
| View.EndingDragStopsPanning | viewer.js:273-282 | mouseup and mouseleave always end the drag; mouseleave clears the readout; later moves do not pan |
| View.FitScale | viewer.js:502-504 | the reset scale is one of 0.8*cw/w, 0.8*ch/h and 1; it is at most each of them, so it is at most 1 and the scaled image fits in 80% of the canvas on both axes; it is positive on a canvas of positive size |
| View.ResetView | viewer.js:492-512 | with Niivue volumes, or with no image, the canvas state is unchanged; otherwise the scale becomes the fit scale and the pan becomes (0, 0), with nothing else changed |
| View.ResetViewIdempotent | viewer.js:500-507 | resetting twice equals resetting once |
| View.ResetViewFitsImage | viewer.js:502-507 | after a canvas reset the image lies within the middle 80% of the canvas on both axes, at a scale of at most 1 |
| View.ResetViewWellFormed | viewer.js:502-504 | a reset on a canvas of positive size keeps the scale positive |
| View.ResetCanLeaveZoomRange | viewer.js:504 | a 10000x10000 image on a 1000x760 canvas is reset to scale 0.0608, outside [0.1, 10], and every wheel step is then rejected |
| View.InfoZoomPercent | viewer.js:473-477 | the zoom value the info line gets when it is rewritten for a state: it exists iff an image is loaded, and lies in [10, 1000] when the scale is in range; it is rewritten only on load (lines 126, 423), not by a wheel step (line 243 updates only the status line) |
| Dispatch.Decide | viewer.js:372-447 | each outcome holds exactly when: the list is empty (nothing); a file but no 2D context (no context); context, Niivue, and it loads (volume); context, Niivue, and it fails (aborted); no Niivue and an `image/` type (`Dispatch.IsRasterType`, by `Dispatch.StartsWith`, JavaScript's `startsWith` at line 408) that decodes (raster) or fails to decode (raster failed); no Niivue and another type (unsupported) |
| Dispatch.DecideLooksAtFirstFileOnly | viewer.js:373-375 | files after the first never change the outcome |
| Dispatch.AttachedNiivueLoadsNothing | viewer.js:378 | with a fully attached Niivue (no 2D context) no file is ever loaded, whatever the volume loader or decoder would do |
| Dispatch.NiivueNeverFallsBackToRaster | viewer.js:381-405 | with a non-null `nv` the outcome is a volume load, an abort or the missing-context error, and does not depend on whether the file could be decoded as a raster image |
| Dispatch.NoNiivueNoVolumeLoad | viewer.js:381 | without Niivue the outcome does not depend on the volume loader and is never a volume load |
| Dispatch.RasterTypeExamples | viewer.js:408-446 | `image/jpeg` and `image/png` are raster types, `text/plain`, `image` and the empty type are not; sample files take the raster, unsupported and aborted paths |
| Viewer.Viewer.constructor | viewer.js:2-8 | the initial state: no image, scale 1, pan (0, 0), not dragging, last position (0, 0), no readout |
| Viewer.Viewer.Wheel | viewer.js:234-245 | the object's state becomes `View.Wheel` of the old state; pan is untouched and a scale in range stays in range |
| Viewer.Viewer.MouseDown | viewer.js:248-253 | dragging starts and the press position is recorded; nothing else changes |
| Viewer.Viewer.MouseMove | viewer.js:255-271 | the state becomes `View.MouseMove` of the old state: the readout is refreshed, then while dragging the pan grows by the pointer delta |
| Viewer.Viewer.UpdateCoordinates | viewer.js:289-310 | with an image the readout becomes `Geometry.Readout` of the current view; without one it is left alone |
| Viewer.Viewer.MouseUp | viewer.js:273-276 | dragging ends; nothing else changes |
| Viewer.Viewer.MouseLeave | viewer.js:278-282 | dragging ends and the readout is cleared; nothing else changes |
| Viewer.Viewer.ResetView | viewer.js:492-512 | the state becomes `View.ResetView` of the old state |
| Viewer.Viewer.HandleFiles | viewer.js:372-447 | the outcome is `Dispatch.Decide` with the 2D context present (the fallback configuration); a volume load marks Niivue as holding a volume; a raster load makes the decoded image current and resets the view; every other outcome leaves the state unchanged |

## Left out

- Niivue is external: its construction, `attachTo`, `loadVolumes`, `screenToImageCoordinates`, slice type and camera reset, and `drawScene`. What `loadVolumes` would do with a file enters `HandleFiles` as the boolean `volumeLoads`. Whether Niivue holds a volume is the flag `hasVolumes`.
- Canvas drawing is not modelled (`fillRect`, `fillText`, `drawImage`, `strokeRect`, the welcome, loading and error screens). `Geometry.Place` gives the rectangle `drawImage` would draw.
- DOM and event plumbing is not modelled: status and info text, cursor styles, drop-zone highlight, listener wiring, the file-input handler, `toggleInfo`, console logging. The coordinate text is modelled only as the `coordinates` value.
- Window resizing (`resizeCanvas`) is not modelled. The canvas size is fixed when the object is built.
- Asynchronous decoding (`FileReader`, `Image.onload`/`onerror`, object URLs) is not modelled. A raster load is treated as finishing within `HandleFiles`, so overlapping loads that complete out of order are not modelled. The loading-dots timer is not modelled either.
- The raster `onload` branch that shows a "loaded as standard image" message when Niivue exists (lines 414-417) is unreachable from `handleFiles`, because of the ReferenceError.
- `loadDefaultImage` is not modelled: it is an URL fetch. Its fallback matches `handleFiles` only without Niivue. With Niivue, its `catch` (lines 110-112) does not throw, so the `Image` fallback is reached and shows the welcome screen (lines 118-120). It makes no MIME test.
- `initializeNiivue` is not modelled. Whether `nv` is non-null is the constant `hasNiivue`. The mouse handlers and the 2D context exist only in the fallback, which runs when Niivue's constructor or `attachTo` throws, so `nv` may still be non-null there. Class `Viewer` models only this fallback configuration, so its `HandleFiles` always has a context. The fully attached configuration appears only in `Dispatch.Decide`, where `hasContext` is false and the outcome is `NoContext`.
- The Niivue-mode mousemove and mouseleave listeners (lines 79-95) are not modelled: they go through the external `screenToImageCoordinates`.
- The first `resetView` declaration (lines 216-230) is shadowed by the later one and has no effect of its own.
- IEEE-754 rounding is not modelled: with reals, 0.9 and 1.1 products do not drift.
- `Viewer.Viewer.constructor`: the model requires a canvas of positive width and height. The canvas attributes are unsigned, so a dimension of 0 arises only from a window exactly 30 pixels tall (line 168) or 0 pixels wide (line 167). A negative value is invalid, and a shorter window gets the default height of 150, which the model accepts.
- `Viewer.Viewer.HandleFiles`: the model requires a decoded image of positive width and height. A zero-sized image makes the reset divide by zero, and the readout's `Math.round` of NaN is out of scope.
