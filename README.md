# AR-Edge-Explorer: buffer ownership, mode dispatch and frame-loop bookkeeping

AR-Edge-Explorer is a browser page that runs OpenCV.js filters over the camera feed. On
each animation frame, `processFrame` reads the frame into a `cv.Mat` and picks a
transform with the mode selector. It shows the transform's result, updates an FPS
counter and, after a click of the screenshot button, schedules one PNG save.
OpenCV.js objects are native. Every `new cv.Mat()`, `new cv.MatVector()`,
`new cv.KeyPointVector()` and `new cv.ORB()` must be matched by exactly one
`.delete()`, and a deleted object must never be used again.

This project models that discipline and proves it.

- **`Cv`** is an arena of native objects, named by handles. Every `cv.*` routine is an
  opaque call that reads some handles and writes others. Pixels are not modelled.
- **Trace semantics.** A program's effect is the trace of events it appends: allocations,
  deletes and calls. `Cv.Replay` gives the live set after a trace, or `None` on a misuse:
  a double delete, a call on a deleted object, or re-allocating a live handle.
  `Cv.History` gives the life of one handle, use by use.
- **Methods.** Each source function is an imperative method on the arena. Its contract
  says it appends exactly the trace of a specification function.
- **Lemmas.** Lemmas about that specification function state what the source promises:
  - the function leaves exactly its result live (`...ReturnsOne`);
  - what it does to every buffer it names (`...Lifetimes`).
- **Frame loop.** `Ui` models the loop itself as the `FrameLoop` class: the FPS counter,
  the screenshot flag, and one tick that takes the arena back to the live set it started
  from.

Modules follow the source files:

| module | file | what it models |
|---|---|---|
| `Cv` | cv.dfy | the arena, events, replay and per-handle history |
| `Preprocess` | preprocess.dfy | `js/preprocess.js` |
| `Modes` | modes.dfy | `js/modes.js` |
| `Features` | features.dfy | `css/js/js/features.js`, the `detectORB` the frame loop calls |
| `Overlay` | overlay.dfy | `css/js/overlay.js`, the `drawKeypoints` the frame loop calls |
| `FeatureMode` | featuremode.dfy | `js/features.js`, the standalone `featureMode` |
| `ArOverlay` | aroverlay.dfy | `js/overlay.js`, the standalone `arOverlayMode` |
| `Ui` | ui.dfy | `js/ui.js` |

What the code does, branch by branch:

- **Mode names.** The `switch` recognises `canny`, `sobel`, `log`, `dog`, `features`,
  `depth`, `segment` and `ar`.
- **Default branch.** Any other value takes the default branch. It returns a fresh
  clone of the frame, which `processFrame` deletes like any other result.
- **`segment`.** It returns the Otsu mask, which the `switch` converts to RGBA.
- **`dog`.** It is a plain `cv.subtract` of the two blurs.
- **`depthLike`.** It blends the two Sobel magnitudes with weights 0.5 and 0.5.
- **Errors.** No part of `processFrame` is wrapped in error handling.

## Model

| member | source | states |
|---|---|---|
| Cv.Arena.Alloc | js/modes.js:6 | `new cv.Mat()` takes the next handle and records its allocation |
| Cv.Arena.Delete | js/modes.js:8 | `.delete()` records the deletion and nothing else |
| Cv.Arena.Invoke | js/modes.js:7 | a `cv.*` call records which handles it reads and writes and nothing else |
| Preprocess.ProducerReturnsOne | js/preprocess.js:3-17 | a one-step producer on a ready log leaves exactly one more buffer live, the fresh result; its input is read once as argument 0 and not deleted; the result is allocated and then written |
| Preprocess.ToGray | js/preprocess.js:3-7 | `toGray` appends the allocation and the RGBA-to-gray conversion, and the live set gains exactly the fresh gray Mat |
| Preprocess.Denoise | js/preprocess.js:8-12 | `denoise` appends a 5x5 sigma-0 blur into a fresh Mat, which is the only buffer added |
| Preprocess.Equalize | js/preprocess.js:13-17 | `equalize` appends `equalizeHist` into a fresh Mat, which is the only buffer added |
| Modes.CannyReturnsOne | js/modes.js:4-10 | `canny` leaves exactly `edges` live, a fresh buffer written by Canny(50, 150); `srcMat` is read once by the gray conversion and never written or deleted |
| Modes.CannyLifetimes | js/modes.js:4-10 | `gray` is allocated, written, read by Canny and deleted; `edges` is allocated and written once |
| Modes.Canny | js/modes.js:4-10 | the method appends exactly the `canny` trace and adds only `edges` to the live set |
| Modes.SobelReturnsOne | js/modes.js:12-18 | `sobel` leaves exactly `grad` live, written by Sobel(CV_8U, 1, 1); `srcMat` is only read |
| Modes.SobelLifetimes | js/modes.js:12-18 | `gray` is read by Sobel and deleted; `grad` is allocated and written once |
| Modes.Sobel | js/modes.js:12-18 | the method appends exactly the `sobel` trace and adds only `grad` |
| Modes.LogReturnsOne | js/modes.js:20-28 | `log` leaves exactly `lap` live; `gray` and `blur` are deleted; `srcMat` is only read |
| Modes.LogLifetimes | js/modes.js:20-28 | `gray` is read by the 3x3 sigma-0 blur and deleted; `blur` is written by it, read by the Laplacian and deleted; `lap` is written by the Laplacian |
| Modes.Log | js/modes.js:20-28 | the method appends exactly the `log` trace and adds only `lap` |
| Modes.DogReturnsOne | js/modes.js:30-39 | `dog` leaves exactly `dst`, the result of the subtract, live; `gray`, `g1` and `g2` are deleted |
| Modes.DogLifetimes | js/modes.js:30-39 | `g1` is the 3x3 sigma-1 blur and `g2` the 3x3 sigma-2 blur; they are read as the first and second operand of the subtract and then deleted |
| Modes.Dog | js/modes.js:30-39 | the method appends exactly the `dog` trace and adds only `dst` |
| Modes.DepthLikeReturnsOne | js/modes.js:41-52 | `depthLike` leaves exactly `dst` live; `gray`, `gx` and `gy` are deleted; `srcMat` is only read |
| Modes.DepthLikeLifetimes | js/modes.js:41-52 | `gx` and `gy` are written by the 16-bit Sobels, converted in place, read by the 0.5/0.5 blend as its first and second input, and deleted |
| Modes.DepthLike | js/modes.js:41-52 | the method appends exactly the `depthLike` trace and adds only `dst` |
| Modes.SegmentReturnsOne | js/modes.js:54-60 | `segment` leaves exactly `dst` live, written by the Otsu threshold; `gray` is deleted |
| Modes.SegmentLifetimes | js/modes.js:54-60 | `gray` is read by the threshold and deleted; `dst` is allocated and written once |
| Modes.Segment | js/modes.js:54-60 | the method appends exactly the `segment` trace and adds only `dst` |
| Features.DetectOrbReturnsOne | css/js/js/features.js:3-10 | `detectORB` leaves exactly the keypoint vector live, a fresh handle the caller now owns |
| Features.DetectOrbLifetimes | css/js/js/features.js:3-10 | `gray` and the detector are read once by `orb.detect` and deleted; the keypoint vector is allocated and written by the detector |
| Features.DetectOrb | css/js/js/features.js:3-10 | the method appends exactly the `detectORB` trace and adds only the keypoint vector |
| Overlay.DrawKeypointsReturnsOne | css/js/overlay.js:3-7 | `drawKeypoints` adds exactly its fresh, green-drawn result; the frame and the keypoints are each read once, as arguments 0 and 1, and neither is deleted |
| Overlay.DrawKeypoints | css/js/overlay.js:3-7 | the method appends exactly the allocation and the drawing call and adds only `out` |
| FeatureMode.Round | js/features.js:13 | `Math.round` gives the integer within half a unit of its argument, a half rounded up |
| FeatureMode.RoundUnique | js/features.js:13 | that integer is unique, so `Round` is the nearest integer |
| FeatureMode.Radius | js/features.js:14 | the radius is at least 2 and at least the rounded half-size, and it is one of the two |
| FeatureMode.CircleOf | js/features.js:13-15 | each circle is centred on the rounded keypoint, has the radius `Radius` gives, so max(2, round(size/2)), is green and is 2 pixels thick |
| FeatureMode.CirclesOnePerKeypoint | js/features.js:11-16 | the loop draws exactly one circle per keypoint, in index order, into `out` |
| FeatureMode.SetupLeavesFour | js/features.js:3-10 | before the loop, the gray image, the detector, the keypoints and the clone are live, and nothing else new |
| FeatureMode.FeatureModeReplay | js/features.js:2-20 | `featureMode` leaves exactly `out` live, for any number of keypoints |
| FeatureMode.FeatureModeLifetimes | js/features.js:2-20 | the frame is read by the conversion and the clone; gray, detector and keypoints are deleted; the keypoint vector is read once per keypoint; `out` is the clone carrying exactly the circles |
| FeatureMode.FeatureModeNoKeypoints | js/features.js:10-16 | with no keypoints, `out` is the bare clone |
| FeatureMode.FeatureMode | js/features.js:2-20 | the method's loop appends exactly the `featureMode` trace and adds only `out` |
| ArOverlay.KeptMeans | js/overlay.js:22 | the integer area test keeps a box exactly when its area is at least 0.002 of the frame's |
| ArOverlay.BoxSpansRect | js/overlay.js:26 | the rectangle runs from the box's top-left corner to its bottom-right one, in green, 3 pixels thick |
| ArOverlay.LabelAboveBox | js/overlay.js:27 | the label "Region" sits at the box's left edge, 6 pixels above it and never above row 10, at scale 0.6 |
| ArOverlay.AnnotationsPrefix | js/overlay.js:19-29 | one more contour adds exactly its own marks |
| ArOverlay.KeptBoxesFilter | js/overlay.js:19-29 | the drawn boxes are exactly the kept ones among the found ones, with multiplicity |
| ArOverlay.AnnotationsPairs | js/overlay.js:19-29 | every kept box gets a rectangle, then a label, in order, and nothing else is drawn |
| ArOverlay.ArOverlayReplay | js/overlay.js:2-33 | `arOverlayMode` leaves exactly `out` live; every other buffer, and every contour fetched, is deleted |
| ArOverlay.ArOverlayLifetimes | js/overlay.js:2-33 | what the mode does to each buffer: the frame is read twice; each intermediate is written, read where the source reads it, and deleted; the contours are read once each in order; each contour Mat is deleted on both paths; `out` carries exactly the kept annotations |
| ArOverlay.ArOverlayNoContours | js/overlay.js:15-19 | with no contours, `out` is the blended clone with nothing drawn |
| ArOverlay.NormalizeTo8U | js/overlay.js:6 | `normalizeTo8U` appends a one-step producer into a fresh handle |
| ArOverlay.ApplyJet | js/overlay.js:7 | `applyJet` appends a one-step producer into a fresh handle |
| ArOverlay.EdgeHeatMap | js/overlay.js:4-7 | the heat-map stage appends the gray conversion, Canny(50, 130), the normalisation and the colour map, on four fresh handles |
| ArOverlay.FindRegions | js/overlay.js:10-16 | the search stage appends the Otsu threshold, the contour search and the 0.6/0.5 blend of the heat map into a clone of the frame |
| ArOverlay.AnnotateContour | js/overlay.js:20-28 | one turn of the loop fetches the contour and measures it; it draws the box and label only if kept, and deletes the contour Mat either way |
| ArOverlay.AnnotateAll | js/overlay.js:19-29 | the loop appends one turn per contour, in index order |
| ArOverlay.Release | js/overlay.js:31 | the seven deletes, in source order |
| ArOverlay.ArOverlayMode | js/overlay.js:2-33 | the method appends exactly the `arOverlayMode` trace and adds only `out` |
| Ui.ParseMode | js/ui.js:59-81 | a recognised value selects the branch named by that value; every other value selects the default clone |
| Ui.ParseValue | js/ui.js:59-81 | each branch is reached by its own value, so no case shadows another |
| Ui.FrameUses | js/ui.js:59-81 | what each branch does to the frame is one or two reads, never a write or a delete |
| Ui.FeaturesReturnsOne | js/ui.js:64-68 | the features branch leaves only the drawing live; the keypoint vector is deleted |
| Ui.FeaturesLifeOfKeypoints | js/ui.js:65-67 | `kps` is written by the detector, read once by the drawing as argument 1, then deleted |
| Ui.ConvertKeepsLive | js/ui.js:69-72 | the in-place GRAY2RGBA conversion on a live result keeps the live set and updates the result |
| Ui.ArReturnsOne | js/ui.js:73-79 | the ar branch leaves only the blended clone live |
| Ui.ArLifetimes | js/ui.js:73-79 | `edges` is written by Canny, converted in place, read by the 0.7/0.7 blend and deleted; `outMat` is a fresh clone of the frame, blended in place; the frame is only read |
| Ui.CloneReturnsOne | js/ui.js:80 | the default branch adds exactly a fresh clone |
| Ui.BranchReturnsOne | js/ui.js:59-81 | every branch adds exactly `outMat`, a fresh handle distinct from the frame, and deletes everything else it allocates |
| Ui.BranchReadsFrame | js/ui.js:59-81 | no branch writes or deletes the frame; each only reads it, as `FrameUses` lists |
| Ui.FeaturesBranch | js/ui.js:64-68 | case `features` appends exactly its trace and adds only `outMat` |
| Ui.DepthBranch | js/ui.js:69-70 | case `depth` appends exactly its trace and adds only `outMat` |
| Ui.SegmentBranch | js/ui.js:71-72 | case `segment` appends exactly its trace and adds only `outMat` |
| Ui.ArBranch | js/ui.js:73-79 | case `ar` appends exactly its trace and adds only `outMat` |
| Ui.CloneBranch | js/ui.js:80 | the default case appends exactly its trace and adds only `outMat` |
| Ui.Branch | js/ui.js:59-81 | the `switch` appends exactly the trace of the selected branch, and `outMat` is fresh and the only buffer added |
| Ui.ReadFrame | js/ui.js:56 | `cv.imread` adds exactly the frame to the live set |
| Ui.ShowAndRelease | js/ui.js:83-85 | after `imshow`, deleting the frame and `outMat` restores the live set from before the frame |
| Ui.TickKeepsLive | js/ui.js:53-85 | a rendered tick leaves the live set exactly as it was, and no buffer it allocated survives |
| Ui.TickFrameLife | js/ui.js:56-85 | within a tick, the frame is allocated, filled by `imread`, only read by the branch, and deleted |
| Ui.QuietWindow | js/ui.js:42-50 | within a second of the window opening, each call only counts a frame; the window and the display stay as they were |
| Ui.WindowCloses | js/ui.js:42-50 | the first call a second or more after the window opened shows the number of frames counted in that window, itself included, and restarts the count at its own time |
| Ui.SavesWithoutClick | js/ui.js:88-92 | with no further click, a set flag gives exactly one save if some later tick renders and none otherwise; a clear flag gives none |
| Ui.SavesAtMostClicks | js/ui.js:88-92 | there are never more saves than clicks, plus one for a flag already set |
| Ui.FrameLoop.constructor | js/ui.js:42 | the loop starts with nothing counted, the window open at the start time, and no screenshot pending |
| Ui.FrameLoop.Click | js/ui.js:21-24 | a click sets the flag and touches nothing else |
| Ui.FrameLoop.UpdateFps | js/ui.js:43-50 | `updateFPS` steps the counter as `FpsStep` and keeps the flag |
| Ui.FrameLoop.Tick | js/ui.js:52-95 | with no OpenCV.js nothing is allocated, counted or consumed; otherwise the tick appends exactly `TickRun` for the selected branch, counts the frame and consumes the flag; the live set is unchanged either way |
| Ui.FrameLoop.Render | js/ui.js:54-92 | the rendered part of a tick appends `TickRun`, counts one frame, restores the live set and schedules a save exactly when the flag was set |

## Left out

- Pixel values of every `cv.*` call are not modelled. Each call is an opaque step that
  records the handles it reads and writes and the constants it is given. The
  `keypoints.size()` and `contours.size()` calls that bound the two loops
  (js/features.js:11, js/overlay.js:19) are not recorded as reads of those vectors; the
  vectors are live at each of them.
- The camera, the DOM and canvas sizing, `requestAnimationFrame` and `setTimeout` are
  left out, because they are I/O and platform scheduling. The page's startup, including
  `getUserMedia` and its failure alert, is left out too.
- `saveScreenshot` (`toDataURL` and the download link) is external I/O. A save is
  modelled only as the boolean `Tick` returns.
- `Overlay.drawRectOnCanvas` draws on the 2-D canvas context, not on a Mat, and the
  frame loop never calls it.
- `Tick` takes parameters for what the source reads from the environment:
  - `typeof cv` becomes `cvLoaded`;
  - `modeSel.value` becomes `selected`;
  - `performance.now()` becomes `now`, a real number of milliseconds.
- Floating-point constants are recorded as numbers and their arithmetic is not modelled:
  - blend weights are in hundredths, so 0.7 is 70;
  - the font scale 0.6 is 60;
  - `THRESH_BINARY + THRESH_OTSU` is the integer 8.
- ArOverlay.KeptMeans states the 0.002 area test as the exact integer comparison
  `500·w·h < rows·cols`. It does not model the floating-point product.
- ArOverlay.NormalizeTo8U, ArOverlay.ApplyJet: no source file defines `normalizeTo8U`
  or `applyJet`. `js/overlay.js` says they come from `js/modes.js`, but that file
  defines neither. So each is modelled as a producer that allocates one fresh Mat and
  writes it from its input.
- ArOverlay.AnnotateContour: the rectangles that `cv.boundingRect` returns are a
  parameter, `boxes`, because OpenCV computes them. The `RETR_EXTERNAL`,
  `CHAIN_APPROX_SIMPLE` and `FONT_HERSHEY_SIMPLEX` constants are also not recorded.
  `rows` and `cols` stand for `src.rows` and `src.cols` (js/overlay.js:22). In
  `AnnotateContour`, `AnnotateAll` and `ArOverlayMode` they are free parameters, not
  tied to the frame held by `src`.
- FeatureMode.FeatureMode: the keypoints ORB finds are a parameter, `detected`, for the
  same reason.
- ArOverlay.ArOverlayMode: the method returns after three helper methods, one per
  stage, plus the loop. Its lemmas are stated for any ascending choice of handles, and
  the method uses the sequential one `Layout` gives.
- Cv.Arena.Alloc, Cv.Arena.Delete, Cv.Arena.Invoke: they record what they are asked to
  do. Misuse is not an error at the call; it shows as a log that no longer replays, and
  every caller proves that its log does replay.
- Ui.TickKeepsLive, Ui.FrameLoop.Render, Ui.FrameLoop.Tick: the model has every
  `cv.*` call and every mode return normally. In the source a throwing call leaks the
  frame, `outMat` and the branch's intermediates, because there is no `try`/`finally`.
  It also ends the loop, because `requestAnimationFrame` (js/ui.js:94) is never
  reached. One trigger is `cvtColor` rejecting the empty Mat that `cv.imread` gives
  while `video.videoWidth` is still 0. That path is not modelled, so these contracts
  hold only for ticks on which no call throws.
- Handles are handed out in order from a counter. OpenCV.js heap addresses, which may be
  reused after a delete, are not modelled.
- `featureMode` and `arOverlayMode` are modelled as standalone methods, because
  `processFrame` never calls them.
