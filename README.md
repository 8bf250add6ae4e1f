# Face alignment for a guided selfie camera, in Dafny

This project models the decision core of an Android camera screen that guides the
user to put their face inside an on-screen oval and only lets them take the photo
once the face is centred. It covers:

- the alignment use case (`DetectFacePosition`, in `detect_face_position.dfy`): the
  face box reported by the detector is mapped from camera-image pixels to view pixels,
  each axis by its own factor `view / image`, each edge truncated back to an `Int`;
  then the exact centre of that box is tested against the guide ellipse with the
  normalised value `((cx-ox)/rx)^2 + ((cy-oy)/ry)^2 <= 0.9`;
- the oval layout (`FaceOvalOverlay`): on every resize the overlay centres an oval
  `0.6 * min(width, height)` wide and `0.8 * min(width, height)` tall and reports it
  together with the view size;
- the face-detection screen's view model (`FaceDetection.FaceDetectionViewModel`): a
  class whose fields are the UI-state record, the nullable latest view dimensions and
  the sequence of one-shot events emitted so far; one method per incoming event;
- the main screen's view model (`MainScreen.MainViewModel`), which keeps or drops the
  photo handed back by the camera screen.

`model.dfy` holds the shared records: Android's `Rect` (integer edges) and `RectF`
(real edges), the `FaceDetectionResult` and `ViewDimensions` records, the oval-colour
tags, an opaque `Bitmap`, Kotlin's 32-bit `Int` and its `Float.toInt()`, modelled as
truncation toward zero that saturates at the bounds of `Int`. Coordinates are reals.

The invariant the screen keeps (`FaceDetectionViewModel.Valid`, built on
`ColorMatchesResult`): a green oval means a detection result is stored and it is inside;
a red oval means a result is stored and it is outside. Retaking a photo may leave a
result under a neutral oval, which the invariant allows.

The confidence is always the constant 1.0; the detector's score is not passed on.
Nothing checks that the stored view or oval size is positive, so once the view is laid
out the face-detected handler requires a positive frame and oval size. The code never
enforces `left <= right` on a box, so the transform lemmas assume it only where they
need it.

## Model

| member | source | states |
|---|---|---|
| Model.Truncate | app/src/main/java/com/bhaskar/facedetector/domin/usecase/DetectFacePositionUseCase.kt:53-56 | the result is the real with its fraction dropped toward zero: between 0 and x, less than one away |
| Model.ToInt | app/src/main/java/com/bhaskar/facedetector/domin/usecase/DetectFacePositionUseCase.kt:53-56 | Kotlin's conversion: toward zero, within one of x, saturating at the bounds of Int |
| Model.ToIntInRange | app/src/main/java/com/bhaskar/facedetector/domin/usecase/DetectFacePositionUseCase.kt:53-56 | inside the range of Int the conversion is exactly truncation toward zero |
| Model.ToIntMonotone | app/src/main/java/com/bhaskar/facedetector/domin/usecase/DetectFacePositionUseCase.kt:53-56 | the conversion never reverses the order of two values |
| Model.ToIntOfInt32 | app/src/main/java/com/bhaskar/facedetector/domin/usecase/DetectFacePositionUseCase.kt:53-56 | a value that already is an Int converts to itself |
| DetectFacePosition.ScaleFactor | app/src/main/java/com/bhaskar/facedetector/domin/usecase/DetectFacePositionUseCase.kt:49-50 | the per-axis factor times the image size gives the view size; it is non-negative for a non-negative view |
| DetectFacePosition.ScaledEdge | app/src/main/java/com/bhaskar/facedetector/domin/usecase/DetectFacePositionUseCase.kt:53-56 | the exact scaled edge times the image size equals the edge times the view size |
| DetectFacePosition.TransformBoundingBox | app/src/main/java/com/bhaskar/facedetector/domin/usecase/DetectFacePositionUseCase.kt:49-57 | each edge is its exact scaled value truncated toward zero, on its own axis: left/right the edge times viewWidth/imageWidth, top/bottom the edge times viewHeight/imageHeight (within the range of Int) |
| DetectFacePosition.TransformAxesIndependent | app/src/main/java/com/bhaskar/facedetector/domin/usecase/DetectFacePositionUseCase.kt:49-57 | the X edges depend only on the widths and the Y edges only on the heights |
| DetectFacePosition.TransformIdentity | app/src/main/java/com/bhaskar/facedetector/domin/usecase/DetectFacePositionUseCase.kt:49-57 | with view size equal to image size the transform returns the box unchanged |
| DetectFacePosition.TransformPreservesEdgeOrder | app/src/main/java/com/bhaskar/facedetector/domin/usecase/DetectFacePositionUseCase.kt:49-57 | with non-negative view sizes, left <= right and top <= bottom survive the transform |
| DetectFacePosition.TransformScalesLinearly | app/src/main/java/com/bhaskar/facedetector/domin/usecase/DetectFacePositionUseCase.kt:49-57 | doubling the view width doubles the left and right edges, within one pixel of truncation |
| DetectFacePosition.NormalizedEllipseValue | app/src/main/java/com/bhaskar/facedetector/domin/usecase/DetectFacePositionUseCase.kt:66-75 | the normalised ellipse value is never negative |
| DetectFacePosition.CheckIfFaceInOval | app/src/main/java/com/bhaskar/facedetector/domin/usecase/DetectFacePositionUseCase.kt:66-77 | inside exactly when the normalised value is at most 0.9, so an inside face is strictly within the drawn ellipse (value below 1) |
| DetectFacePosition.CentredFaceIsInside | app/src/main/java/com/bhaskar/facedetector/domin/usecase/DetectFacePositionUseCase.kt:66-77 | a face whose exact centre is the oval's centre is inside, for any positive radii |
| DetectFacePosition.CentreOutsideOvalRectIsOutside | app/src/main/java/com/bhaskar/facedetector/domin/usecase/DetectFacePositionUseCase.kt:66-77 | a face whose centre lies outside the oval's bounding rectangle is not inside |
| DetectFacePosition.TranslationPreservesVerdict | app/src/main/java/com/bhaskar/facedetector/domin/usecase/DetectFacePositionUseCase.kt:66-77 | moving the face box and the oval by the same offset keeps the verdict |
| DetectFacePosition.ThresholdIsClosed | app/src/main/java/com/bhaskar/facedetector/domin/usecase/DetectFacePositionUseCase.kt:75-77 | a centre whose normalised value is exactly 0.9 counts as inside |
| DetectFacePosition.BeyondThresholdIsOutside | app/src/main/java/com/bhaskar/facedetector/domin/usecase/DetectFacePositionUseCase.kt:75-77 | a centre whose value is 0.9025, just past the threshold, is outside |
| DetectFacePosition.Invoke | app/src/main/java/com/bhaskar/facedetector/domin/usecase/DetectFacePositionUseCase.kt:10-36 | the result carries the transformed box, the verdict on that box and confidence 1.0; an inside verdict puts the box's centre within the oval's rectangle |
| DetectFacePosition.WorkedExampleIsAligned | app/src/main/java/com/bhaskar/facedetector/domin/usecase/DetectFacePositionUseCase.kt:10-36 | a 100..200 box in a 640x480 frame on a 1080x1920 view becomes (168,400,337,800) and is inside an oval at (200,300,700,1200) |
| FaceOvalOverlay.MinDimension | app/src/main/java/com/bhaskar/facedetector/presentation/faceDetection/ui_components/FaceOvalOverlay.kt:22 | the smaller of the two view sides |
| FaceOvalOverlay.OnSizeChanged | app/src/main/java/com/bhaskar/facedetector/presentation/faceDetection/ui_components/FaceOvalOverlay.kt:21-37 | the view size is passed on unchanged; the oval is centred at (width/2, height/2), 0.6 min wide and 0.8 min tall, lies within the view for non-negative sizes and has positive half-axes for positive sizes |
| FaceOvalOverlay.FaceCentredInViewIsAligned | app/src/main/java/com/bhaskar/facedetector/presentation/faceDetection/ui_components/FaceOvalOverlay.kt:24-35 | in a non-empty view the laid-out oval meets the containment test's precondition and a face centred in the view is inside it |
| FaceDetection.InitialUiState | app/src/main/java/com/bhaskar/facedetector/presentation/faceDetection/components/FaceDetectionUiState.kt:9-16 | loading, camera not ready, no result, neutral oval, front camera, no photo, no dialog, no error |
| FaceDetection.Flipped | app/src/main/java/com/bhaskar/facedetector/presentation/faceDetection/FaceDetectionViewModel.kt:171-177 | the other camera selector |
| FaceDetection.FlipTwiceRestores | app/src/main/java/com/bhaskar/facedetector/presentation/faceDetection/FaceDetectionViewModel.kt:171-177 | flipping twice gives back the original selector |
| FaceDetection.ColorFor | app/src/main/java/com/bhaskar/facedetector/presentation/faceDetection/FaceDetectionViewModel.kt:95-98 | success exactly when the result is inside, otherwise error; never neutral |
| FaceDetection.OvalColorPredictsCapture | app/src/main/java/com/bhaskar/facedetector/presentation/faceDetection/FaceDetectionViewModel.kt:92-137 | under the colour invariant a green oval means capture is allowed and a red one that it is refused |
| FaceDetection.CaptureMatrix | app/src/main/java/com/bhaskar/facedetector/presentation/faceDetection/FaceDetectionViewModel.kt:144-150 | rotate by the photo's rotation; mirror exactly when the front camera is in use |
| FaceDetection.CaptureResponse | app/src/main/java/com/bhaskar/facedetector/presentation/faceDetection/FaceDetectionViewModel.kt:123-137 | the capture trigger exactly when a stored result is inside, otherwise the hint toast |
| FaceDetection.FaceDetectionViewModel.constructor | app/src/main/java/com/bhaskar/facedetector/presentation/faceDetection/FaceDetectionViewModel.kt:29-35 | default UI state, no view dimensions, no events emitted |
| FaceDetection.FaceDetectionViewModel.HandleRetryCamera | app/src/main/java/com/bhaskar/facedetector/presentation/faceDetection/FaceDetectionViewModel.kt:54-61 | loading set, error cleared, camera-ready flag and everything else unchanged |
| FaceDetection.FaceDetectionViewModel.HandleViewDimensionsChanged | app/src/main/java/com/bhaskar/facedetector/presentation/faceDetection/FaceDetectionViewModel.kt:63-69 | only the stored view dimensions are replaced |
| FaceDetection.FaceDetectionViewModel.HandleNoFaceDetected | app/src/main/java/com/bhaskar/facedetector/presentation/faceDetection/FaceDetectionViewModel.kt:71-78 | the result is cleared and the oval turns neutral whatever the prior state; nothing else changes |
| FaceDetection.FaceDetectionViewModel.HandleFaceDetected | app/src/main/java/com/bhaskar/facedetector/presentation/faceDetection/FaceDetectionViewModel.kt:80-101 | before any layout nothing changes; afterwards the use-case result on the latest dimensions is stored and the oval colour follows its verdict; the invariant is kept |
| FaceDetection.FaceDetectionViewModel.HandleCameraError | app/src/main/java/com/bhaskar/facedetector/presentation/faceDetection/FaceDetectionViewModel.kt:103-111 | not loading, not ready, the error message stored |
| FaceDetection.FaceDetectionViewModel.HandleCameraReady | app/src/main/java/com/bhaskar/facedetector/presentation/faceDetection/FaceDetectionViewModel.kt:113-121 | not loading, ready, no error |
| FaceDetection.FaceDetectionViewModel.HandleCapturePhoto | app/src/main/java/com/bhaskar/facedetector/presentation/faceDetection/FaceDetectionViewModel.kt:123-137 | the state is unchanged and one event is emitted: the capture trigger exactly when a stored result is inside, otherwise the hint toast |
| FaceDetection.FaceDetectionViewModel.OnPhotoTaken | app/src/main/java/com/bhaskar/facedetector/presentation/faceDetection/FaceDetectionViewModel.kt:139-169 | the processed photo is stored and the preview dialog shown; nothing else changes |
| FaceDetection.FaceDetectionViewModel.HandleFlipCamera | app/src/main/java/com/bhaskar/facedetector/presentation/faceDetection/FaceDetectionViewModel.kt:171-186 | the camera selector toggles, the result is cleared and the oval turns neutral |
| FaceDetection.FaceDetectionViewModel.HandleConfirmPhoto | app/src/main/java/com/bhaskar/facedetector/presentation/faceDetection/FaceDetectionViewModel.kt:188-194 | emits the navigation result with the photo only when a photo is held; the state never changes |
| FaceDetection.FaceDetectionViewModel.HandleRetakePhoto | app/src/main/java/com/bhaskar/facedetector/presentation/faceDetection/FaceDetectionViewModel.kt:196-204 | the photo is dropped, the dialog hidden and the oval neutral; the stored result is kept |
| FaceDetection.FaceDetectionViewModel.OnEvent | app/src/main/java/com/bhaskar/facedetector/presentation/faceDetection/FaceDetectionViewModel.kt:38-52 | each event makes exactly the update of its handler (layout stores the dimensions, a face stores the use-case result and its colour, capture and confirm emit their event, and so on); every event keeps the colour invariant; only a layout event touches the dimensions and only capture and confirm emit |
| FaceDetection.AlignedFaceAfterLayoutTriggersCapture | app/src/main/java/com/bhaskar/facedetector/presentation/faceDetection/FaceDetectionViewModel.kt:38-137 | through the entry point, a layout of 1080x1920, a face centred in it and a capture request turn the oval green and emit exactly the capture trigger |
| MainScreen.InitialMainState | app/src/main/java/com/bhaskar/facedetector/presentation/main/components/MainScreenUiState.kt:5-8 | no photo and not loading |
| MainScreen.WithImage | app/src/main/java/com/bhaskar/facedetector/presentation/main/MainViewModel.kt:24-26 | the photo is set and the loading flag kept |
| MainScreen.WithoutImage | app/src/main/java/com/bhaskar/facedetector/presentation/main/MainViewModel.kt:28-30 | the photo is cleared and the loading flag kept |
| MainScreen.DeleteForgetsCapture | app/src/main/java/com/bhaskar/facedetector/presentation/main/MainViewModel.kt:24-30 | deleting is idempotent, and capture followed by delete equals delete alone |
| MainScreen.MainViewModel.constructor | app/src/main/java/com/bhaskar/facedetector/presentation/main/MainViewModel.kt:14 | the initial state |
| MainScreen.MainViewModel.HandleImageCaptured | app/src/main/java/com/bhaskar/facedetector/presentation/main/MainViewModel.kt:24-26 | the state becomes the old state with the captured photo |
| MainScreen.MainViewModel.HandleDeleteImage | app/src/main/java/com/bhaskar/facedetector/presentation/main/MainViewModel.kt:28-30 | the state becomes the old state without a photo |
| MainScreen.MainViewModel.OnEvent | app/src/main/java/com/bhaskar/facedetector/presentation/main/MainViewModel.kt:17-22 | dispatches to the two handlers; neither changes the loading flag |

## Left out

- Float and Double rounding: coordinates are exact reals, so `toFloat`, the float
  division, `pow(2.0)` and the widening to Double are not modelled, and neither are
  NaN or infinity. A zero image size or a zero-width oval, which would make Kotlin
  divide by zero, is excluded by preconditions instead (`DetectionDefined`).
- `Rect.exactCenterX`/`exactCenterY` add two `Int` edges before halving; a sum beyond
  the range of `Int` would wrap in the platform, and the model adds exactly.
- Camera and ML Kit plumbing: CameraX binding, the analyser, and the detector call in
  `processFaceDetection.kt` (which passes on the first face or reports none) are I/O
  and foreign calls; the model receives their outcome as `OnFaceDetected` or
  `OnNoFaceDetected` events.
- Compose UI, navigation and permissions, including the drawing half of the overlay.
- FaceDetection.FaceDetectionViewModel.OnPhotoTaken: the rotation/mirroring of the bitmap is
  a platform call, passed in as the `createBitmap` parameter over a `PhotoMatrix`
  record; the work runs on an I/O dispatcher in the app, so there the camera selector is
  read and the state written later, while the model applies the update at once.
- Coroutine delivery: `MutableSharedFlow` emission from `viewModelScope.launch` is
  modelled as appending to the `emitted` sequence in call order; suspension, buffering
  and subscriber timing are not modelled.
- The ARGB values of the oval colours are presentation only; the model keeps the tags.
