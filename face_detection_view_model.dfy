/** The face-detection screen: a view model that holds the screen's UI state and the
    latest view dimensions, turns each incoming UI event into a state update, and
    emits one-shot events (a toast, a capture trigger, a navigation result). */
module FaceDetection {
  import opened Model
  import DetectFacePosition
  import FaceOvalOverlay

  /** The camera in use. */
  datatype CameraSelector = Front | Back

  /** The screen's UI state record; `InitialUiState` gives its defaults. */
  datatype FaceDetectionUiState = FaceDetectionUiState(
    isLoading: bool,
    isCameraReady: bool,
    faceDetectionResult: Option<FaceDetectionResult>,
    ovalColor: OvalColor,
    cameraSelector: CameraSelector,
    capturedImageBitmap: Option<Bitmap>,
    showPreviewDialog: bool,
    errorMessage: Option<string>)

  /** Events the screen sends to the view model. */
  datatype FaceDetectionUiEvents =
    | OnCameraReady
    | OnCameraError(error: string)
    | OnFaceDetected(faceBoundingBox: Rect, imageWidth: Int32, imageHeight: Int32)
    | OnNoFaceDetected
    | OnViewDimensionsChanged(viewWidth: Int32, viewHeight: Int32, ovalBounds: RectF)
    | OnRetryCamera
    | OnCapturePhoto
    | OnFlipCamera
    | OnConfirmPhoto
    | OnRetakePhoto
    | OnPhotoTaken(bitmap: Bitmap, rotation: real)

  /** One-shot events the view model sends back to the screen. */
  datatype FaceDetectionUiEvent =
    | ShowToast(message: string)
    | TriggerPhotoCapture
    | NavigateBackWithResult(bitmap: Bitmap)

  /** The rotation and mirroring applied to a captured photo before it is shown. */
  datatype PhotoMatrix = PhotoMatrix(rotationDegrees: real, mirrorHorizontally: bool)

  const PositionFaceMessage: string := "Please position your face inside the oval"

  function InitialUiState(): (s: FaceDetectionUiState)
    ensures s.isLoading && !s.isCameraReady && s.faceDetectionResult.None?
    ensures s.ovalColor == OvalNeutral && s.cameraSelector == Front
    ensures s.capturedImageBitmap.None? && !s.showPreviewDialog && s.errorMessage.None?
  {
    FaceDetectionUiState(true, false, None, OvalNeutral, Front, None, false, None)
  }

  /** The other camera; flipping twice gives back the first. */
  function Flipped(selector: CameraSelector): (r: CameraSelector)
    ensures r != selector
  {
    if selector == Front then Back else Front
  }

  lemma FlipTwiceRestores(selector: CameraSelector)
    ensures Flipped(Flipped(selector)) == selector
  {
  }

  /** The oval colour shown for a fresh detection result. */
  function ColorFor(result: FaceDetectionResult): (c: OvalColor)
    ensures c == OvalSuccess <==> result.isInsideOval
    ensures c != OvalNeutral
  {
    if result.isInsideOval then OvalSuccess else OvalError
  }

  /** The oval only turns green or red on a stored result that agrees with the colour. */
  predicate ColorMatchesResult(s: FaceDetectionUiState) {
    (s.ovalColor == OvalSuccess ==> s.faceDetectionResult.Some? && s.faceDetectionResult.value.isInsideOval) &&
    (s.ovalColor == OvalError ==> s.faceDetectionResult.Some? && !s.faceDetectionResult.value.isInsideOval)
  }

  /** Whether a capture request is honoured: a result is stored and it is inside the oval. */
  predicate CaptureAllowed(s: FaceDetectionUiState) {
    s.faceDetectionResult.Some? && s.faceDetectionResult.value.isInsideOval
  }

  /** A green oval always means capture is allowed; a red one means it is refused. */
  lemma OvalColorPredictsCapture(s: FaceDetectionUiState)
    requires ColorMatchesResult(s)
    ensures s.ovalColor == OvalSuccess ==> CaptureAllowed(s)
    ensures s.ovalColor == OvalError ==> !CaptureAllowed(s)
  {
  }

  /** The matrix for a captured photo: rotate by the sensor rotation, and mirror
      horizontally when it came from the front camera. */
  function CaptureMatrix(rotation: real, selector: CameraSelector): (m: PhotoMatrix)
    ensures m.rotationDegrees == rotation
    ensures m.mirrorHorizontally <==> selector == Front
  {
    PhotoMatrix(rotation, selector == Front)
  }

  /** The response to a capture request. */
  function CaptureResponse(s: FaceDetectionUiState): (e: FaceDetectionUiEvent)
    ensures e == TriggerPhotoCapture <==> CaptureAllowed(s)
    ensures e != TriggerPhotoCapture ==> e == ShowToast(PositionFaceMessage)
  {
    if CaptureAllowed(s) then TriggerPhotoCapture
    else ShowToast(PositionFaceMessage)
  }

  /** What a face-detected event needs for the alignment arithmetic to be defined once
      the view is laid out: a real frame and an oval of positive size. Before the first
      layout the event is dropped without reading the frame size, so nothing is needed. */
  predicate DetectionDefined(dimensions: Option<ViewDimensions>, imageWidth: Int32, imageHeight: Int32) {
    dimensions.Some? ==> imageWidth > 0 && imageHeight > 0 && Nondegenerate(dimensions.value.ovalBounds)
  }

  class FaceDetectionViewModel {
    var uiState: FaceDetectionUiState
    var viewDimensions: Option<ViewDimensions>
    /** Every one-shot event emitted so far, oldest first. */
    var emitted: seq<FaceDetectionUiEvent>

    ghost predicate Valid()
      reads this
    {
      ColorMatchesResult(uiState)
    }

    constructor ()
      ensures Valid()
      ensures uiState == InitialUiState() && viewDimensions == None && emitted == []
    {
      uiState := InitialUiState();
      viewDimensions := None;
      emitted := [];
    }

    method HandleRetryCamera()
      requires Valid()
      modifies this
      ensures Valid()
      ensures uiState == old(uiState).(isLoading := true, errorMessage := None)
      ensures viewDimensions == old(viewDimensions) && emitted == old(emitted)
    {
      uiState := uiState.(isLoading := true, errorMessage := None);
    }

    method HandleViewDimensionsChanged(viewWidth: Int32, viewHeight: Int32, ovalBounds: RectF)
      requires Valid()
      modifies this
      ensures Valid()
      ensures viewDimensions == Some(ViewDimensions(viewWidth, viewHeight, ovalBounds))
      ensures uiState == old(uiState) && emitted == old(emitted)
    {
      viewDimensions := Some(ViewDimensions(viewWidth, viewHeight, ovalBounds));
    }

    method HandleNoFaceDetected()
      requires Valid()
      modifies this
      ensures Valid()
      ensures uiState == old(uiState).(faceDetectionResult := None, ovalColor := OvalNeutral)
      ensures viewDimensions == old(viewDimensions) && emitted == old(emitted)
    {
      uiState := uiState.(faceDetectionResult := None, ovalColor := OvalNeutral);
    }

    /** Before the first layout the event is dropped; afterwards the use case runs on
        the latest dimensions and the oval colour follows its verdict. */
    method HandleFaceDetected(faceBoundingBox: Rect, imageWidth: Int32, imageHeight: Int32)
      requires Valid()
      requires DetectionDefined(viewDimensions, imageWidth, imageHeight)
      modifies this
      ensures Valid()
      ensures viewDimensions == old(viewDimensions) && emitted == old(emitted)
      ensures old(viewDimensions).None? ==> uiState == old(uiState)
      ensures old(viewDimensions).Some? ==>
        var d := old(viewDimensions).value;
        var result := DetectFacePosition.Invoke(faceBoundingBox, d.ovalBounds, imageWidth, imageHeight,
                                                d.viewWidth, d.viewHeight);
        uiState == old(uiState).(faceDetectionResult := Some(result), ovalColor := ColorFor(result))
    {
      if viewDimensions.None? {
        return;
      }
      var dimensions := viewDimensions.value;
      var result := DetectFacePosition.Invoke(faceBoundingBox, dimensions.ovalBounds, imageWidth, imageHeight,
                                              dimensions.viewWidth, dimensions.viewHeight);
      uiState := uiState.(faceDetectionResult := Some(result), ovalColor := ColorFor(result));
    }

    method HandleCameraError(error: string)
      requires Valid()
      modifies this
      ensures Valid()
      ensures uiState == old(uiState).(isLoading := false, isCameraReady := false, errorMessage := Some(error))
      ensures viewDimensions == old(viewDimensions) && emitted == old(emitted)
    {
      uiState := uiState.(isLoading := false, isCameraReady := false, errorMessage := Some(error));
    }

    method HandleCameraReady()
      requires Valid()
      modifies this
      ensures Valid()
      ensures uiState == old(uiState).(isLoading := false, isCameraReady := true, errorMessage := None)
      ensures viewDimensions == old(viewDimensions) && emitted == old(emitted)
    {
      uiState := uiState.(isLoading := false, isCameraReady := true, errorMessage := None);
    }

    /** Never changes the state; emits the capture trigger only for a stored result
        that is inside the oval, and the hint toast otherwise. */
    method HandleCapturePhoto()
      requires Valid()
      modifies this
      ensures Valid()
      ensures uiState == old(uiState) && viewDimensions == old(viewDimensions)
      ensures emitted == old(emitted) + [CaptureResponse(old(uiState))]
      ensures emitted[|emitted| - 1] == TriggerPhotoCapture <==> CaptureAllowed(old(uiState))
    {
      emitted := emitted + [CaptureResponse(uiState)];
    }

    /** Stores the processed photo and opens the preview; `createBitmap` stands for the
        platform's bitmap transformation under the given matrix. */
    method OnPhotoTaken(bitmap: Bitmap, rotation: real, createBitmap: (Bitmap, PhotoMatrix) -> Bitmap)
      requires Valid()
      modifies this
      ensures Valid()
      ensures uiState == old(uiState).(
        capturedImageBitmap := Some(createBitmap(bitmap, CaptureMatrix(rotation, old(uiState).cameraSelector))),
        showPreviewDialog := true)
      ensures viewDimensions == old(viewDimensions) && emitted == old(emitted)
    {
      var matrix := CaptureMatrix(rotation, uiState.cameraSelector);
      var newBitmap := createBitmap(bitmap, matrix);
      uiState := uiState.(capturedImageBitmap := Some(newBitmap), showPreviewDialog := true);
    }

    method HandleFlipCamera()
      requires Valid()
      modifies this
      ensures Valid()
      ensures uiState == old(uiState).(cameraSelector := Flipped(old(uiState).cameraSelector),
                                       ovalColor := OvalNeutral, faceDetectionResult := None)
      ensures viewDimensions == old(viewDimensions) && emitted == old(emitted)
    {
      uiState := uiState.(cameraSelector := Flipped(uiState.cameraSelector), ovalColor := OvalNeutral, faceDetectionResult := None);
    }

    /** Hands the captured photo back to the caller, if there is one. */
    method HandleConfirmPhoto()
      requires Valid()
      modifies this
      ensures Valid()
      ensures uiState == old(uiState) && viewDimensions == old(viewDimensions)
      ensures old(uiState).capturedImageBitmap.None? ==> emitted == old(emitted)
      ensures old(uiState).capturedImageBitmap.Some? ==>
        emitted == old(emitted) + [NavigateBackWithResult(old(uiState).capturedImageBitmap.value)]
    {
      if uiState.capturedImageBitmap.None? {
        return;
      }
      var bitmap := uiState.capturedImageBitmap.value;
      emitted := emitted + [NavigateBackWithResult(bitmap)];
    }

    /** Discards the photo and closes the preview; the stored detection result stays. */
    method HandleRetakePhoto()
      requires Valid()
      modifies this
      ensures Valid()
      ensures uiState == old(uiState).(capturedImageBitmap := None, showPreviewDialog := false,
                                       ovalColor := OvalNeutral)
      ensures viewDimensions == old(viewDimensions) && emitted == old(emitted)
    {
      uiState := uiState.(capturedImageBitmap := None, showPreviewDialog := false, ovalColor := OvalNeutral);
    }

    /** Dispatches one event to its handler and passes on that handler's update; every
        event keeps the colour invariant. */
    method OnEvent(event: FaceDetectionUiEvents, createBitmap: (Bitmap, PhotoMatrix) -> Bitmap)
      requires Valid()
      requires event.OnFaceDetected? ==> DetectionDefined(viewDimensions, event.imageWidth, event.imageHeight)
      modifies this
      ensures Valid()
      ensures !event.OnViewDimensionsChanged? ==> viewDimensions == old(viewDimensions)
      ensures !(event.OnCapturePhoto? || event.OnConfirmPhoto?) ==> emitted == old(emitted)
      ensures event.OnCameraReady? ==>
        uiState == old(uiState).(isLoading := false, isCameraReady := true, errorMessage := None)
      ensures event.OnCameraError? ==>
        uiState == old(uiState).(isLoading := false, isCameraReady := false, errorMessage := Some(event.error))
      ensures event.OnFaceDetected? && old(viewDimensions).None? ==> uiState == old(uiState)
      ensures event.OnFaceDetected? && old(viewDimensions).Some? ==>
        var d := old(viewDimensions).value;
        var result := DetectFacePosition.Invoke(event.faceBoundingBox, d.ovalBounds, event.imageWidth,
                                                event.imageHeight, d.viewWidth, d.viewHeight);
        uiState == old(uiState).(faceDetectionResult := Some(result), ovalColor := ColorFor(result))
      ensures event.OnNoFaceDetected? ==>
        uiState == old(uiState).(faceDetectionResult := None, ovalColor := OvalNeutral)
      ensures event.OnViewDimensionsChanged? ==>
        viewDimensions == Some(ViewDimensions(event.viewWidth, event.viewHeight, event.ovalBounds)) &&
        uiState == old(uiState)
      ensures event.OnRetryCamera? ==> uiState == old(uiState).(isLoading := true, errorMessage := None)
      ensures event.OnCapturePhoto? ==>
        uiState == old(uiState) && emitted == old(emitted) + [CaptureResponse(old(uiState))]
      ensures event.OnFlipCamera? ==>
        uiState == old(uiState).(cameraSelector := Flipped(old(uiState).cameraSelector),
                                 ovalColor := OvalNeutral, faceDetectionResult := None)
      ensures event.OnConfirmPhoto? ==> uiState == old(uiState)
      ensures event.OnConfirmPhoto? && old(uiState).capturedImageBitmap.None? ==> emitted == old(emitted)
      ensures event.OnConfirmPhoto? && old(uiState).capturedImageBitmap.Some? ==>
        emitted == old(emitted) + [NavigateBackWithResult(old(uiState).capturedImageBitmap.value)]
      ensures event.OnRetakePhoto? ==>
        uiState == old(uiState).(capturedImageBitmap := None, showPreviewDialog := false, ovalColor := OvalNeutral)
      ensures event.OnPhotoTaken? ==>
        uiState == old(uiState).(
          capturedImageBitmap := Some(createBitmap(event.bitmap, CaptureMatrix(event.rotation, old(uiState).cameraSelector))),
          showPreviewDialog := true)
    {
      match event
      case OnCameraReady => HandleCameraReady();
      case OnCameraError(error) => HandleCameraError(error);
      case OnFaceDetected(box, imageWidth, imageHeight) => HandleFaceDetected(box, imageWidth, imageHeight);
      case OnNoFaceDetected => HandleNoFaceDetected();
      case OnViewDimensionsChanged(viewWidth, viewHeight, ovalBounds) =>
        HandleViewDimensionsChanged(viewWidth, viewHeight, ovalBounds);
      case OnRetryCamera => HandleRetryCamera();
      case OnCapturePhoto => HandleCapturePhoto();
      case OnFlipCamera => HandleFlipCamera();
      case OnConfirmPhoto => HandleConfirmPhoto();
      case OnRetakePhoto => HandleRetakePhoto();
      case OnPhotoTaken(bitmap, rotation) => OnPhotoTaken(bitmap, rotation, createBitmap);
    }
  }

  /** The layout-then-detect flow through the entry point: after the overlay reports a
      1080x1920 view, a face centred in it on a frame of the same size turns the oval
      green, and a capture request then triggers the camera. */
  method AlignedFaceAfterLayoutTriggersCapture() returns (events: seq<FaceDetectionUiEvent>, color: OvalColor)
    ensures events == [TriggerPhotoCapture]
    ensures color == OvalSuccess
  {
    var viewModel := new FaceDetectionViewModel();
    var keep := (bitmap: Bitmap, matrix: PhotoMatrix) => bitmap;
    var layout := FaceOvalOverlay.OnSizeChanged(1080, 1920);
    viewModel.OnEvent(OnViewDimensionsChanged(layout.viewWidth, layout.viewHeight, layout.ovalBounds), keep);
    var face := Rect(440, 860, 640, 1060);
    DetectFacePosition.TransformIdentity(face, 1080, 1920);
    FaceOvalOverlay.FaceCentredInViewIsAligned(1080, 1920, face);
    viewModel.OnEvent(OnFaceDetected(face, 1080, 1920), keep);
    viewModel.OnEvent(OnCapturePhoto, keep);
    events := viewModel.emitted;
    color := viewModel.uiState.ovalColor;
  }
}
