/** The main screen: a view model holding the photo handed back by the
    face-detection screen, if any. */
module MainScreen {
  import opened Model

  datatype MainScreenUiState = MainScreenUiState(capturedImageBitmap: Option<Bitmap>, isLoading: bool)

  datatype MainScreenEvent = OnImageCaptured(bitmap: Bitmap) | OnDeleteImage

  function InitialMainState(): (s: MainScreenUiState)
    ensures s.capturedImageBitmap.None? && !s.isLoading
  {
    MainScreenUiState(None, false)
  }

  /** The state update of a captured image: only the image changes. */
  function WithImage(s: MainScreenUiState, bitmap: Bitmap): (r: MainScreenUiState)
    ensures r.capturedImageBitmap == Some(bitmap) && r.isLoading == s.isLoading
  {
    s.(capturedImageBitmap := Some(bitmap))
  }

  /** The state update of a deletion: only the image changes. */
  function WithoutImage(s: MainScreenUiState): (r: MainScreenUiState)
    ensures r.capturedImageBitmap.None? && r.isLoading == s.isLoading
  {
    s.(capturedImageBitmap := None)
  }

  /** Deleting twice is deleting once, and a capture followed by a delete leaves
      what a delete alone leaves. */
  lemma DeleteForgetsCapture(s: MainScreenUiState, bitmap: Bitmap)
    ensures WithoutImage(WithoutImage(s)) == WithoutImage(s)
    ensures WithoutImage(WithImage(s, bitmap)) == WithoutImage(s)
  {
  }

  class MainViewModel {
    var uiState: MainScreenUiState

    constructor ()
      ensures uiState == InitialMainState()
    {
      uiState := InitialMainState();
    }

    method HandleImageCaptured(bitmap: Bitmap)
      modifies this
      ensures uiState == WithImage(old(uiState), bitmap)
    {
      uiState := WithImage(uiState, bitmap);
    }

    method HandleDeleteImage()
      modifies this
      ensures uiState == WithoutImage(old(uiState))
    {
      uiState := WithoutImage(uiState);
    }

    method OnEvent(event: MainScreenEvent)
      modifies this
      ensures uiState.isLoading == old(uiState).isLoading
      ensures event.OnImageCaptured? ==> uiState == WithImage(old(uiState), event.bitmap)
      ensures event.OnDeleteImage? ==> uiState == WithoutImage(old(uiState))
    {
      match event
      case OnImageCaptured(bitmap) => HandleImageCaptured(bitmap);
      case OnDeleteImage => HandleDeleteImage();
    }
  }
}
