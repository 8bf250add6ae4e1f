/** Layout of the guide oval: whenever the overlay is resized it derives the oval's
    bounding rectangle from the view size and reports both to the screen. */
module FaceOvalOverlay {
  import opened Model
  import DetectFacePosition

  /** Fractions of the smaller view side taken by the oval's width and height. */
  const OvalWidthFraction: real := 0.6
  const OvalHeightFraction: real := 0.8

  function MinDimension(width: Int32, height: Int32): (m: Int32)
    ensures m <= width && m <= height && (m == width || m == height)
  {
    if width <= height then width else height
  }

  /** The size-changed callback: the view size goes through unchanged, together with
      an oval centred in the view, 0.6 of the smaller side wide and 0.8 of it tall. */
  function OnSizeChanged(width: Int32, height: Int32): (d: ViewDimensions)
    ensures d.viewWidth == width && d.viewHeight == height
    ensures CenterX(d.ovalBounds) == width as real / 2.0 && CenterY(d.ovalBounds) == height as real / 2.0
    ensures Width(d.ovalBounds) == OvalWidthFraction * MinDimension(width, height) as real
    ensures Height(d.ovalBounds) == OvalHeightFraction * MinDimension(width, height) as real
    ensures width >= 0 && height >= 0 ==>
      0.0 <= d.ovalBounds.left <= d.ovalBounds.right <= width as real &&
      0.0 <= d.ovalBounds.top <= d.ovalBounds.bottom <= height as real
    ensures width > 0 && height > 0 ==> Nondegenerate(d.ovalBounds)
  {
    var minDimension := MinDimension(width, height) as real;
    var centerX := width as real / 2.0;
    var centerY := height as real / 2.0;
    var ovalWidth := minDimension * OvalWidthFraction;
    var ovalHeight := minDimension * OvalHeightFraction;
    var ovalBounds := RectF(centerX - ovalWidth / 2.0, centerY - ovalHeight / 2.0,
                            centerX + ovalWidth / 2.0, centerY + ovalHeight / 2.0);
    ViewDimensions(width, height, ovalBounds)
  }

  /** In any non-empty view, the laid-out oval satisfies the containment test's
      precondition, and a face centred in the view is judged inside it. */
  lemma FaceCentredInViewIsAligned(width: Int32, height: Int32, faceBox: Rect)
    requires width > 0 && height > 0
    requires ExactCenterX(faceBox) == width as real / 2.0 && ExactCenterY(faceBox) == height as real / 2.0
    ensures Nondegenerate(OnSizeChanged(width, height).ovalBounds)
    ensures DetectFacePosition.CheckIfFaceInOval(faceBox, OnSizeChanged(width, height).ovalBounds)
  {
    DetectFacePosition.CentredFaceIsInside(faceBox, OnSizeChanged(width, height).ovalBounds);
  }
}
