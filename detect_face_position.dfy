/** The face-alignment decision: a face box is mapped from camera-image pixels to
    view pixels, and its exact centre is tested against the guide ellipse. */
module DetectFacePosition {
  import opened Model

  /** The normalised ellipse value at or below which a face counts as inside:
      a 10% margin inside the drawn oval. */
  const InsideThreshold: real := 0.9

  /** The detector's confidence is not threaded through; every result carries this. */
  const PlaceholderConfidence: real := 1.0

  /** Pixels of view per pixel of image along one axis. */
  function ScaleFactor(view: Int32, image: Int32): (s: real)
    requires image > 0
    ensures view >= 0 ==> s >= 0.0
    ensures s * image as real == view as real
  {
    view as real / image as real
  }

  /** One edge coordinate scaled exactly, `edge * view / image`, before conversion
      back to `Int`. */
  function ScaledEdge(edge: Int32, view: Int32, image: Int32): (x: real)
    requires image > 0
    ensures x * image as real == edge as real * view as real
  {
    edge as real * ScaleFactor(view, image)
  }

  /** Maps a face box from image pixels to view pixels: the X edges by the X factor,
      the Y edges by the Y factor, each truncated back to an `Int`. Each transformed edge
      is its exact scaled value truncated toward zero, for values within the range of `Int`. */
  function TransformBoundingBox(box: Rect, imageWidth: Int32, imageHeight: Int32,
                                viewWidth: Int32, viewHeight: Int32): (r: Rect)
    requires imageWidth > 0 && imageHeight > 0
    ensures var left, right := ScaledEdge(box.left, viewWidth, imageWidth), ScaledEdge(box.right, viewWidth, imageWidth);
      var top, bottom := ScaledEdge(box.top, viewHeight, imageHeight), ScaledEdge(box.bottom, viewHeight, imageHeight);
      (InIntRange(left) ==> r.left == Truncate(left)) && (InIntRange(top) ==> r.top == Truncate(top)) &&
      (InIntRange(right) ==> r.right == Truncate(right)) && (InIntRange(bottom) ==> r.bottom == Truncate(bottom))
  {
    EdgeTruncates(box.left, viewWidth, imageWidth);
    EdgeTruncates(box.top, viewHeight, imageHeight);
    EdgeTruncates(box.right, viewWidth, imageWidth);
    EdgeTruncates(box.bottom, viewHeight, imageHeight);
    Rect(ToInt(ScaledEdge(box.left, viewWidth, imageWidth)),
         ToInt(ScaledEdge(box.top, viewHeight, imageHeight)),
         ToInt(ScaledEdge(box.right, viewWidth, imageWidth)),
         ToInt(ScaledEdge(box.bottom, viewHeight, imageHeight)))
  }

  lemma EdgeTruncates(edge: Int32, view: Int32, image: Int32)
    requires image > 0
    ensures InIntRange(ScaledEdge(edge, view, image)) ==> ToInt(ScaledEdge(edge, view, image)) == Truncate(ScaledEdge(edge, view, image))
  {
    if InIntRange(ScaledEdge(edge, view, image)) {
      ToIntInRange(ScaledEdge(edge, view, image));
    }
  }

  /** The X edges depend only on the widths, the Y edges only on the heights. */
  lemma TransformAxesIndependent(box: Rect, imageWidth: Int32, imageHeight: Int32,
                                 viewWidth: Int32, viewHeight: Int32,
                                 otherImageWidth: Int32, otherImageHeight: Int32,
                                 otherViewWidth: Int32, otherViewHeight: Int32)
    requires imageWidth > 0 && imageHeight > 0 && otherImageWidth > 0 && otherImageHeight > 0
    ensures var r := TransformBoundingBox(box, imageWidth, imageHeight, viewWidth, viewHeight);
      var s := TransformBoundingBox(box, imageWidth, otherImageHeight, viewWidth, otherViewHeight);
      r.left == s.left && r.right == s.right
    ensures var r := TransformBoundingBox(box, imageWidth, imageHeight, viewWidth, viewHeight);
      var s := TransformBoundingBox(box, otherImageWidth, imageHeight, otherViewWidth, viewHeight);
      r.top == s.top && r.bottom == s.bottom
  {
  }

  /** When the view has the image's size the transform is the identity. */
  lemma TransformIdentity(box: Rect, width: Int32, height: Int32)
    requires width > 0 && height > 0
    ensures TransformBoundingBox(box, width, height, width, height) == box
  {
    ToIntOfInt32(box.left);
    ToIntOfInt32(box.top);
    ToIntOfInt32(box.right);
    ToIntOfInt32(box.bottom);
  }

  lemma ScaledEdgeMonotone(a: Int32, b: Int32, view: Int32, image: Int32)
    requires image > 0 && view >= 0 && a <= b
    ensures ToInt(ScaledEdge(a, view, image)) <= ToInt(ScaledEdge(b, view, image))
  {
    MultiplyMonotone(a as real, b as real, ScaleFactor(view, image));
    ToIntMonotone(ScaledEdge(a, view, image), ScaledEdge(b, view, image));
  }

  lemma MultiplyMonotone(a: real, b: real, s: real)
    requires a <= b && s >= 0.0
    ensures a * s <= b * s
  {
    assert b * s - a * s == (b - a) * s;
  }

  /** With non-negative view sizes, a well-ordered box stays well-ordered. */
  lemma TransformPreservesEdgeOrder(box: Rect, imageWidth: Int32, imageHeight: Int32,
                                    viewWidth: Int32, viewHeight: Int32)
    requires imageWidth > 0 && imageHeight > 0 && viewWidth >= 0 && viewHeight >= 0
    requires box.left <= box.right && box.top <= box.bottom
    ensures var r := TransformBoundingBox(box, imageWidth, imageHeight, viewWidth, viewHeight);
      r.left <= r.right && r.top <= r.bottom
  {
    ScaledEdgeMonotone(box.left, box.right, viewWidth, imageWidth);
    ScaledEdgeMonotone(box.top, box.bottom, viewHeight, imageHeight);
  }

  lemma TruncateOfDouble(x: real)
    ensures x >= 0.0 ==> 2 * Truncate(x) <= Truncate(2.0 * x) <= 2 * Truncate(x) + 1
    ensures x < 0.0 ==> 2 * Truncate(x) - 1 <= Truncate(2.0 * x) <= 2 * Truncate(x)
  {
    var t := Truncate(x);
    var u := Truncate(2.0 * x);
    if x >= 0.0 {
      assert 2.0 * t as real <= 2.0 * x < 2.0 * t as real + 2.0;
      assert u as real <= 2.0 * x < u as real + 1.0;
    } else {
      assert 2.0 * t as real - 2.0 < 2.0 * x <= 2.0 * t as real;
      assert u as real - 1.0 < 2.0 * x <= u as real;
    }
  }

  /** The transform is linear per axis: doubling the view width doubles the left and
      right edges, up to the one pixel that truncation may add. */
  lemma TransformScalesLinearly(box: Rect, imageWidth: Int32, imageHeight: Int32,
                                viewWidth: Int32, viewHeight: Int32)
    requires imageWidth > 0 && imageHeight > 0
    requires MinInt <= 2 * viewWidth <= MaxInt
    requires InIntRange(2.0 * ScaledEdge(box.left, viewWidth, imageWidth))
    requires InIntRange(2.0 * ScaledEdge(box.right, viewWidth, imageWidth))
    ensures var r := TransformBoundingBox(box, imageWidth, imageHeight, viewWidth, viewHeight);
      var d := TransformBoundingBox(box, imageWidth, imageHeight, 2 * viewWidth, viewHeight);
      2 * r.left - 1 <= d.left <= 2 * r.left + 1 && 2 * r.right - 1 <= d.right <= 2 * r.right + 1
  {
    EdgeScalesLinearly(box.left, viewWidth, imageWidth);
    EdgeScalesLinearly(box.right, viewWidth, imageWidth);
  }

  lemma EdgeScalesLinearly(edge: Int32, view: Int32, image: Int32)
    requires image > 0 && MinInt <= 2 * view <= MaxInt
    requires InIntRange(2.0 * ScaledEdge(edge, view, image))
    ensures 2 * ToInt(ScaledEdge(edge, view, image)) - 1 <= ToInt(ScaledEdge(edge, 2 * view, image))
                                                     <= 2 * ToInt(ScaledEdge(edge, view, image)) + 1
  {
    var x := ScaledEdge(edge, view, image);
    assert ScaledEdge(edge, 2 * view, image) == 2.0 * x;
    ToIntInRange(x);
    ToIntInRange(2.0 * x);
    TruncateOfDouble(x);
  }

  /** `((cx-ox)/rx)^2 + ((cy-oy)/ry)^2` for the exact centre of the face box. */
  function NormalizedEllipseValue(faceBox: Rect, ovalBounds: RectF): (v: real)
    requires Nondegenerate(ovalBounds)
    ensures v >= 0.0
  {
    var dx := (ExactCenterX(faceBox) - CenterX(ovalBounds)) / (Width(ovalBounds) / 2.0);
    var dy := (ExactCenterY(faceBox) - CenterY(ovalBounds)) / (Height(ovalBounds) / 2.0);
    dx * dx + dy * dy
  }

  /** The containment verdict: the normalised value is at most the threshold (closed),
      so an inside face is strictly within the drawn ellipse, with a margin to spare. */
  function CheckIfFaceInOval(faceBox: Rect, ovalBounds: RectF): (inside: bool)
    requires Nondegenerate(ovalBounds)
    ensures inside <==> NormalizedEllipseValue(faceBox, ovalBounds) <= InsideThreshold
    ensures inside ==> NormalizedEllipseValue(faceBox, ovalBounds) < 1.0
  {
    NormalizedEllipseValue(faceBox, ovalBounds) <= InsideThreshold
  }

  /** A face centred exactly on the oval's centre is inside, whatever the radii. */
  lemma CentredFaceIsInside(faceBox: Rect, ovalBounds: RectF)
    requires Nondegenerate(ovalBounds)
    requires ExactCenterX(faceBox) == CenterX(ovalBounds)
    requires ExactCenterY(faceBox) == CenterY(ovalBounds)
    ensures CheckIfFaceInOval(faceBox, ovalBounds)
  {
    assert NormalizedEllipseValue(faceBox, ovalBounds) == 0.0;
  }

  lemma BeyondRadius(a: real, r: real)
    requires r > 0.0 && (a > r || a < -r)
    ensures (a / r) * (a / r) > 1.0
  {
    var u := a / r;
    assert a == u * r;
    if a > r {
      assert u > 1.0;
      assert u * u > u;
    } else {
      assert u < -1.0;
      assert u * u > -u;
    }
  }

  /** A face whose centre lies outside the oval's bounding rectangle is never inside. */
  lemma CentreOutsideOvalRectIsOutside(faceBox: Rect, ovalBounds: RectF)
    requires Nondegenerate(ovalBounds)
    requires ExactCenterX(faceBox) < ovalBounds.left || ExactCenterX(faceBox) > ovalBounds.right ||
             ExactCenterY(faceBox) < ovalBounds.top || ExactCenterY(faceBox) > ovalBounds.bottom
    ensures !CheckIfFaceInOval(faceBox, ovalBounds)
  {
    var rx := Width(ovalBounds) / 2.0;
    var ry := Height(ovalBounds) / 2.0;
    var ax := ExactCenterX(faceBox) - CenterX(ovalBounds);
    var ay := ExactCenterY(faceBox) - CenterY(ovalBounds);
    assert NormalizedEllipseValue(faceBox, ovalBounds) == (ax / rx) * (ax / rx) + (ay / ry) * (ay / ry);
    if ax > rx || ax < -rx {
      BeyondRadius(ax, rx);
      assert (ay / ry) * (ay / ry) >= 0.0;
    } else {
      BeyondRadius(ay, ry);
      assert (ax / rx) * (ax / rx) >= 0.0;
    }
  }

  /** Moving the face box and the oval by the same whole-pixel offset keeps the verdict. */
  lemma TranslationPreservesVerdict(faceBox: Rect, ovalBounds: RectF, moved: Rect, movedOval: RectF,
                                    dx: int, dy: int)
    requires Nondegenerate(ovalBounds)
    requires moved.left == faceBox.left + dx && moved.right == faceBox.right + dx
    requires moved.top == faceBox.top + dy && moved.bottom == faceBox.bottom + dy
    requires movedOval == RectF(ovalBounds.left + dx as real, ovalBounds.top + dy as real,
                                ovalBounds.right + dx as real, ovalBounds.bottom + dy as real)
    ensures Nondegenerate(movedOval)
    ensures CheckIfFaceInOval(moved, movedOval) == CheckIfFaceInOval(faceBox, ovalBounds)
  {
    assert ExactCenterX(moved) - CenterX(movedOval) == ExactCenterX(faceBox) - CenterX(ovalBounds);
    assert ExactCenterY(moved) - CenterY(movedOval) == ExactCenterY(faceBox) - CenterY(ovalBounds);
  }

  /** The threshold is closed: a centre whose normalised value is exactly 0.9 is inside. */
  lemma ThresholdIsClosed()
    ensures NormalizedEllipseValue(Rect(18, 12, 20, 14), RectF(0.0, 0.0, 20.0, 20.0)) == InsideThreshold
    ensures CheckIfFaceInOval(Rect(18, 12, 20, 14), RectF(0.0, 0.0, 20.0, 20.0))
  {
    var oval := RectF(0.0, 0.0, 20.0, 20.0);
    var face := Rect(18, 12, 20, 14);
    NormalizedValueAt(face, oval, 10.0, 10.0, 10.0, 10.0, 0.9, 0.3);
  }

  /** Just beyond the threshold, a centre is outside. */
  lemma BeyondThresholdIsOutside()
    ensures NormalizedEllipseValue(Rect(19, 10, 20, 10), RectF(0.0, 0.0, 20.0, 20.0)) == 0.9025
    ensures !CheckIfFaceInOval(Rect(19, 10, 20, 10), RectF(0.0, 0.0, 20.0, 20.0))
  {
    var oval := RectF(0.0, 0.0, 20.0, 20.0);
    var face := Rect(19, 10, 20, 10);
    NormalizedValueAt(face, oval, 10.0, 10.0, 10.0, 10.0, 0.95, 0.0);
  }

  lemma NormalizedValueAt(faceBox: Rect, ovalBounds: RectF, ox: real, oy: real, rx: real, ry: real, u: real, w: real)
    requires CenterX(ovalBounds) == ox && CenterY(ovalBounds) == oy
    requires Width(ovalBounds) == 2.0 * rx && Height(ovalBounds) == 2.0 * ry && rx > 0.0 && ry > 0.0
    requires ExactCenterX(faceBox) - ox == u * rx && ExactCenterY(faceBox) - oy == w * ry
    ensures NormalizedEllipseValue(faceBox, ovalBounds) == u * u + w * w
  {
  }

  /** The use case: transform the box, test it against the oval, and report both
      with the placeholder confidence. */
  function Invoke(faceBoundingBox: Rect, ovalBounds: RectF, imageWidth: Int32, imageHeight: Int32,
                  viewWidth: Int32, viewHeight: Int32): (r: FaceDetectionResult)
    requires imageWidth > 0 && imageHeight > 0
    requires Nondegenerate(ovalBounds)
    ensures r.boundingBox == TransformBoundingBox(faceBoundingBox, imageWidth, imageHeight, viewWidth, viewHeight)
    ensures r.isInsideOval == CheckIfFaceInOval(r.boundingBox, ovalBounds)
    ensures r.isInsideOval ==> ovalBounds.left <= ExactCenterX(r.boundingBox) <= ovalBounds.right &&
                               ovalBounds.top <= ExactCenterY(r.boundingBox) <= ovalBounds.bottom
    ensures r.confidence == 1.0
  {
    var transformedBox := TransformBoundingBox(faceBoundingBox, imageWidth, imageHeight, viewWidth, viewHeight);
    assert CheckIfFaceInOval(transformedBox, ovalBounds) ==>
      ovalBounds.left <= ExactCenterX(transformedBox) <= ovalBounds.right &&
      ovalBounds.top <= ExactCenterY(transformedBox) <= ovalBounds.bottom
    by {
      if !(ovalBounds.left <= ExactCenterX(transformedBox) <= ovalBounds.right &&
           ovalBounds.top <= ExactCenterY(transformedBox) <= ovalBounds.bottom) {
        CentreOutsideOvalRectIsOutside(transformedBox, ovalBounds);
      }
    }
    FaceDetectionResult(transformedBox, CheckIfFaceInOval(transformedBox, ovalBounds), PlaceholderConfidence)
  }

  /** A worked case: a 100..200 box in a 640x480 frame shown on a 1080x1920 view lands
      at (168, 400, 337, 800), and its centre (252.5, 600) is inside an oval centred at
      (450, 750) with half-axes 250 and 450. */
  lemma WorkedExampleIsAligned()
    ensures var r := Invoke(Rect(100, 100, 200, 200), RectF(200.0, 300.0, 700.0, 1200.0), 640, 480, 1080, 1920);
      r.boundingBox == Rect(168, 400, 337, 800) && r.isInsideOval && r.confidence == 1.0
  {
    var box := Rect(100, 100, 200, 200);
    assert ScaledEdge(box.left, 1080, 640) == 168.75;
    assert ScaledEdge(box.top, 1920, 480) == 400.0;
    assert ScaledEdge(box.right, 1080, 640) == 337.5;
    assert ScaledEdge(box.bottom, 1920, 480) == 800.0;
    var t := TransformBoundingBox(box, 640, 480, 1080, 1920);
    assert t == Rect(168, 400, 337, 800);
    assert NormalizedEllipseValue(t, RectF(200.0, 300.0, 700.0, 1200.0)) <= 0.9;
  }
}
