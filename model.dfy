/** Value types shared by the face-alignment engine and the two screens:
    the Android geometry records, Kotlin's 32-bit Int and its Float-to-Int
    conversion, and the domain records of the detector. */
module Model {

  datatype Option<+T> = None | Some(value: T)

  const MinInt: int := -0x8000_0000
  const MaxInt: int := 0x7FFF_FFFF

  /** Kotlin's `Int`. */
  type Int32 = x: int | MinInt <= x <= MaxInt

  /** An integer pixel rectangle (`android.graphics.Rect`); edges are stored as given. */
  datatype Rect = Rect(left: Int32, top: Int32, right: Int32, bottom: Int32)

  /** A floating rectangle (`android.graphics.RectF`), with coordinates as reals. */
  datatype RectF = RectF(left: real, top: real, right: real, bottom: real)

  /** An opaque image handle (`android.graphics.Bitmap`). */
  type Bitmap

  /** The three tags of the guide oval's colour; their ARGB values are presentation only. */
  datatype OvalColor = OvalNeutral | OvalError | OvalSuccess

  /** Outcome of one alignment decision, in view coordinates. */
  datatype FaceDetectionResult = FaceDetectionResult(boundingBox: Rect, isInsideOval: bool, confidence: real)

  /** The latest layout of the preview surface and of the guide oval within it. */
  datatype ViewDimensions = ViewDimensions(viewWidth: Int32, viewHeight: Int32, ovalBounds: RectF)

  // Rect.exactCenterX / exactCenterY: the untruncated midpoint.
  function ExactCenterX(r: Rect): real { (r.left + r.right) as real / 2.0 }
  function ExactCenterY(r: Rect): real { (r.top + r.bottom) as real / 2.0 }

  // RectF.centerX / centerY / width / height.
  function CenterX(r: RectF): real { (r.left + r.right) / 2.0 }
  function CenterY(r: RectF): real { (r.top + r.bottom) / 2.0 }
  function Width(r: RectF): real { r.right - r.left }
  function Height(r: RectF): real { r.bottom - r.top }

  /** An oval with strictly positive width and height, so both half-axes are positive. */
  predicate Nondegenerate(r: RectF) { Width(r) > 0.0 && Height(r) > 0.0 }

  /** Truncation toward zero of a real, characterised independently of its definition. */
  function Truncate(x: real): (n: int)
    ensures x >= 0.0 ==> 0 <= n && n as real <= x < n as real + 1.0
    ensures x < 0.0 ==> n <= 0 && n as real - 1.0 < x <= n as real
  {
    if x >= 0.0 then x.Floor else -((-x).Floor)
  }

  /** Kotlin's `Float.toInt()` on a non-NaN value: the fraction is dropped toward zero and
      values beyond the range of `Int` saturate at its bounds. */
  function ToInt(x: real): (n: Int32)
    ensures x >= 0.0 ==> 0 <= n && n as real <= x && (n == MaxInt || x < n as real + 1.0)
    ensures x < 0.0 ==> n <= 0 && x <= n as real && (n == MinInt || n as real - 1.0 < x)
  {
    var t := Truncate(x);
    if t > MaxInt then MaxInt else if t < MinInt then MinInt else t
  }

  predicate InIntRange(x: real) { MinInt as real <= x <= MaxInt as real }

  /** Within the range of `Int` the conversion is plain truncation toward zero. */
  lemma ToIntInRange(x: real)
    requires InIntRange(x)
    ensures ToInt(x) == Truncate(x)
  {
  }

  lemma TruncateMonotone(x: real, y: real)
    requires x <= y
    ensures Truncate(x) <= Truncate(y)
  {
    if x < 0.0 && y >= 0.0 {
    } else if x >= 0.0 {
      assert x.Floor <= y.Floor;
    } else {
      assert (-y).Floor <= (-x).Floor;
    }
  }

  /** Kotlin's conversion never reverses the order of two values. */
  lemma ToIntMonotone(x: real, y: real)
    requires x <= y
    ensures ToInt(x) <= ToInt(y)
  {
    TruncateMonotone(x, y);
  }

  /** A value that already is an `Int` converts to itself. */
  lemma ToIntOfInt32(k: Int32)
    ensures ToInt(k as real) == k
  {
  }
}
