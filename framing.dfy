/** The framing gate `CameraViewModel.isInsideTheBox`: is the face, mapped from
    image to view coordinates, inside the oval's bounding rectangle? */
module Framing {
  import opened PoseEstimation

  /** An axis-aligned rectangle in view coordinates (Android `RectF`). */
  datatype Rect = Rect(left: real, top: real, right: real, bottom: real)

  /** `RectF.contains(left, top, right, bottom)` with the semantics Android
      documents: the box is non-empty and includes the given rectangle, edges
      allowed to touch. */
  predicate Contains(box: Rect, inner: Rect)
  {
    box.left < box.right && box.top < box.bottom
    && box.left <= inner.left && box.top <= inner.top
    && box.right >= inner.right && box.bottom >= inner.bottom
  }

  function Max(a: real, b: real): (m: real)
    ensures m >= a && m >= b && (m == a || m == b)
  {
    if a >= b then a else b
  }

  /** The cover-fit scale from image to view: `max(viewW / imageW, viewH / imageH)`. */
  function ScaleFactor(viewWidth: int, viewHeight: int, imageWidth: int, imageHeight: int): (s: real)
    requires imageWidth > 0 && imageHeight > 0
    ensures s * imageWidth as real >= viewWidth as real && s * imageHeight as real >= viewHeight as real
    ensures s * imageWidth as real == viewWidth as real || s * imageHeight as real == viewHeight as real
  {
    var sx := viewWidth as real / imageWidth as real;
    var sy := viewHeight as real / imageHeight as real;
    assert sx * imageWidth as real == viewWidth as real;
    assert sy * imageHeight as real == viewHeight as real;
    Max(sx, sy)
  }

  /** The image scaled by the cover-fit factor covers the view, and no smaller
      uniform scale does. */
  lemma ScaleFactorIsLeastCover(viewWidth: int, viewHeight: int, imageWidth: int, imageHeight: int, t: real)
    requires imageWidth > 0 && imageHeight > 0
    requires t * imageWidth as real >= viewWidth as real && t * imageHeight as real >= viewHeight as real
    ensures t >= ScaleFactor(viewWidth, viewHeight, imageWidth, imageHeight)
  {
    var s := ScaleFactor(viewWidth, viewHeight, imageWidth, imageHeight);
    if s * imageWidth as real == viewWidth as real {
      assert (t - s) * imageWidth as real >= 0.0;
    } else {
      assert (t - s) * imageHeight as real >= 0.0;
    }
  }

  /** The face's rectangle in image pixels: left from landmark 234 (left cheek),
      top from 10 (forehead), right from 454 (right cheek), bottom from 200
      (chin), each mapped to pixels as the pose estimate maps its points. */
  function PixelRect(faceLandmarks: seq<Landmark>, imageWidth: int, imageHeight: int): Rect
    requires |faceLandmarks| > 454
  {
    Rect(ImagePoint(faceLandmarks[234], imageWidth, imageHeight).x,
         ImagePoint(faceLandmarks[10], imageWidth, imageHeight).y,
         ImagePoint(faceLandmarks[454], imageWidth, imageHeight).x,
         ImagePoint(faceLandmarks[200], imageWidth, imageHeight).y)
  }

  /** The face's rectangle in view coordinates, as `isInsideTheBox` computes it:
      the pixel rectangle of the four landmarks, scaled by `scale`. */
  function FaceRect(faceLandmarks: seq<Landmark>, imageWidth: int, imageHeight: int, scale: real): (r: Rect)
    requires |faceLandmarks| > 454
    ensures r == ScaleRect(PixelRect(faceLandmarks, imageWidth, imageHeight), scale)
  {
    Rect(faceLandmarks[234].x * imageWidth as real * scale,
         faceLandmarks[10].y * imageHeight as real * scale,
         faceLandmarks[454].x * imageWidth as real * scale,
         faceLandmarks[200].y * imageHeight as real * scale)
  }

  /** `isInsideTheBox`: the box is non-empty and holds the face's pixel
      rectangle scaled into the view by the cover-fit factor. */
  function IsInsideTheBox(faceLandmarks: seq<Landmark>, imageWidth: int, imageHeight: int,
                          box: Rect, viewWidth: int, viewHeight: int): (inside: bool)
    requires |faceLandmarks| > 454
    requires imageWidth > 0 && imageHeight > 0
    ensures inside <==> Contains(box, ScaleRect(PixelRect(faceLandmarks, imageWidth, imageHeight),
                                                ScaleFactor(viewWidth, viewHeight, imageWidth, imageHeight)))
    ensures inside ==> box.left < box.right && box.top < box.bottom
  {
    var scaleFactor := ScaleFactor(viewWidth, viewHeight, imageWidth, imageHeight);
    Contains(box, FaceRect(faceLandmarks, imageWidth, imageHeight, scaleFactor))
  }

  /** The gate depends on the image only through its aspect ratio: two image
      sizes with the same ratio give the same verdict. */
  lemma InsideIgnoresImageResolution(faceLandmarks: seq<Landmark>, w1: int, h1: int, w2: int, h2: int,
                                     box: Rect, viewWidth: int, viewHeight: int)
    requires |faceLandmarks| > 454
    requires w1 > 0 && h1 > 0 && w2 > 0 && h2 > 0
    requires w1 * h2 == w2 * h1
    ensures IsInsideTheBox(faceLandmarks, w2, h2, box, viewWidth, viewHeight)
        == IsInsideTheBox(faceLandmarks, w1, h1, box, viewWidth, viewHeight)
  {
    var s1 := ScaleFactor(viewWidth, viewHeight, w1, h1);
    var s2 := ScaleFactor(viewWidth, viewHeight, w2, h2);
    ScaleFactorOfSimilarImage(viewWidth, viewHeight, w1, h1, w2, h2);
    FaceRectOfSameViewSize(faceLandmarks, w1, h1, s1, w2, h2, s2);
  }

  /** The face rectangle depends on image size and scale only through the size
      of the scaled image. */
  lemma FaceRectOfSameViewSize(faceLandmarks: seq<Landmark>, w1: int, h1: int, s1: real, w2: int, h2: int, s2: real)
    requires |faceLandmarks| > 454
    requires w2 as real * s2 == w1 as real * s1 && h2 as real * s2 == h1 as real * s1
    ensures FaceRect(faceLandmarks, w2, h2, s2) == FaceRect(faceLandmarks, w1, h1, s1)
  {
    var lms := faceLandmarks;
    assert lms[234].x * w2 as real * s2 == lms[234].x * (w2 as real * s2);
    assert lms[10].y * h2 as real * s2 == lms[10].y * (h2 as real * s2);
    assert lms[454].x * w2 as real * s2 == lms[454].x * (w2 as real * s2);
    assert lms[200].y * h2 as real * s2 == lms[200].y * (h2 as real * s2);
    assert lms[234].x * w1 as real * s1 == lms[234].x * (w1 as real * s1);
    assert lms[10].y * h1 as real * s1 == lms[10].y * (h1 as real * s1);
    assert lms[454].x * w1 as real * s1 == lms[454].x * (w1 as real * s1);
    assert lms[200].y * h1 as real * s1 == lms[200].y * (h1 as real * s1);
  }

  /** Two image sizes with the same aspect ratio map onto the view alike: the
      cover-fit scale shrinks exactly as the image grows. */
  lemma ScaleFactorOfSimilarImage(viewWidth: int, viewHeight: int, w1: int, h1: int, w2: int, h2: int)
    requires w1 > 0 && h1 > 0 && w2 > 0 && h2 > 0
    requires w1 * h2 == w2 * h1
    ensures ScaleFactor(viewWidth, viewHeight, w2, h2) * w2 as real == ScaleFactor(viewWidth, viewHeight, w1, h1) * w1 as real
    ensures ScaleFactor(viewWidth, viewHeight, w2, h2) * h2 as real == ScaleFactor(viewWidth, viewHeight, w1, h1) * h1 as real
  {
    var r := w2 as real / w1 as real;
    assert w2 as real == r * w1 as real;
    assert (w1 * h2) as real == w1 as real * h2 as real;
    assert (w2 * h1) as real == w2 as real * h1 as real;
    assert h2 as real == r * h1 as real;
    var sx1, sy1 := viewWidth as real / w1 as real, viewHeight as real / h1 as real;
    var sx2, sy2 := viewWidth as real / w2 as real, viewHeight as real / h2 as real;
    assert sx2 * r == sx1;
    assert sy2 * r == sy1;
    LessEqScaled(sx2, sy2, r);
    LessEqScaled(sy2, sx2, r);
    assert ScaleFactor(viewWidth, viewHeight, w2, h2) * r == ScaleFactor(viewWidth, viewHeight, w1, h1);
  }

  /** The box scaled by `k` about the view's origin. */
  function ScaleRect(r: Rect, k: real): Rect
  {
    Rect(r.left * k, r.top * k, r.right * k, r.bottom * k)
  }

  /** Enlarging the view by a whole factor `k` and the box with it leaves the
      verdict unchanged. */
  lemma InsideScalesWithView(faceLandmarks: seq<Landmark>, imageWidth: int, imageHeight: int,
                             box: Rect, viewWidth: int, viewHeight: int, k: int)
    requires |faceLandmarks| > 454
    requires imageWidth > 0 && imageHeight > 0 && k > 0
    ensures IsInsideTheBox(faceLandmarks, imageWidth, imageHeight, ScaleRect(box, k as real), k * viewWidth, k * viewHeight)
        == IsInsideTheBox(faceLandmarks, imageWidth, imageHeight, box, viewWidth, viewHeight)
  {
    var s := ScaleFactor(viewWidth, viewHeight, imageWidth, imageHeight);
    var kr := k as real;
    ScaleFactorOfScaledView(viewWidth, viewHeight, imageWidth, imageHeight, k);
    FaceRectScaled(faceLandmarks, imageWidth, imageHeight, s, kr);
    ContainsScaled(box, FaceRect(faceLandmarks, imageWidth, imageHeight, s), kr);
    assert ScaleFactor(k * viewWidth, k * viewHeight, imageWidth, imageHeight) == s * kr;
    assert IsInsideTheBox(faceLandmarks, imageWidth, imageHeight, ScaleRect(box, kr), k * viewWidth, k * viewHeight) == Contains(ScaleRect(box, kr), FaceRect(faceLandmarks, imageWidth, imageHeight, s * kr));
  }

  /** Enlarging the view by `k` multiplies the cover-fit scale by `k`. */
  lemma ScaleFactorOfScaledView(viewWidth: int, viewHeight: int, imageWidth: int, imageHeight: int, k: int)
    requires imageWidth > 0 && imageHeight > 0 && k > 0
    ensures ScaleFactor(k * viewWidth, k * viewHeight, imageWidth, imageHeight)
         == ScaleFactor(viewWidth, viewHeight, imageWidth, imageHeight) * k as real
  {
    var sx := viewWidth as real / imageWidth as real;
    var sy := viewHeight as real / imageHeight as real;
    assert (k * viewWidth) as real / imageWidth as real == sx * k as real;
    assert (k * viewHeight) as real / imageHeight as real == sy * k as real;
    LessEqScaled(sx, sy, k as real);
    LessEqScaled(sy, sx, k as real);
  }

  /** The face rectangle at scale `s * k` is the one at scale `s`, scaled by `k`. */
  lemma FaceRectScaled(faceLandmarks: seq<Landmark>, imageWidth: int, imageHeight: int, s: real, k: real)
    requires |faceLandmarks| > 454
    ensures FaceRect(faceLandmarks, imageWidth, imageHeight, s * k)
         == ScaleRect(FaceRect(faceLandmarks, imageWidth, imageHeight, s), k)
  {
    var w, h := imageWidth as real, imageHeight as real;
    assert faceLandmarks[234].x * w * (s * k) == faceLandmarks[234].x * w * s * k;
    assert faceLandmarks[10].y * h * (s * k) == faceLandmarks[10].y * h * s * k;
    assert faceLandmarks[454].x * w * (s * k) == faceLandmarks[454].x * w * s * k;
    assert faceLandmarks[200].y * h * (s * k) == faceLandmarks[200].y * h * s * k;
  }

  /** Containment does not change when both rectangles are scaled by the same
      positive factor. */
  lemma ContainsScaled(box: Rect, inner: Rect, k: real)
    requires k > 0.0
    ensures Contains(ScaleRect(box, k), ScaleRect(inner, k)) == Contains(box, inner)
  {
    LessEqScaled(box.left, inner.left, k);
    LessEqScaled(box.top, inner.top, k);
    LessEqScaled(inner.right, box.right, k);
    LessEqScaled(inner.bottom, box.bottom, k);
    LessScaled(box.left, box.right, k);
    LessScaled(box.top, box.bottom, k);
  }

  lemma LessEqScaled(a: real, b: real, k: real)
    requires k > 0.0
    ensures a * k <= b * k <==> a <= b
  {
    assert b * k - a * k == (b - a) * k;
  }

  lemma LessScaled(a: real, b: real, k: real)
    requires k > 0.0
    ensures a * k < b * k <==> a < b
  {
    assert b * k - a * k == (b - a) * k;
  }

  /** Scaling the image and the view together is NOT neutral: the face keeps its
      normalized position while the scale factor stays put, so its view
      coordinates grow. A face well inside a unit box at size 1 falls out of it
      at size 2. */
  lemma UniformRescaleCanChangeVerdict()
    ensures var lms := seq(455, i => Landmark(0.75, 0.75, 0.0));
            var box := Rect(0.0, 0.0, 1.0, 1.0);
            IsInsideTheBox(lms, 1, 1, box, 1, 1) && !IsInsideTheBox(lms, 2, 2, box, 2, 2)
  {
    var lms := seq(455, i => Landmark(0.75, 0.75, 0.0));
    assert ScaleFactor(1, 1, 1, 1) == 1.0;
    assert ScaleFactor(2, 2, 2, 2) == 1.0;
    assert FaceRect(lms, 2, 2, 1.0).right == 1.5;
  }
}
