/** Head-pose estimation in `CameraViewModel.calculateYawPitch`: selecting the
    six landmark correspondences, laying out the camera matrix and turning the
    decomposed rotation into (yaw, pitch). The OpenCV pipeline in between
    (solvePnP, Rodrigues, RQDecomp3x3) is numerical foreign code; it enters the
    model as a function parameter `solve` that is never looked inside. */
module PoseEstimation {

  /** One normalized facial keypoint from the detector: x and y are fractions of
      the image width and height, z is the detector's relative depth. */
  datatype Landmark = Landmark(x: real, y: real, z: real)

  /** An observed image point (OpenCV `Point`). */
  datatype Point2 = Point2(x: real, y: real)

  /** A "model" point (OpenCV `Point3`); here rebuilt from the same landmark. */
  datatype Point3 = Point3(x: real, y: real, z: real)

  /** The three angles RQDecomp3x3 returns; only the first two are used. */
  datatype Euler = Euler(e0: real, e1: real, e2: real)

  /** A head orientation as the challenge consumes it. */
  datatype Pose = Pose(yaw: real, pitch: real)

  /** solvePnP, Rodrigues and RQDecomp3x3 chained: from the 3D points, the 2D
      points, the row-major camera matrix and the distortion coefficients to
      the Euler angles of the recovered rotation. */
  type Solver = (seq<Point3>, seq<Point2>, seq<real>, seq<real>) -> Euler

  /** The landmark indices kept as correspondences, tested as the source tests them. */
  predicate IsPnpIndex(i: int)
  {
    i == 33 || i == 263 || i == 1 || i == 61 || i == 291 || i == 199
  }

  /** The same six indices in ascending order: nose tip, right eye corner, right
      mouth corner, chin, left eye corner, left mouth corner. */
  const PnpOrder: seq<nat> := [1, 33, 61, 199, 263, 291]

  /** The indices below `n` that the selection loop keeps, in the order the loop
      meets them. */
  function KeptIndices(n: nat): (r: seq<nat>)
    ensures forall k :: 0 <= k < |r| ==> r[k] < n
  {
    if n == 0 then []
    else KeptIndices(n - 1) + (if IsPnpIndex(n - 1) then [n - 1] else [])
  }

  /** How many of the six indices lie below `n`. */
  function PnpCountBelow(n: nat): (c: nat)
    ensures c <= |PnpOrder|
  {
    if n <= 1 then 0
    else if n <= 33 then 1
    else if n <= 61 then 2
    else if n <= 199 then 3
    else if n <= 263 then 4
    else if n <= 291 then 5
    else 6
  }

  /** The loop keeps exactly the indices of the set below `n`, and no others. */
  lemma {:induction false} KeptIndicesMembers(n: nat, i: int)
    ensures i in KeptIndices(n) <==> 0 <= i < n && IsPnpIndex(i)
  {
    if n > 0 {
      KeptIndicesMembers(n - 1, i);
    }
  }

  /** Over `n` landmarks the loop keeps the ascending prefix of the six indices
      that lie below `n`. */
  lemma {:induction false} KeptIndicesArePnpPrefix(n: nat)
    ensures KeptIndices(n) == PnpOrder[..PnpCountBelow(n)]
  {
    if n > 0 {
      KeptIndicesArePnpPrefix(n - 1);
      if IsPnpIndex(n - 1) {
        assert PnpCountBelow(n) == PnpCountBelow(n - 1) + 1;
        assert PnpOrder[PnpCountBelow(n - 1)] == n - 1;
        assert PnpOrder[..PnpCountBelow(n)] == PnpOrder[..PnpCountBelow(n - 1)] + [n - 1];
      } else {
        assert PnpCountBelow(n) == PnpCountBelow(n - 1);
      }
    }
  }

  /** A full detector mesh (at least 292 points) yields all six indices, in
      ascending index order. */
  lemma KeptIndicesOfFullMesh(n: nat)
    requires n >= 292
    ensures KeptIndices(n) == PnpOrder
  {
    KeptIndicesArePnpPrefix(n);
  }

  /** The kept indices are strictly ascending. */
  lemma KeptIndicesAscending(n: nat)
    ensures forall j, k :: 0 <= j < k < |KeptIndices(n)| ==> KeptIndices(n)[j] < KeptIndices(n)[k]
  {
    KeptIndicesArePnpPrefix(n);
  }

  /** The observed 2D point of a landmark, in pixels. */
  function ImagePoint(lm: Landmark, imageWidth: int, imageHeight: int): Point2
  {
    Point2(lm.x * imageWidth as real, lm.y * imageHeight as real)
  }

  /** The pseudo-3D point: the pixel position with the raw detector depth. */
  function ModelPoint(lm: Landmark, imageWidth: int, imageHeight: int): Point3
  {
    Point3(lm.x * imageWidth as real, lm.y * imageHeight as real, lm.z)
  }

  /** The image points of the landmarks at `idx`, in that order. */
  function ImagePointsAt(lms: seq<Landmark>, idx: seq<nat>, imageWidth: int, imageHeight: int): (r: seq<Point2>)
    requires forall k :: 0 <= k < |idx| ==> idx[k] < |lms|
    ensures |r| == |idx|
    ensures forall k :: 0 <= k < |idx| ==> r[k] == ImagePoint(lms[idx[k]], imageWidth, imageHeight)
  {
    seq(|idx|, k requires 0 <= k < |idx| => ImagePoint(lms[idx[k]], imageWidth, imageHeight))
  }

  /** The model points of the landmarks at `idx`, in that order. */
  function ModelPointsAt(lms: seq<Landmark>, idx: seq<nat>, imageWidth: int, imageHeight: int): (r: seq<Point3>)
    requires forall k :: 0 <= k < |idx| ==> idx[k] < |lms|
    ensures |r| == |idx|
    ensures forall k :: 0 <= k < |idx| ==> r[k] == ModelPoint(lms[idx[k]], imageWidth, imageHeight)
  {
    seq(|idx|, k requires 0 <= k < |idx| => ModelPoint(lms[idx[k]], imageWidth, imageHeight))
  }

  /** Appending an index appends that landmark's points. */
  lemma PointsAtAppend(lms: seq<Landmark>, idx: seq<nat>, i: nat, imageWidth: int, imageHeight: int)
    requires forall k :: 0 <= k < |idx| ==> idx[k] < |lms|
    requires i < |lms|
    ensures ImagePointsAt(lms, idx + [i], imageWidth, imageHeight) ==
            ImagePointsAt(lms, idx, imageWidth, imageHeight) + [ImagePoint(lms[i], imageWidth, imageHeight)]
    ensures ModelPointsAt(lms, idx + [i], imageWidth, imageHeight) ==
            ModelPointsAt(lms, idx, imageWidth, imageHeight) + [ModelPoint(lms[i], imageWidth, imageHeight)]
  {
  }

  /** The 2D correspondences of a whole landmark list. */
  function Points2D(lms: seq<Landmark>, imageWidth: int, imageHeight: int): seq<Point2>
  {
    ImagePointsAt(lms, KeptIndices(|lms|), imageWidth, imageHeight)
  }

  /** The 3D correspondences of a whole landmark list. */
  function Points3D(lms: seq<Landmark>, imageWidth: int, imageHeight: int): seq<Point3>
  {
    ModelPointsAt(lms, KeptIndices(|lms|), imageWidth, imageHeight)
  }

  /** The selection loop of `calculateYawPitch`: walk the landmark list once and
      append the 2D and 3D point of every landmark whose index is one of the six. */
  method CollectCorrespondences(faceLandmarks: seq<Landmark>, imageWidth: int, imageHeight: int)
    returns (points2D: seq<Point2>, points3D: seq<Point3>)
    ensures points2D == Points2D(faceLandmarks, imageWidth, imageHeight)
    ensures points3D == Points3D(faceLandmarks, imageWidth, imageHeight)
    ensures |points2D| == |points3D|
    ensures forall k :: 0 <= k < |points2D| ==>
      points3D[k].x == points2D[k].x && points3D[k].y == points2D[k].y
    ensures |faceLandmarks| >= 292 ==> |points2D| == 6
  {
    points2D, points3D := [], [];
    var idx := 0;
    while idx < |faceLandmarks|
      invariant idx <= |faceLandmarks|
      invariant points2D == ImagePointsAt(faceLandmarks, KeptIndices(idx), imageWidth, imageHeight)
      invariant points3D == ModelPointsAt(faceLandmarks, KeptIndices(idx), imageWidth, imageHeight)
    {
      var lm := faceLandmarks[idx];
      if idx == 33 || idx == 263 || idx == 1 || idx == 61 || idx == 291 || idx == 199 {
        var x := lm.x * imageWidth as real;
        var y := lm.y * imageHeight as real;
        points2D := points2D + [Point2(x, y)];
        points3D := points3D + [Point3(x, y, lm.z)];
        PointsAtAppend(faceLandmarks, KeptIndices(idx), idx, imageWidth, imageHeight);
        assert KeptIndices(idx + 1) == KeptIndices(idx) + [idx];
        assert Point2(x, y) == ImagePoint(lm, imageWidth, imageHeight);
      }
      idx := idx + 1;
    }
    if |faceLandmarks| >= 292 {
      KeptIndicesOfFullMesh(|faceLandmarks|);
    }
  }

  /** A full mesh gives the correspondences of landmarks 1, 33, 61, 199, 263 and
      291, in that order. */
  lemma FullMeshCorrespondences(lms: seq<Landmark>, imageWidth: int, imageHeight: int)
    requires |lms| >= 292
    ensures Points2D(lms, imageWidth, imageHeight) ==
      [ImagePoint(lms[1], imageWidth, imageHeight), ImagePoint(lms[33], imageWidth, imageHeight),
       ImagePoint(lms[61], imageWidth, imageHeight), ImagePoint(lms[199], imageWidth, imageHeight),
       ImagePoint(lms[263], imageWidth, imageHeight), ImagePoint(lms[291], imageWidth, imageHeight)]
    ensures Points3D(lms, imageWidth, imageHeight) ==
      [ModelPoint(lms[1], imageWidth, imageHeight), ModelPoint(lms[33], imageWidth, imageHeight),
       ModelPoint(lms[61], imageWidth, imageHeight), ModelPoint(lms[199], imageWidth, imageHeight),
       ModelPoint(lms[263], imageWidth, imageHeight), ModelPoint(lms[291], imageWidth, imageHeight)]
  {
    KeptIndicesOfFullMesh(|lms|);
  }

  /** Row-major intrinsic matrix of a pinhole camera with focal lengths fx, fy
      and principal point (cx, cy). */
  function Intrinsics(fx: real, fy: real, cx: real, cy: real): seq<real>
  {
    [fx, 0.0, cx,
     0.0, fy, cy,
     0.0, 0.0, 1.0]
  }

  /** The camera matrix `calculateYawPitch` puts, row-major from (0, 0): focal
      length `imageWidth` on both axes and the principal point written as
      (imageHeight / 2, imageWidth / 2). */
  function CameraMatrix(imageWidth: int, imageHeight: int): (m: seq<real>)
    ensures m == Intrinsics(imageWidth as real, imageWidth as real, imageHeight as real / 2.0, imageWidth as real / 2.0)
  {
    var focalLength := 1 * imageWidth;
    [focalLength as real, 0.0, imageHeight as real / 2.0,
     0.0, focalLength as real, imageWidth as real / 2.0,
     0.0, 0.0, 1.0]
  }

  /** The principal point is written with its coordinates swapped: the matrix is
      the conventional (w / 2, h / 2) one exactly when the image is square. */
  lemma CameraMatrixIsConventionalIffSquare(imageWidth: int, imageHeight: int)
    ensures CameraMatrix(imageWidth, imageHeight) ==
              Intrinsics(imageWidth as real, imageWidth as real, imageWidth as real / 2.0, imageHeight as real / 2.0)
            <==> imageWidth == imageHeight
  {
    var m := CameraMatrix(imageWidth, imageHeight);
    var c := Intrinsics(imageWidth as real, imageWidth as real, imageWidth as real / 2.0, imageHeight as real / 2.0);
    if m == c {
      assert m[2] == c[2];
    }
  }

  /** Zero lens distortion, four coefficients. */
  const ZeroDistortion: seq<real> := [0.0, 0.0, 0.0, 0.0]

  /** Pitch is the first decomposed angle and yaw the second, each times 360. */
  function PoseFromEuler(euler: Euler): (p: Pose)
    ensures p.pitch / 360.0 == euler.e0 && p.yaw / 360.0 == euler.e1
  {
    Pose(euler.e1 * 360.0, euler.e0 * 360.0)
  }

  /** The pose `calculateYawPitch` computes for one frame. On a full mesh it is
      the solver's answer for the six correspondences of landmarks 1, 33, 61,
      199, 263 and 291 with this image's camera matrix and no distortion. */
  function EstimatePose(lms: seq<Landmark>, imageWidth: int, imageHeight: int, solve: Solver): (p: Pose)
    ensures |lms| >= 292 ==>
      p == PoseFromEuler(solve(ModelPointsAt(lms, PnpOrder, imageWidth, imageHeight),
                               ImagePointsAt(lms, PnpOrder, imageWidth, imageHeight),
                               CameraMatrix(imageWidth, imageHeight), ZeroDistortion))
  {
    var pose := PoseFromEuler(solve(Points3D(lms, imageWidth, imageHeight), Points2D(lms, imageWidth, imageHeight),
                                    CameraMatrix(imageWidth, imageHeight), ZeroDistortion));
    if |lms| >= 292 then KeptIndicesOfFullMesh(|lms|); pose else pose
  }

  /** Only the six kept landmarks matter: two full meshes that agree on them get
      the same pose, whatever the rest of the mesh holds. */
  lemma PoseDependsOnlyOnKeptLandmarks(a: seq<Landmark>, b: seq<Landmark>, imageWidth: int, imageHeight: int, solve: Solver)
    requires |a| >= 292 && |b| >= 292
    requires forall i :: 0 <= i < 292 && IsPnpIndex(i) ==> a[i] == b[i]
    ensures EstimatePose(a, imageWidth, imageHeight, solve) == EstimatePose(b, imageWidth, imageHeight, solve)
  {
    FullMeshCorrespondences(a, imageWidth, imageHeight);
    FullMeshCorrespondences(b, imageWidth, imageHeight);
    assert IsPnpIndex(1) && IsPnpIndex(33) && IsPnpIndex(61) && IsPnpIndex(199) && IsPnpIndex(263) && IsPnpIndex(291);
  }
}
