/** `ViewTransformer`: a homography from image space to pitch space. The
    matrix itself is opaque; OpenCV's `findHomography`, `perspectiveTransform`
    and `warpPerspective` are parameters. What is modelled is the order and
    outcome of the guards around those calls. */
module View {
  import opened Common

  /** The 3x3 matrix returned by `cv2.findHomography`; its entries are never inspected. */
  datatype Matrix = Matrix(entries: seq<real>)

  /** A two-dimensional numpy float array of shape (|rows|, cols). */
  datatype Array2 = Array2(rows: seq<seq<real>>, cols: nat)
  {
    /** numpy arrays are rectangular. */
    predicate WellShaped() { forall i :: 0 <= i < |rows| ==> |rows[i]| == cols }

    function Shape(): (nat, nat) { (|rows|, cols) }

    function Size(): nat { |rows| * cols }
  }

  /** An (n, 2) array holding the given points, one per row. */
  function PointsArray(pts: seq<Point>): (a: Array2)
    ensures a.WellShaped() && a.cols == 2 && |a.rows| == |pts|
    ensures forall i :: 0 <= i < |pts| ==> a.rows[i] == [pts[i].x, pts[i].y]
  {
    Array2(seq(|pts|, i requires 0 <= i < |pts| => [pts[i].x, pts[i].y]), 2)
  }

  /** An image array; only its shape is inspected. */
  datatype Raster = Raster(shape: seq<nat>, pixels: seq<int>)

  /** `cv2.findHomography(source, target)`: a matrix, `None` for a degenerate
      configuration, or an OpenCV exception. */
  type FindHomography = (Array2, Array2) -> Result<Option<Matrix>>

  /** `cv2.perspectiveTransform` applied to one point. */
  type Projection = (Matrix, real, real) -> Point

  /** `cv2.warpPerspective(image, m, resolution)`. */
  type Warp = (Raster, Matrix, (int, int)) -> Raster

  datatype ViewTransformer = ViewTransformer(m: Option<Matrix>)

  const ShapeMismatch := "Source and target must have the same shape."
  const NotTwoDimensional := "Source and target points must be 2D coordinates."
  const TooFewPoints := "At least 4 points are required to compute a homography"
  const NotComputed := "Homography matrix is not computed. Initialize with valid points."
  const PointsNotTwoDimensional := "Points must be 2D coordinates."
  const NotAnImage := "Image must be either grayscale or color."

  /** `ViewTransformer(source, target)` as written: the shape check, the
      column check, then a count check that rejects only fewer than 3 points. */
  function NewViewTransformer(source: Array2, target: Array2, find: FindHomography): (r: Result<ViewTransformer>)
  {
    if source.Shape() != target.Shape() then Raise(ValueError(ShapeMismatch))
    else if source.cols != 2 then Raise(ValueError(NotTwoDimensional))
    else if |source.rows| < 3 then Raise(ValueError(TooFewPoints))
    else
      match find(source, target)
      case Raise(e) => Raise(e)
      case Ok(m) => Ok(ViewTransformer(m))
  }

  /** The constructor succeeds exactly when the shapes agree, the points are
      2-column, there are at least 3 of them and OpenCV does not raise; the
      stored matrix is then whatever `findHomography` returned. */
  lemma NewViewTransformerOutcome(source: Array2, target: Array2, find: FindHomography)
    ensures NewViewTransformer(source, target, find).Ok? <==>
      source.Shape() == target.Shape() && source.cols == 2 && |source.rows| >= 3 && find(source, target).Ok?
    ensures NewViewTransformer(source, target, find).Ok? ==>
      NewViewTransformer(source, target, find).value.m == find(source, target).value
    ensures source.Shape() != target.Shape() ==>
      NewViewTransformer(source, target, find) == Raise(ValueError(ShapeMismatch))
    ensures source.Shape() == target.Shape() && source.cols != 2 ==>
      NewViewTransformer(source, target, find) == Raise(ValueError(NotTwoDimensional))
    ensures source.Shape() == target.Shape() && source.cols == 2 && |source.rows| < 3 ==>
      NewViewTransformer(source, target, find) == Raise(ValueError(TooFewPoints))
    ensures source.Shape() == target.Shape() && source.cols == 2 && |source.rows| >= 3 && find(source, target).Raise? ==>
      NewViewTransformer(source, target, find) == Raise(find(source, target).error)
  {
  }

  /** The count guard lets 3 correspondences through to `findHomography`,
      although its message demands at least 4: the outcome is whatever
      OpenCV does with them (it may raise or return `None`), never the guard's own
      `ValueError`, which the intended constructor gives. */
  lemma ThreePointsPassTheGuard(find: FindHomography)
    ensures NewViewTransformer(ThreePoints(), ThreePoints(), find) ==
      match find(ThreePoints(), ThreePoints())
      case Raise(e) => Raise(e)
      case Ok(m) => Ok(ViewTransformer(m))
    ensures NewViewTransformerChecked(ThreePoints(), ThreePoints(), find) == Raise(ValueError(TooFewPoints))
  {
  }

  function ThreePoints(): (a: Array2)
    ensures a.WellShaped() && a.cols == 2 && |a.rows| == 3
  {
    PointsArray([Point(0.0, 0.0), Point(1.0, 0.0), Point(0.0, 1.0)])
  }

  /** The constructor as its message intends: fewer than 4 points are rejected. */
  function NewViewTransformerChecked(source: Array2, target: Array2, find: FindHomography): (r: Result<ViewTransformer>)
    ensures r.Ok? ==> source.Shape() == target.Shape() && source.cols == 2 && |source.rows| >= 4
    ensures source.Shape() == target.Shape() && source.cols == 2 && |source.rows| < 4 ==>
      r == Raise(ValueError(TooFewPoints))
  {
    if source.Shape() != target.Shape() then Raise(ValueError(ShapeMismatch))
    else if source.cols != 2 then Raise(ValueError(NotTwoDimensional))
    else if |source.rows| < 4 then Raise(ValueError(TooFewPoints))
    else
      match find(source, target)
      case Raise(e) => Raise(e)
      case Ok(m) => Ok(ViewTransformer(m))
  }

  /** With 4 or more points, the only counts the calibration code ever passes,
      the two constructors coincide. */
  lemma CheckedAgreesFromFourPoints(source: Array2, target: Array2, find: FindHomography)
    requires |source.rows| >= 4
    ensures NewViewTransformerChecked(source, target, find) == NewViewTransformer(source, target, find)
  {
  }

  /** `transform_points`: the empty-input early return comes before the
      matrix check, then the matrix check, then the column check; each point
      is mapped independently. */
  function TransformPoints(vt: ViewTransformer, points: Array2, project: Projection): (r: Result<seq<Point>>)
    requires points.WellShaped()
    ensures r.Ok? && points.Size() != 0 ==> vt.m.Some? && points.cols == 2 && |r.value| == |points.rows|
    ensures r.Ok? && points.Size() != 0 ==> forall i :: 0 <= i < |points.rows| ==>
      r.value[i] == project(vt.m.value, points.rows[i][0], points.rows[i][1])
  {
    if points.Size() == 0 then Ok([])
    else if vt.m.None? then Raise(RuntimeError(NotComputed))
    else if points.cols != 2 then Raise(ValueError(PointsNotTwoDimensional))
    else Ok(seq(|points.rows|, i requires 0 <= i < |points.rows| =>
                  project(vt.m.value, points.rows[i][0], points.rows[i][1])))
  }

  /** The guards of `transform_points`: empty input succeeds with an empty
      result even without a matrix; otherwise a missing matrix is a
      RuntimeError and a non-2-column input a ValueError. */
  lemma TransformPointsGuards(vt: ViewTransformer, points: Array2, project: Projection)
    requires points.WellShaped()
    ensures points.Size() == 0 ==> TransformPoints(vt, points, project) == Ok([])
    ensures points.Size() != 0 && vt.m.None? ==>
      TransformPoints(vt, points, project) == Raise(RuntimeError(NotComputed))
    ensures points.Size() != 0 && vt.m.Some? && points.cols != 2 ==>
      TransformPoints(vt, points, project) == Raise(ValueError(PointsNotTwoDimensional))
    ensures TransformPoints(vt, points, project).Ok? <==>
      points.Size() == 0 || (vt.m.Some? && points.cols == 2)
  {
  }

  /** On a list of points, the transform keeps the count and maps each point
      by the projection; transforming a concatenation is concatenating the
      transforms (the batch call is pointwise). */
  lemma TransformPointListIsPointwise(vt: ViewTransformer, a: seq<Point>, b: seq<Point>, project: Projection)
    requires vt.m.Some?
    ensures TransformPoints(vt, PointsArray(a + b), project).Ok?
    ensures TransformPoints(vt, PointsArray(a + b), project).value ==
      TransformPoints(vt, PointsArray(a), project).value + TransformPoints(vt, PointsArray(b), project).value
  {
    var ab := TransformPoints(vt, PointsArray(a + b), project).value;
    var ra := TransformPoints(vt, PointsArray(a), project).value;
    var rb := TransformPoints(vt, PointsArray(b), project).value;
    assert |ab| == |a + b|;
    forall i | 0 <= i < |ab| ensures ab[i] == (ra + rb)[i] {
      if i < |a| {
        assert (a + b)[i] == a[i];
      } else {
        assert (a + b)[i] == b[i - |a|];
      }
    }
  }

  /** `transform_image`: the matrix check comes first, then the rank check. */
  function TransformImage(vt: ViewTransformer, image: Raster, resolution: (int, int), warp: Warp): (r: Result<Raster>)
    ensures vt.m.None? ==> r == Raise(RuntimeError(NotComputed))
    ensures vt.m.Some? && |image.shape| != 2 && |image.shape| != 3 ==> r == Raise(ValueError(NotAnImage))
    ensures r.Ok? <==> vt.m.Some? && |image.shape| in {2, 3}
    ensures r.Ok? ==> r.value == warp(image, vt.m.value, resolution)
  {
    if vt.m.None? then Raise(RuntimeError(NotComputed))
    else if |image.shape| !in {2, 3} then Raise(ValueError(NotAnImage))
    else Ok(warp(image, vt.m.value, resolution))
  }
}
