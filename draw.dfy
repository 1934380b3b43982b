/** The pitch drawing helpers of `utils/Draw.py`. An image is a drawing log:
    a background plus the sequence of drawing commands issued on it, in
    order. Each OpenCV primitive (`cv2.line`, `cv2.circle`, `cv2.ellipse`)
    appends one command. */
module Draw {
  import opened Common
  import opened Pitch

  /** BGR channel order, as OpenCV takes colours. */
  datatype Bgr = Bgr(b: int, g: int, r: int)

  /** `sv.Color`, stored as RGB. */
  datatype Color = Color(r: int, g: int, b: int)
  {
    function AsBgr(): Bgr { Bgr(b, g, r) }
  }

  const White := Color(255, 255, 255)
  const Black := Color(0, 0, 0)
  const Red := Color(255, 0, 0)
  const Green := Color(0, 255, 0)
  const Blue := Color(0, 0, 255)
  const Yellow := Color(255, 255, 0)
  const PitchGreen := Color(34, 139, 34)

  type Pixel = (int, int)

  /** supervision's label anchors used by the annotators. */
  datatype Anchor = TopCenter | BottomCenter

  datatype DrawOp =
      // OpenCV primitives; a thickness of -1 fills the shape.
    | Line(from: Pixel, to: Pixel, color: Bgr, thickness: int)
    | Circle(center: Pixel, radius: int, color: Bgr, thickness: int)
    | Arc(center: Pixel, radius: int, startAngle: int, endAngle: int, color: Bgr, thickness: int)
    | Rectangle(corner: Pixel, opposite: Pixel, color: Bgr, thickness: int)
    | Text(text: string, origin: Pixel, scale: real, color: Bgr, thickness: int)
      // supervision annotators, one command per detection.
    | Dot(box: Box, radius: int, tint: Color)
    | Ring(box: Box, tint: Color, thickness: int)
    | Caption(box: Box, text: string, anchor: Anchor, scale: real)

  /** What an image was made from before it was drawn on. */
  datatype Base =
    | Blank(height: int, width: int, fill: Bgr)
    | Footage(frame: Frame)
    | Resized(source: Canvas, width: int, height: int)

  datatype Canvas = Canvas(base: Base, ops: seq<DrawOp>)
  {
    /** `image.shape[0]` and `image.shape[1]`: drawing never changes them. */
    function Height(): int
    {
      match base
      case Blank(h, _, _) => h
      case Footage(f) => f.height
      case Resized(_, _, h) => h
    }

    function Width(): int
    {
      match base
      case Blank(_, w, _) => w
      case Footage(f) => f.width
      case Resized(_, w, _) => w
    }
  }

  /** The canvas after `more` has been drawn on it. */
  function Drawn(c: Canvas, more: seq<DrawOp>): Canvas { Canvas(c.base, c.ops + more) }

  /** Drawing in two steps is drawing everything in order. */
  lemma DrawnTwice(c: Canvas, a: seq<DrawOp>, b: seq<DrawOp>)
    ensures Drawn(Drawn(c, a), b) == Drawn(c, a + b)
  {
    assert (c.ops + a) + b == c.ops + (a + b);
  }

  /** The keyword arguments of `draw_pitch`. */
  datatype PitchStyle = PitchStyle(
    background: Color, lineColor: Color, padding: int, lineThickness: int,
    pointRadius: int, scale: real, width: int, height: int)

  const DefaultStyle := PitchStyle(PitchGreen, White, 50, 2, 4, 0.1, 1152, 756)

  /** A pitch coordinate in centimetres as an image pixel: `int(v * scale) + padding`. */
  function ToPixel(p: Point, scale: real, padding: int): Pixel
  {
    (Trunc(p.x * scale) + padding, Trunc(p.y * scale) + padding)
  }

  // ---------------------------------------------------------------------
  // draw_pitch
  // ---------------------------------------------------------------------

  /** The line for edge number `k` of the edge list: from vertex `s` to vertex `e`,
      looked up 1-indexed as `vertices[s - 1]` and `vertices[e - 1]`. */
  function EdgeLine(c: PitchConfiguration, st: PitchStyle, k: nat): DrawOp
    requires k < |Edges|
  {
    EdgesInRange();
    var v := Vertices(c);
    Line(ToPixel(v[Edges[k].0 - 1], st.scale, st.padding),
         ToPixel(v[Edges[k].1 - 1], st.scale, st.padding),
         st.lineColor.AsBgr(), st.lineThickness)
  }

  function EdgeLines(c: PitchConfiguration, st: PitchStyle): seq<DrawOp>
  {
    seq(|Edges|, k requires 0 <= k < |Edges| => EdgeLine(c, st, k))
  }

  /** The centre circle, the two penalty arcs and the two penalty spots. */
  function PitchMarkings(c: PitchConfiguration, st: PitchStyle): seq<DrawOp>
  {
    var line := st.lineColor.AsBgr();
    var midY := Trunc(c.width as real * st.scale / 2.0) + st.padding;
    var centre := (Trunc(c.length as real * st.scale / 2.0) + st.padding, midY);
    var leftSpot := (Trunc(c.penaltySpotDistance as real * st.scale) + st.padding, midY);
    var rightSpot := (Trunc(c.length as real * st.scale) - Trunc(c.penaltySpotDistance as real * st.scale) + st.padding, midY);
    var arcRadius := Trunc(c.penaltyArcRadius as real * st.scale);
    [ Circle(centre, Trunc(c.centreCircleRadius as real * st.scale), line, st.lineThickness),
      Arc(leftSpot, arcRadius, -50, 50, line, st.lineThickness),
      Arc(rightSpot, arcRadius, 130, 230, line, st.lineThickness),
      Circle(leftSpot, st.pointRadius, line, -1),
      Circle(rightSpot, st.pointRadius, line, -1) ]
  }

  function FreshPitch(st: PitchStyle): Canvas
  {
    Canvas(Blank(st.height, st.width, st.background.AsBgr()), [])
  }

  /** The image `draw_pitch(config, ...)` returns. */
  function PitchPicture(c: PitchConfiguration, st: PitchStyle): Canvas
  {
    Drawn(FreshPitch(st), EdgeLines(c, st) + PitchMarkings(c, st))
  }

  /** `draw_pitch` draws exactly one line per edge, in edge-list order, from
      the scaled vertex `vertices[s - 1]` to `vertices[e - 1]`, and then the
      five fixed markings, on a fresh background of the requested size. */
  lemma PitchPictureLayout(c: PitchConfiguration, st: PitchStyle)
    ensures PitchPicture(c, st).base == Blank(st.height, st.width, st.background.AsBgr())
    ensures |PitchPicture(c, st).ops| == |Edges| + 5
    ensures forall k :: 0 <= k < |Edges| ==>
      1 <= Edges[k].0 <= 32 && 1 <= Edges[k].1 <= 32 &&
      PitchPicture(c, st).ops[k] == Line(ToPixel(Vertices(c)[Edges[k].0 - 1], st.scale, st.padding),
                                         ToPixel(Vertices(c)[Edges[k].1 - 1], st.scale, st.padding),
                                         st.lineColor.AsBgr(), st.lineThickness)
  {
    EdgesInRange();
  }

  /** One pass of the edge loop of `draw_pitch`: look up both ends of edge
      `k` and draw the line between them. */
  method DrawEdge(pitch: Canvas, c: PitchConfiguration, st: PitchStyle, v: seq<Point>, k: nat) returns (out: Canvas)
    requires k < |Edges| && v == Vertices(c)
    ensures out == Drawn(pitch, [EdgeLine(c, st, k)])
  {
    EdgesInRange();
    assert Edges[k] in Edges;
    var (startIdx, endIdx) := Edges[k];
    var start := v[startIdx - 1];
    var end := v[endIdx - 1];
    out := Drawn(pitch, [Line(ToPixel(start, st.scale, st.padding), ToPixel(end, st.scale, st.padding),
                              st.lineColor.AsBgr(), st.lineThickness)]);
  }

  method DrawPitch(c: PitchConfiguration, st: PitchStyle) returns (pitch: Canvas)
    ensures pitch == PitchPicture(c, st)
  {
    pitch := FreshPitch(st);
    var v := Vertices(c);
    var lines := EdgeLines(c, st);
    for k := 0 to |Edges|
      invariant pitch == Drawn(FreshPitch(st), lines[..k])
    {
      pitch := DrawEdge(pitch, c, st, v, k);
      TakeStep(lines, k);
      DrawnTwice(FreshPitch(st), lines[..k], [lines[k]]);
    }
    assert lines[..|lines|] == lines;
    pitch := Drawn(pitch, PitchMarkings(c, st));
  }

  // ---------------------------------------------------------------------
  // draw_points_on_pitch
  // ---------------------------------------------------------------------

  /** The keyword arguments shared by the point and path helpers. */
  datatype Brush = Brush(thickness: int, padding: int, scale: real)

  const DefaultBrush := Brush(2, 50, 0.1)

  /** The pitch drawn when `pitch=None`: `draw_pitch(config, padding=..., scale=...)`. */
  function BrushPitch(c: PitchConfiguration, brush: Brush): Canvas
  {
    PitchPicture(c, DefaultStyle.(padding := brush.padding, scale := brush.scale))
  }

  /** The canvas a helper draws on: the supplied image, or a fresh pitch. */
  function StartCanvas(c: PitchConfiguration, brush: Brush, pitch: Option<Canvas>): Canvas
  {
    if pitch.Some? then pitch.value else BrushPitch(c, brush)
  }

  /** The `if pitch is None: pitch = draw_pitch(...)` prologue of the point and path helpers. */
  method StartPitch(c: PitchConfiguration, brush: Brush, pitch: Option<Canvas>) returns (out: Canvas)
    ensures out == StartCanvas(c, brush, pitch)
  {
    if pitch.None? {
      out := DrawPitch(c, DefaultStyle.(padding := brush.padding, scale := brush.scale));
    } else {
      out := pitch.value;
    }
  }

  /** The two circles drawn for one point: a filled face, then its edge. */
  function PointMarks(p: Point, face: Color, edge: Color, radius: int, brush: Brush): seq<DrawOp>
  {
    var center := ToPixel(p, brush.scale, brush.padding);
    [Circle(center, radius, face.AsBgr(), -1), Circle(center, radius, edge.AsBgr(), brush.thickness)]
  }

  function PointsMarks(xy: seq<Point>, face: Color, edge: Color, radius: int, brush: Brush): seq<DrawOp>
  {
    if xy == [] then []
    else PointsMarks(xy[..|xy| - 1], face, edge, radius, brush) + PointMarks(xy[|xy| - 1], face, edge, radius, brush)
  }

  /** Two circles per point, in input order: command 2i fills point i and
      command 2i + 1 draws its edge. */
  lemma {:induction false} PointsMarksLayout(xy: seq<Point>, face: Color, edge: Color, radius: int, brush: Brush)
    ensures |PointsMarks(xy, face, edge, radius, brush)| == 2 * |xy|
    ensures forall i :: 0 <= i < |xy| ==>
      PointsMarks(xy, face, edge, radius, brush)[2 * i] ==
        Circle(ToPixel(xy[i], brush.scale, brush.padding), radius, face.AsBgr(), -1) &&
      PointsMarks(xy, face, edge, radius, brush)[2 * i + 1] ==
        Circle(ToPixel(xy[i], brush.scale, brush.padding), radius, edge.AsBgr(), brush.thickness)
  {
    if xy != [] {
      var init := xy[..|xy| - 1];
      PointsMarksLayout(init, face, edge, radius, brush);
      forall i | 0 <= i < |xy| - 1 ensures xy[i] == init[i] { }
    }
  }

  /** A single point gets exactly its two circles. */
  lemma PointsMarksOne(p: Point, face: Color, edge: Color, radius: int, brush: Brush)
    ensures PointsMarks([p], face, edge, radius, brush) == PointMarks(p, face, edge, radius, brush)
  {
    assert [p][..0] == [];
  }

  /** `draw_points_on_pitch`: the marks for each point, appended to the
      supplied pitch, or to a freshly drawn one when `pitch` is None. */
  method DrawPointsOnPitch(c: PitchConfiguration, xy: seq<Point>, face: Color, edge: Color, radius: int,
                           brush: Brush, pitch: Option<Canvas>) returns (out: Canvas)
    ensures out == Drawn(StartCanvas(c, brush, pitch), PointsMarks(xy, face, edge, radius, brush))
  {
    out := StartPitch(c, brush, pitch);
    ghost var start := out;
    for i := 0 to |xy|
      invariant out == Drawn(start, PointsMarks(xy[..i], face, edge, radius, brush))
    {
      var center := ToPixel(xy[i], brush.scale, brush.padding);
      out := Drawn(out, [Circle(center, radius, face.AsBgr(), -1)]);
      out := Drawn(out, [Circle(center, radius, edge.AsBgr(), brush.thickness)]);
      assert xy[..i + 1][..i] == xy[..i];
    }
    assert xy[..|xy|] == xy;
  }

  // ---------------------------------------------------------------------
  // draw_paths_on_pitch
  // ---------------------------------------------------------------------

  /** `s * k` on a Python list. */
  function Repeat<T>(s: seq<T>, k: nat): (r: seq<T>)
    ensures |r| == k * |s|
  {
    if k == 0 then [] else s + Repeat(s, k - 1)
  }

  /** `s * k` starts with `s` and then repeats itself every `|s|` elements. */
  lemma {:induction false} RepeatAt<T>(s: seq<T>, k: nat)
    ensures |Repeat(s, k)| == k * |s|
    ensures forall i :: 0 <= i < |s| && 0 < k ==> Repeat(s, k)[i] == s[i]
    ensures forall i :: |s| <= i < k * |s| ==> Repeat(s, k)[i] == Repeat(s, k)[i - |s|]
  {
    if k > 0 {
      RepeatAt(s, k - 1);
      forall i | |s| <= i < k * |s| ensures Repeat(s, k)[i] == Repeat(s, k)[i - |s|] {
        if i - |s| >= |s| {
          assert Repeat(s, k)[i - |s|] == Repeat(s, k - 1)[i - 2 * |s|];
        } else {
          assert Repeat(s, k)[i - |s|] == s[i - |s|];
        }
      }
    }
  }

  lemma {:induction false} RepeatOne<T>(x: T, k: nat)
    ensures forall i :: 0 <= i < k ==> Repeat([x], k)[i] == x
  {
    if k > 0 {
      RepeatOne(x, k - 1);
    }
  }

  /** The colour normalisation of `draw_paths_on_pitch`. */
  function NormalizeColors(colors: Option<seq<Color>>, n: nat): (r: Result<seq<Color>>)
    ensures r.Ok? ==> n <= |r.value|
  {
    if colors.None? then Ok(Repeat([White], n))
    else if |colors.value| < n then
      if |colors.value| == 0 then Raise(ZeroDivisionError)
      else
        var k := |colors.value|;
        assert n < (n / k + 1) * k;
        Ok(Repeat(colors.value, n / k + 1)[..n])
    else Ok(colors.value)
  }

  /** No colours means white for every path; a shorter list is repeated
      cyclically and cut to one colour per path; a list at least as long is
      left as it is; an empty list with at least one path divides by zero. */
  lemma NormalizeColorsCases(colors: Option<seq<Color>>, n: nat)
    ensures colors.None? ==>
      NormalizeColors(colors, n).Ok? && |NormalizeColors(colors, n).value| == n &&
      forall i :: 0 <= i < n ==> NormalizeColors(colors, n).value[i] == White
    ensures colors.Some? && 0 < |colors.value| < n ==>
      NormalizeColors(colors, n).Ok? && |NormalizeColors(colors, n).value| == n &&
      (forall i :: 0 <= i < |colors.value| ==> NormalizeColors(colors, n).value[i] == colors.value[i]) &&
      forall i :: |colors.value| <= i < n ==>
        NormalizeColors(colors, n).value[i] == NormalizeColors(colors, n).value[i - |colors.value|]
    ensures colors.Some? && n <= |colors.value| ==> NormalizeColors(colors, n) == Ok(colors.value)
    ensures colors.Some? && colors.value == [] && 0 < n ==> NormalizeColors(colors, n) == Raise(ZeroDivisionError)
  {
    if colors.None? {
      RepeatOne(White, n);
    } else if 0 < |colors.value| < n {
      var k := |colors.value|;
      RepeatAt(colors.value, n / k + 1);
      assert n < (n / k + 1) * k;
    }
  }

  /** The segments of one path: none for fewer than 2 points, otherwise one
      line between each pair of consecutive scaled points. */
  function PathLines(path: seq<Point>, color: Color, brush: Brush): (ops: seq<DrawOp>)
  {
    if |path| < 2 then []
    else seq(|path| - 1, j requires 0 <= j < |path| - 1 =>
               Line(ToPixel(path[j], brush.scale, brush.padding), ToPixel(path[j + 1], brush.scale, brush.padding),
                    color.AsBgr(), brush.thickness))
  }

  function PathsLines(paths: seq<seq<Point>>, colors: seq<Color>, brush: Brush): seq<DrawOp>
    requires |paths| <= |colors|
  {
    if paths == [] then []
    else PathsLines(paths[..|paths| - 1], colors, brush) + PathLines(paths[|paths| - 1], colors[|paths| - 1], brush)
  }

  /** A path of n >= 2 points becomes n - 1 segments joining consecutive
      points; a shorter one draws nothing. */
  lemma PathLinesCount(path: seq<Point>, color: Color, brush: Brush)
    ensures |path| < 2 ==> PathLines(path, color, brush) == []
    ensures |path| >= 2 ==> |PathLines(path, color, brush)| == |path| - 1
    ensures forall j :: 0 <= j < |path| - 1 ==>
      PathLines(path, color, brush)[j] ==
        Line(ToPixel(path[j], brush.scale, brush.padding), ToPixel(path[j + 1], brush.scale, brush.padding),
             color.AsBgr(), brush.thickness)
  {
  }

  /** The whole overlay has as many segments as the paths have points beyond
      their first, counting only paths of at least 2 points. */
  function SegmentCount(paths: seq<seq<Point>>): nat
  {
    if paths == [] then 0
    else SegmentCount(paths[..|paths| - 1]) + (if |paths[|paths| - 1]| < 2 then 0 else |paths[|paths| - 1]| - 1)
  }

  lemma {:induction false} PathsLinesCount(paths: seq<seq<Point>>, colors: seq<Color>, brush: Brush)
    requires |paths| <= |colors|
    ensures |PathsLines(paths, colors, brush)| == SegmentCount(paths)
  {
    if paths != [] {
      PathsLinesCount(paths[..|paths| - 1], colors, brush);
    }
  }

  /** One path with one colour: `draw_paths_on_pitch(paths=[path], colors=[color])`
      draws that path's segments in that colour. */
  lemma PathsLinesOne(path: seq<Point>, color: Color, brush: Brush)
    ensures NormalizeColors(Some([color]), 1) == Ok([color])
    ensures PathsLines([path], [color], brush) == PathLines(path, color, brush)
  {
    assert [path][..0] == [];
  }

  /** Drawing one more path adds that path's segments after the others. */
  lemma PathsLinesStep(paths: seq<seq<Point>>, colors: seq<Color>, brush: Brush, i: nat)
    requires i < |paths| <= |colors|
    ensures PathsLines(paths[..i + 1], colors, brush) ==
            PathsLines(paths[..i], colors, brush) + PathLines(paths[i], colors[i], brush)
  {
    assert paths[..i + 1][..i] == paths[..i];
  }

  /** The scaled pixel of every point of a path, in order. */
  method ScalePath(path: seq<Point>, brush: Brush) returns (scaled: seq<Pixel>)
    ensures |scaled| == |path|
    ensures forall t :: 0 <= t < |path| ==> scaled[t] == ToPixel(path[t], brush.scale, brush.padding)
  {
    scaled := [];
    for j := 0 to |path|
      invariant |scaled| == j
      invariant forall t :: 0 <= t < j ==> scaled[t] == ToPixel(path[t], brush.scale, brush.padding)
    {
      scaled := scaled + [ToPixel(path[j], brush.scale, brush.padding)];
    }
  }

  /** One iteration of the outer loop of `draw_paths_on_pitch`. */
  method DrawPath(canvas: Canvas, path: seq<Point>, color: Color, brush: Brush) returns (out: Canvas)
    ensures out == Drawn(canvas, PathLines(path, color, brush))
  {
    out := canvas;
    if |path| < 2 {
      assert canvas.ops + [] == canvas.ops;
      return;
    }
    var scaled := ScalePath(path, brush);
    ghost var lines := PathLines(path, color, brush);
    for j := 0 to |scaled| - 1
      invariant out == Drawn(canvas, lines[..j])
    {
      out := Drawn(out, [Line(scaled[j], scaled[j + 1], color.AsBgr(), brush.thickness)]);
      TakeStep(lines, j);
      DrawnTwice(canvas, lines[..j], [lines[j]]);
    }
    assert lines[..|scaled| - 1] == lines;
  }

  /** `draw_paths_on_pitch`: an empty colour list for a non-empty path list
      divides by zero; otherwise each path's segments, in path order, in its
      normalised colour, on the supplied pitch or a fresh one, which is
      returned. */
  method DrawPathsOnPitch(c: PitchConfiguration, paths: seq<seq<Point>>, colors: Option<seq<Color>>,
                          brush: Brush, pitch: Option<Canvas>) returns (r: Result<Canvas>)
    ensures NormalizeColors(colors, |paths|).Raise? ==> r == Raise(NormalizeColors(colors, |paths|).error)
    ensures NormalizeColors(colors, |paths|).Ok? ==>
      r == Ok(Drawn(StartCanvas(c, brush, pitch), PathsLines(paths, NormalizeColors(colors, |paths|).value, brush)))
  {
    var out: Canvas;
    out := StartPitch(c, brush, pitch);
    var normalized := NormalizeColors(colors, |paths|);
    if normalized.Raise? {
      return Raise(normalized.error);
    }
    var palette := normalized.value;
    ghost var start := out;
    for i := 0 to |paths|
      invariant out == Drawn(start, PathsLines(paths[..i], palette, brush))
    {
      PathsLinesStep(paths, palette, brush, i);
      DrawnTwice(start, PathsLines(paths[..i], palette, brush), PathLines(paths[i], palette[i], brush));
      out := DrawPath(out, paths[i], palette[i], brush);
    }
    assert paths[..|paths|] == paths;
    r := Ok(out);
  }
}
