/** The geometry of a regulation football pitch (`SoccerPitchConfiguration`):
    integer dimensions in centimetres, the 32 labelled vertices derived from
    them, and the 1-indexed edge list that the pitch drawing connects. */
module Pitch {
  import opened Common

  datatype PitchConfiguration = PitchConfiguration(
    width: int,
    length: int,
    penaltyBoxWidth: int,
    penaltyBoxLength: int,
    goalBoxWidth: int,
    goalBoxLength: int,
    centreCircleRadius: int,
    penaltySpotDistance: int,
    penaltyArcRadius: int)

  /** The dataclass defaults. */
  const DefaultPitch := PitchConfiguration(6800, 10500, 4032, 1650, 1832, 550, 915, 1100, 915)

  /** The vertex list, recomputed from the dimensions on every access; Python's
      `/` is true division, so coordinates are reals. Vertex k is at index k - 1. */
  function Vertices(c: PitchConfiguration): (v: seq<Point>)
    ensures |v| == 32
  {
    var w := c.width as real;
    var l := c.length as real;
    var halfWidth := w / 2.0;
    var halfLength := l / 2.0;
    var pbw := c.penaltyBoxWidth as real;
    var gbw := c.goalBoxWidth as real;
    var pbl := c.penaltyBoxLength as real;
    var gbl := c.goalBoxLength as real;
    var spot := c.penaltySpotDistance as real;
    var r := c.centreCircleRadius as real;
    [
      Point(0.0, 0.0),                         // 1
      Point(0.0, (w - pbw) / 2.0),             // 2
      Point(0.0, (w - gbw) / 2.0),             // 3
      Point(0.0, (w + gbw) / 2.0),             // 4
      Point(0.0, (w + pbw) / 2.0),             // 5
      Point(0.0, w),                           // 6
      Point(gbl, (w - gbw) / 2.0),             // 7
      Point(gbl, (w + gbw) / 2.0),             // 8
      Point(spot, halfWidth),                  // 9
      Point(pbl, (w - pbw) / 2.0),             // 10
      Point(pbl, (w - gbw) / 2.0),             // 11
      Point(pbl, (w + gbw) / 2.0),             // 12
      Point(pbl, (w + pbw) / 2.0),             // 13
      Point(halfLength, 0.0),                  // 14
      Point(halfLength, halfWidth - r),        // 15
      Point(halfLength, halfWidth + r),        // 16
      Point(halfLength, w),                    // 17
      Point(l - pbl, (w - pbw) / 2.0),         // 18
      Point(l - pbl, (w - gbw) / 2.0),         // 19
      Point(l - pbl, (w + gbw) / 2.0),         // 20
      Point(l - pbl, (w + pbw) / 2.0),         // 21
      Point(l - spot, halfWidth),              // 22
      Point(l - gbl, (w - gbw) / 2.0),         // 23
      Point(l - gbl, (w + gbw) / 2.0),         // 24
      Point(l, 0.0),                           // 25
      Point(l, (w - pbw) / 2.0),               // 26
      Point(l, (w - gbw) / 2.0),               // 27
      Point(l, (w + gbw) / 2.0),               // 28
      Point(l, (w + pbw) / 2.0),               // 29
      Point(l, w),                             // 30
      Point(halfLength - r, halfWidth),        // 31
      Point(halfLength + r, halfWidth)         // 32
    ]
  }

  /** The pitch markings as 1-indexed pairs of vertex numbers. */
  const Edges: seq<(int, int)> := [
    (1, 2), (2, 3), (3, 4), (4, 5), (5, 6),
    (7, 8),
    (10, 11), (11, 12), (12, 13),
    (14, 15), (15, 16), (16, 17),
    (18, 19), (19, 20), (20, 21),
    (23, 24),
    (25, 26), (26, 27), (27, 28), (28, 29), (29, 30),
    (1, 14), (2, 10), (3, 7), (4, 8), (5, 13), (6, 17),
    (14, 25), (18, 26), (23, 27), (24, 28), (21, 29), (17, 30)
  ]

  /** Keypoint labels, in the keypoint model's order (not vertex order). */
  const Labels: seq<string> := [
    "01", "02", "03", "04", "05", "06", "07", "08", "09", "10",
    "11", "12", "13", "15", "16", "17", "18", "20", "21", "22",
    "23", "24", "25", "26", "27", "28", "29", "30", "31", "32",
    "14", "19"
  ]

  const LeftHalfColor := "#FF1493"
  const CentreColor := "#00BFFF"
  const RightHalfColor := "#FF6347"

  const Colors: seq<string> := [
    LeftHalfColor, LeftHalfColor, LeftHalfColor, LeftHalfColor, LeftHalfColor, LeftHalfColor,
    LeftHalfColor, LeftHalfColor, LeftHalfColor, LeftHalfColor, LeftHalfColor, LeftHalfColor,
    LeftHalfColor, CentreColor, CentreColor, CentreColor, CentreColor, RightHalfColor,
    RightHalfColor, RightHalfColor, RightHalfColor, RightHalfColor, RightHalfColor, RightHalfColor,
    RightHalfColor, RightHalfColor, RightHalfColor, RightHalfColor, RightHalfColor, RightHalfColor,
    CentreColor, CentreColor
  ]

  /** The per-vertex lists all have one entry per vertex. */
  lemma TablesHaveOneEntryPerVertex(c: PitchConfiguration)
    ensures |Vertices(c)| == |Labels| == |Colors| == 32
  {
  }

  /** Vertices 1, 6, 25 and 30 are the four corners of the field. */
  lemma Corners(c: PitchConfiguration)
    ensures Vertices(c)[0] == Point(0.0, 0.0)
    ensures Vertices(c)[5] == Point(0.0, c.width as real)
    ensures Vertices(c)[24] == Point(c.length as real, 0.0)
    ensures Vertices(c)[29] == Point(c.length as real, c.width as real)
  {
  }

  /** For each vertex index, the index of its mirror image across the halfway line
      (vertices 14-17 lie on the line and are their own images; 31 and 32 swap). */
  const LeftRight: seq<nat> := [
    24, 25, 26, 27, 28, 29, 22, 23, 21, 17, 18, 19, 20, 13, 14, 15,
    16, 9, 10, 11, 12, 8, 6, 7, 0, 1, 2, 3, 4, 5, 31, 30
  ]

  /** For each vertex index, the index of its mirror image across the long axis
      (the line y = width / 2). */
  const TopBottom: seq<nat> := [
    5, 4, 3, 2, 1, 0, 7, 6, 8, 12, 11, 10, 9, 16, 15, 14,
    13, 20, 19, 18, 17, 21, 23, 22, 29, 28, 27, 26, 25, 24, 30, 31
  ]

  ghost predicate IsInvolution(m: seq<nat>)
  {
    |m| == 32 && (forall i :: 0 <= i < 32 ==> m[i] < 32) &&
    forall i :: 0 <= i < 32 ==> m[m[i]] == i
  }

  /** Reflection across the halfway line maps every vertex onto its partner:
      x becomes length - x and y is kept. */
  lemma LeftRightMirror(c: PitchConfiguration)
    ensures IsInvolution(LeftRight)
    ensures forall i :: 0 <= i < 32 ==>
      Vertices(c)[LeftRight[i]] == Point(c.length as real - Vertices(c)[i].x, Vertices(c)[i].y)
  {
    var v := Vertices(c);
    forall i | 0 <= i < 32
      ensures LeftRight[i] < 32 && LeftRight[LeftRight[i]] == i
      ensures v[LeftRight[i]] == Point(c.length as real - v[i].x, v[i].y)
    {
      MirrorCase(c, i);
    }
  }

  lemma MirrorCase(c: PitchConfiguration, i: nat)
    requires i < 32
    ensures LeftRight[i] < 32 && LeftRight[LeftRight[i]] == i
    ensures Vertices(c)[LeftRight[i]] == Point(c.length as real - Vertices(c)[i].x, Vertices(c)[i].y)
  {
    var v := Vertices(c);
    if i < 16 {
      if i < 8 {
        if i < 4 { assert i == 0 || i == 1 || i == 2 || i == 3; }
        else { assert i == 4 || i == 5 || i == 6 || i == 7; }
      } else {
        if i < 12 { assert i == 8 || i == 9 || i == 10 || i == 11; }
        else { assert i == 12 || i == 13 || i == 14 || i == 15; }
      }
    } else {
      if i < 24 {
        if i < 20 { assert i == 16 || i == 17 || i == 18 || i == 19; }
        else { assert i == 20 || i == 21 || i == 22 || i == 23; }
      } else {
        if i < 28 { assert i == 24 || i == 25 || i == 26 || i == 27; }
        else { assert i == 28 || i == 29 || i == 30 || i == 31; }
      }
    }
  }

  /** Reflection across the long axis maps every vertex onto its partner:
      y becomes width - y and x is kept. In particular vertices 2 and 5, and
      3 and 4, have y-values summing to the width. */
  lemma TopBottomMirror(c: PitchConfiguration)
    ensures IsInvolution(TopBottom)
    ensures forall i :: 0 <= i < 32 ==>
      Vertices(c)[TopBottom[i]] == Point(Vertices(c)[i].x, c.width as real - Vertices(c)[i].y)
  {
    var v := Vertices(c);
    forall i | 0 <= i < 32
      ensures TopBottom[i] < 32 && TopBottom[TopBottom[i]] == i
      ensures v[TopBottom[i]] == Point(v[i].x, c.width as real - v[i].y)
    {
      TopBottomCase(c, i);
    }
  }

  lemma TopBottomCase(c: PitchConfiguration, i: nat)
    requires i < 32
    ensures TopBottom[i] < 32 && TopBottom[TopBottom[i]] == i
    ensures Vertices(c)[TopBottom[i]] == Point(Vertices(c)[i].x, c.width as real - Vertices(c)[i].y)
  {
    var v := Vertices(c);
    if i < 16 {
      if i < 8 {
        if i < 4 { assert i == 0 || i == 1 || i == 2 || i == 3; }
        else { assert i == 4 || i == 5 || i == 6 || i == 7; }
      } else {
        if i < 12 { assert i == 8 || i == 9 || i == 10 || i == 11; }
        else { assert i == 12 || i == 13 || i == 14 || i == 15; }
      }
    } else {
      if i < 24 {
        if i < 20 { assert i == 16 || i == 17 || i == 18 || i == 19; }
        else { assert i == 20 || i == 21 || i == 22 || i == 23; }
      } else {
        if i < 28 { assert i == 24 || i == 25 || i == 26 || i == 27; }
        else { assert i == 28 || i == 29 || i == 30 || i == 31; }
      }
    }
  }

  /** The centre-circle points: 15 and 16 sit at half the width minus and plus
      the radius on the halfway line, 31 and 32 at half the length minus and
      plus the radius on the long axis. */
  lemma CentreCircle(c: PitchConfiguration)
    ensures Vertices(c)[14] == Point(c.length as real / 2.0, c.width as real / 2.0 - c.centreCircleRadius as real)
    ensures Vertices(c)[15] == Point(c.length as real / 2.0, c.width as real / 2.0 + c.centreCircleRadius as real)
    ensures Vertices(c)[30] == Point(c.length as real / 2.0 - c.centreCircleRadius as real, c.width as real / 2.0)
    ensures Vertices(c)[31] == Point(c.length as real / 2.0 + c.centreCircleRadius as real, c.width as real / 2.0)
  {
  }

  /** Every edge endpoint is a vertex number 1..32, so `vertices[k - 1]` is in range. */
  lemma EdgesInRange()
    ensures forall e :: e in Edges ==> 1 <= e.0 <= 32 && 1 <= e.1 <= 32
  {
  }

  /** The dimensions under which the pitch is a sensible drawing. */
  predicate PlausibleDimensions(c: PitchConfiguration)
  {
    && 0 <= c.goalBoxWidth <= c.penaltyBoxWidth <= c.width
    && 0 <= c.goalBoxLength <= c.length
    && 0 <= c.penaltyBoxLength <= c.length
    && 0 <= c.penaltySpotDistance <= c.length
    && 0 <= 2 * c.centreCircleRadius <= c.width
    && 2 * c.centreCircleRadius <= c.length
  }

  predicate InField(c: PitchConfiguration, p: Point)
  {
    0.0 <= p.x <= c.length as real && 0.0 <= p.y <= c.width as real
  }

  /** Under plausible dimensions every vertex lies on the field [0, length] x [0, width]. */
  lemma VerticesInField(c: PitchConfiguration)
    requires PlausibleDimensions(c)
    ensures forall i :: 0 <= i < 32 ==> InField(c, Vertices(c)[i])
  {
    var v := Vertices(c);
    forall i | 0 <= i < 32 ensures InField(c, v[i]) {
      InFieldCase(c, i);
    }
  }

  lemma InFieldCase(c: PitchConfiguration, i: nat)
    requires PlausibleDimensions(c) && i < 32
    ensures InField(c, Vertices(c)[i])
  {
    var v := Vertices(c);
    if i < 16 {
      if i < 8 {
        if i < 4 { assert i == 0 || i == 1 || i == 2 || i == 3; }
        else { assert i == 4 || i == 5 || i == 6 || i == 7; }
      } else {
        if i < 12 { assert i == 8 || i == 9 || i == 10 || i == 11; }
        else { assert i == 12 || i == 13 || i == 14 || i == 15; }
      }
    } else {
      if i < 24 {
        if i < 20 { assert i == 16 || i == 17 || i == 18 || i == 19; }
        else { assert i == 20 || i == 21 || i == 22 || i == 23; }
      } else {
        if i < 28 { assert i == 24 || i == 25 || i == 26 || i == 27; }
        else { assert i == 28 || i == 29 || i == 30 || i == 31; }
      }
    }
  }

  lemma DefaultIsPlausible()
    ensures PlausibleDimensions(DefaultPitch)
  {
  }
}
