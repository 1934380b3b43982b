/** `FrameAnnotator`: which marks, colours and labels go on the video frame.
    Every annotator works on a copy of the frame, so each one is a function
    from the detections to the drawing commands it appends. */
module Annotation {
  import opened Common
  import opened Draw
  import opened Scene

  /** The text size of the shared `sv.LabelAnnotator` (top-centre, scale 0.5). */
  const LabelScale := 0.5
  /** The text size of the ball's label annotator (bottom-centre, scale 0.1). */
  const BallLabelScale := 0.1
  const DotRadius := 8

  /** `f"{prefix}:{tracker_id}"`. */
  function TrackLabel(prefix: string, trackerId: int): string
  {
    prefix + ":" + IntToString(trackerId)
  }

  /** Under one prefix, distinct track ids get distinct labels. */
  lemma TrackLabelInjective(prefix: string, a: int, b: int)
    ensures TrackLabel(prefix, a) == TrackLabel(prefix, b) ==> a == b
  {
    if TrackLabel(prefix, a) == TrackLabel(prefix, b) {
      var n := |prefix| + 1;
      assert TrackLabel(prefix, a)[n..] == IntToString(a);
      assert TrackLabel(prefix, b)[n..] == IntToString(b);
      IntToStringInjective(a, b);
    }
  }

  /** `_annotate_with_dot_and_label`: a dot at the bottom centre of every box,
      then a `prefix:id` caption above every box; nothing for no detections. */
  function DotAndLabel(dets: seq<Detection>, dot: Color, prefix: string): (ops: seq<DrawOp>)
  {
    if |dets| > 0 then
      seq(|dets|, i requires 0 <= i < |dets| => Dot(dets[i].box, DotRadius, dot)) +
      seq(|dets|, i requires 0 <= i < |dets| => Caption(dets[i].box, TrackLabel(prefix, dets[i].trackerId), TopCenter, LabelScale))
    else []
  }

  lemma DotAndLabelLayout(dets: seq<Detection>, dot: Color, prefix: string)
    ensures |DotAndLabel(dets, dot, prefix)| == 2 * |dets|
    ensures forall i :: 0 <= i < |dets| ==>
      DotAndLabel(dets, dot, prefix)[i] == Dot(dets[i].box, DotRadius, dot) &&
      DotAndLabel(dets, dot, prefix)[|dets| + i] ==
        Caption(dets[i].box, TrackLabel(prefix, dets[i].trackerId), TopCenter, LabelScale)
  {
  }

  function AnnotatePlayers(dets: seq<Detection>): seq<DrawOp> { DotAndLabel(dets, Blue, "P") }
  function AnnotateGoalkeepers(dets: seq<Detection>): seq<DrawOp> { DotAndLabel(dets, Green, "GK") }
  function AnnotateReferees(dets: seq<Detection>): seq<DrawOp> { DotAndLabel(dets, Yellow, "R") }

  /** `annotate_ball`: a red ring and a `Ball:id` caption, drawn only when
      there is exactly one ball detection. */
  function AnnotateBall(dets: seq<Detection>): (ops: seq<DrawOp>)
    ensures ops != [] <==> |dets| == 1
    ensures |dets| == 1 ==> ops == [Ring(dets[0].box, Red, 2),
                                    Caption(dets[0].box, TrackLabel("Ball", dets[0].trackerId), BottomCenter, BallLabelScale)]
  {
    if |dets| == 1 then
      [Ring(dets[0].box, Red, 2), Caption(dets[0].box, TrackLabel("Ball", dets[0].trackerId), BottomCenter, BallLabelScale)]
    else []
  }

  // ---------------------------------------------------------------------
  // Team colours and labels
  // ---------------------------------------------------------------------

  /** A centroid as the BGR tuple `(int(c[2]), int(c[1]), int(c[0]))`. */
  function CentroidBgr(c: Rgb): Bgr { Bgr(Trunc(c.b), Trunc(c.g), Trunc(c.r)) }

  const WhiteBgr := Bgr(255, 255, 255)
  const BlackBgr := Bgr(0, 0, 0)
  /** The fallback tuples of `annotate_jersey_regions`, used as BGR as they stand. */
  const Team0Fallback := Bgr(255, 0, 0)
  const Team1Fallback := Bgr(0, 0, 255)

  /** `team_display_colors`: each known centroid swapped to BGR, a fixed
      colour for a team without one, and white for the unassigned team -1. */
  function TeamDisplayColors(centroids: Option<Centroids>): (m: map<int, Bgr>)
    ensures m.Keys == {0, 1, -1}
    ensures m[-1] == WhiteBgr
    ensures m[0] == if centroids.Some? && centroids.value.team0.Some? then CentroidBgr(centroids.value.team0.value) else Team0Fallback
    ensures m[1] == if centroids.Some? && centroids.value.team1.Some? then CentroidBgr(centroids.value.team1.value) else Team1Fallback
  {
    var known: map<int, Bgr> :=
      if centroids.None? then map[]
      else (if centroids.value.team0.Some? then map[0 := CentroidBgr(centroids.value.team0.value)] else map[]) +
           (if centroids.value.team1.Some? then map[1 := CentroidBgr(centroids.value.team1.value)] else map[]);
    var with0 := if 0 in known then known else known[0 := Team0Fallback];
    var with1 := if 1 in with0 then with0 else with0[1 := Team1Fallback];
    with1[-1 := WhiteBgr]
  }

  /** The outline colour of a player: `team_display_colors.get(team, white)`. */
  function DisplayColor(centroids: Option<Centroids>, team: int): Bgr
  {
    var m := TeamDisplayColors(centroids);
    if team in m then m[team] else WhiteBgr
  }

  /** An unassigned player, or one whose team is neither 0 nor 1, is outlined white. */
  lemma DisplayColorOutsideTeams(centroids: Option<Centroids>, team: int)
    ensures team != 0 && team != 1 ==> DisplayColor(centroids, team) == WhiteBgr
    ensures team == 0 && (centroids.None? || centroids.value.team0.None?) ==> DisplayColor(centroids, team) == Team0Fallback
    ensures team == 1 && (centroids.None? || centroids.value.team1.None?) ==> DisplayColor(centroids, team) == Team1Fallback
  {
  }

  /** `f"T{team_id}"`, or `"T?"` for the unassigned team -1. */
  function TeamLabel(team: int): (s: string)
    ensures s == "T?" <==> team == -1
  {
    if team != -1 then
      var digits := IntToString(team);
      assert digits[0] == '-' || IsDigit(digits[0]);
      assert ("T" + digits)[1] == digits[0];
      "T" + digits
    else "T?"
  }

  /** Distinct teams get distinct labels. */
  lemma TeamLabelInjective(a: int, b: int)
    ensures TeamLabel(a) == TeamLabel(b) ==> a == b
  {
    if TeamLabel(a) == TeamLabel(b) && a != -1 && b != -1 {
      assert TeamLabel(a)[1..] == IntToString(a);
      assert TeamLabel(b)[1..] == IntToString(b);
      IntToStringInjective(a, b);
    }
  }

  /** `f"RGB({int(r)},{int(g)},{int(b)})"`. */
  function RgbText(c: Rgb): string
  {
    "RGB(" + IntToString(Trunc(c.r)) + "," + IntToString(Trunc(c.g)) + "," + IntToString(Trunc(c.b)) + ")"
  }

  /** The marks for one player in `annotate_jersey_regions`, on an image of
      `height` x `width`: the jersey outline when the crop is not empty; the
      team's colour swatch when the team has a centroid and the swatch fits
      below the top edge, and then its RGB text; and the team label above
      the box. */
  function JerseyMarks(d: Detection, height: int, width: int, assignments: map<int, int>,
                       centroids: Option<Centroids>): seq<DrawOp>
  {
    var c := JerseyCrop(d.box, height, width);
    var x1 := Trunc(d.box.x1);
    var y1 := Trunc(d.box.y1);
    var team := TeamOf(assignments, d.trackerId);
    var color := DisplayColor(centroids, team);
    var outline := if c.y2 > c.y1 && c.x2 > c.x1 then [Rectangle((c.x1, c.y1), (c.x2, c.y2), color, 2)] else [];
    var swatch :=
      if centroids.Some? && centroids.value.Of(team).Some? then
        var rgb := centroids.value.Of(team).value;
        (if c.y1 - 25 >= 0 then
           [Rectangle((x1, c.y1 - 25), (x1 + 20, c.y1 - 5), CentroidBgr(rgb), -1),
            Rectangle((x1, c.y1 - 25), (x1 + 20, c.y1 - 5), BlackBgr, 1)]
         else []) +
        [Text(RgbText(rgb), (x1, c.y1 - 30), 0.4, WhiteBgr, 1)]
      else [];
    outline + swatch + [Text(TeamLabel(team), (x1, y1 - 5), 0.6, color, 2)]
  }

  /** What each player's marks contain: they always end with the team
      label, drawn in the team's display colour; the outline leads them
      exactly when the crop is not empty; a team without a centroid gets no
      swatch and no RGB text. */
  lemma JerseyMarksContents(d: Detection, height: int, width: int, assignments: map<int, int>,
                            centroids: Option<Centroids>)
    ensures var ops := JerseyMarks(d, height, width, assignments, centroids);
      var team := TeamOf(assignments, d.trackerId);
      |ops| >= 1 &&
      ops[|ops| - 1] == Text(TeamLabel(team), (Trunc(d.box.x1), Trunc(d.box.y1) - 5), 0.6, DisplayColor(centroids, team), 2) &&
      (ops[0].Rectangle? && ops[0].thickness == 2 <==> JerseyCrop(d.box, height, width).NonEmpty()) &&
      ((centroids.None? || centroids.value.Of(team).None?) ==>
        |ops| == (if JerseyCrop(d.box, height, width).NonEmpty() then 2 else 1))
  {
  }

  /** The jersey overlay: each player's marks, one player after the other. */
  function JerseyRegions(dets: seq<Detection>, height: int, width: int, assignments: map<int, int>,
                         centroids: Option<Centroids>): seq<DrawOp>
  {
    ConcatMap(dets, (d: Detection) => JerseyMarks(d, height, width, assignments, centroids))
  }

  /** `annotate_team_info`: one row per team with a centroid, team 0 first,
      starting at y = 30 and 40 pixels apart. */
  function TeamInfo(centroids: Centroids): seq<DrawOp>
  {
    var first := if centroids.team0.Some? then TeamRow(0, centroids.team0.value, 30) else [];
    var y := if centroids.team0.Some? then 70 else 30;
    var second := if centroids.team1.Some? then TeamRow(1, centroids.team1.value, y) else [];
    first + second
  }

  /** The caption, filled swatch, swatch border and RGB text for one team. */
  function TeamRow(team: int, c: Rgb, y: int): seq<DrawOp>
  {
    [ Text("Team " + IntToString(team) + ":", (10, y), 0.7, WhiteBgr, 2),
      Rectangle((120, y - 20), (170, y - 5), CentroidBgr(c), -1),
      Rectangle((120, y - 20), (170, y - 5), BlackBgr, 2),
      Text(RgbText(c), (180, y), 0.5, WhiteBgr, 1) ]
  }

  /** Four marks per known team, nothing when neither is known, and the
      second team's row moves up to the first row's place when team 0 has
      no centroid. */
  lemma TeamInfoLayout(centroids: Centroids)
    ensures |TeamInfo(centroids)| == 4 * ((if centroids.team0.Some? then 1 else 0) + (if centroids.team1.Some? then 1 else 0))
    ensures centroids.team1.Some? ==>
      TeamInfo(centroids)[|TeamInfo(centroids)| - 4] ==
        Text("Team 1:", (10, if centroids.team0.Some? then 70 else 30), 0.7, WhiteBgr, 2)
  {
  }

  /** `annotate_frame`: on a copy of the frame, the players, then (when the
      jersey analysis is shown and assignments are given) the jersey
      overlay, then goalkeepers, referees, the ball and the team legend. */
  function AnnotateFrame(frame: Canvas, dets: FrameDetections, assignments: Option<map<int, int>>,
                         centroids: Option<Centroids>, showJersey: bool): (out: Canvas)
  {
    var players :=
      if dets.players.Some? then
        AnnotatePlayers(dets.players.value) +
        (if showJersey && assignments.Some? then
           JerseyRegions(dets.players.value, frame.Height(), frame.Width(), assignments.value, centroids)
         else [])
      else [];
    var goalkeepers := if dets.goalkeepers.Some? then AnnotateGoalkeepers(dets.goalkeepers.value) else [];
    var referees := if dets.referees.Some? then AnnotateReferees(dets.referees.value) else [];
    var ball := if dets.ball.Some? then AnnotateBall(dets.ball.value) else [];
    var info := if centroids.Some? && showJersey then TeamInfo(centroids.value) else [];
    Drawn(frame, players + goalkeepers + referees + ball + info)
  }

  /** The annotated frame keeps the frame's pixels and everything already
      drawn, and only adds marks; with no detections and no legend it is an
      unchanged copy. The ball adds marks only for a single ball detection. */
  lemma AnnotateFrameKeepsFrame(frame: Canvas, dets: FrameDetections, assignments: Option<map<int, int>>,
                                centroids: Option<Centroids>, showJersey: bool)
    ensures AnnotateFrame(frame, dets, assignments, centroids, showJersey).base == frame.base
    ensures frame.ops <= AnnotateFrame(frame, dets, assignments, centroids, showJersey).ops
    ensures dets == NoDetections && (centroids.None? || !showJersey) ==>
      AnnotateFrame(frame, dets, assignments, centroids, showJersey) == frame
    ensures dets.ball.Some? && |dets.ball.value| != 1 ==>
      AnnotateFrame(frame, dets, assignments, centroids, showJersey) ==
      AnnotateFrame(frame, dets.(ball := None), assignments, centroids, showJersey)
  {
    assert frame.ops + [] == frame.ops;
  }
}
