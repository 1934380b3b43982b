/** What the detectors report about one frame, and the jersey crop both the
    annotator and the frame processor cut out of a player's bounding box. */
module Scene {
  import opened Common

  /** One row of `sv.Detections.from_ultralytics(...)`: box, class and score. */
  datatype Candidate = Candidate(box: Box, classId: int, confidence: real)

  /** One row of a tracker's output: the box and the track id ByteTrack gave it. */
  datatype Detection = Detection(box: Box, classId: int, confidence: real, trackerId: int)

  function TrackerIds(dets: seq<Detection>): (ids: seq<int>)
    ensures |ids| == |dets| && forall i :: 0 <= i < |dets| ==> ids[i] == dets[i].trackerId
  {
    seq(|dets|, i requires 0 <= i < |dets| => dets[i].trackerId)
  }

  /** The keys of the `results` dictionary of `detect_objects`. */
  datatype Kind = Players | Goalkeepers | Referees | Ball

  /** The `results` dictionary of `detect_objects`; a missing entry is `None`. */
  datatype FrameDetections = FrameDetections(
    players: Option<seq<Detection>>,
    goalkeepers: Option<seq<Detection>>,
    referees: Option<seq<Detection>>,
    ball: Option<seq<Detection>>)
  {
    /** `detections.get(kind)`. */
    function Get(kind: Kind): Option<seq<Detection>>
    {
      match kind
      case Players => players
      case Goalkeepers => goalkeepers
      case Referees => referees
      case Ball => ball
    }
  }

  const NoDetections := FrameDetections(None, None, None, None)

  /** A colour as a float RGB triple (a k-means centre or a dominant colour). */
  datatype Rgb = Rgb(r: real, g: real, b: real)

  /** `team0_centroid` and `team1_centroid`. */
  datatype Centroids = Centroids(team0: Option<Rgb>, team1: Option<Rgb>)
  {
    /** `{0: team0, 1: team1}.get(team)`, with any other key missing. */
    function Of(team: int): Option<Rgb>
    {
      if team == 0 then team0 else if team == 1 then team1 else None
    }

    predicate Known() { team0.Some? && team1.Some? }
  }

  const NoCentroids := Centroids(None, None)

  /** `player_team_assignments.get(tracker_id, -1)`: -1 means no team. */
  function TeamOf(assignments: map<int, int>, trackerId: int): int
  {
    if trackerId in assignments then assignments[trackerId] else -1
  }

  /** An integer pixel rectangle `frame[y1:y2, x1:x2]`. */
  datatype Crop = Crop(x1: int, y1: int, x2: int, y2: int)
  {
    predicate NonEmpty() { y2 > y1 && x2 > x1 }

    function Area(): int { (y2 - y1) * (x2 - x1) }
  }

  /** The jersey rectangle of a bounding box on a `height` x `width` image:
      the box is truncated to integers, the band from 35% to 65% of its width
      and from 30% to 55% of its height is taken, and each edge is clipped to
      the image. */
  function JerseyCrop(box: Box, height: int, width: int): (c: Crop)
    ensures 0 < height ==> 0 <= c.y1 < height && 0 <= c.y2 < height
    ensures 0 < width ==> 0 <= c.x1 < width && 0 <= c.x2 < width
  {
    var x1 := Trunc(box.x1);
    var y1 := Trunc(box.y1);
    var x2 := Trunc(box.x2);
    var y2 := Trunc(box.y2);
    var w := x2 - x1;
    var h := y2 - y1;
    Crop(Clip(x1 + Trunc(w as real * 0.35), 0, width - 1),
         Clip(y1 + Trunc(h as real * 0.3), 0, height - 1),
         Clip(x1 + Trunc(w as real * 0.65), 0, width - 1),
         Clip(y1 + Trunc(h as real * 0.55), 0, height - 1))
  }

  /** `_extract_jersey_region`: the crop, or nothing when it is empty. */
  function JerseyRegion(box: Box, height: int, width: int): (r: Option<Crop>)
    ensures r.Some? <==> JerseyCrop(box, height, width).NonEmpty()
    ensures r.Some? ==> r.value == JerseyCrop(box, height, width)
  {
    var c := JerseyCrop(box, height, width);
    if c.y2 <= c.y1 || c.x2 <= c.x1 then None else Some(c)
  }

  /** A box that lies inside the image, with integer corners, keeps its
      jersey band unclipped: the band starts 30% down and 35% across the box. */
  lemma JerseyCropInsideImage(x1: int, y1: int, x2: int, y2: int, height: int, width: int)
    requires 0 <= x1 <= x2 < width && 0 <= y1 <= y2 < height
    ensures JerseyCrop(Box(x1 as real, y1 as real, x2 as real, y2 as real), height, width) ==
      Crop(x1 + ((x2 - x1) as real * 0.35).Floor, y1 + ((y2 - y1) as real * 0.3).Floor,
           x1 + ((x2 - x1) as real * 0.65).Floor, y1 + ((y2 - y1) as real * 0.55).Floor)
  {
    var w := (x2 - x1) as real;
    var h := (y2 - y1) as real;
    assert (w * 0.65).Floor <= x2 - x1;
    assert (h * 0.55).Floor <= y2 - y1;
    assert (w * 0.35).Floor <= (w * 0.65).Floor;
    assert (h * 0.3).Floor <= (h * 0.55).Floor;
  }

  /** A box at least 4 pixels wide and 4 tall, inside the image, always has a
      non-empty jersey band. */
  lemma JerseyRegionOfLargeBox(x1: int, y1: int, x2: int, y2: int, height: int, width: int)
    requires 0 <= x1 && x1 + 4 <= x2 < width && 0 <= y1 && y1 + 4 <= y2 < height
    ensures JerseyRegion(Box(x1 as real, y1 as real, x2 as real, y2 as real), height, width).Some?
  {
    JerseyCropInsideImage(x1, y1, x2, y2, height, width);
    var w := (x2 - x1) as real;
    var h := (y2 - y1) as real;
    assert (w * 0.35).Floor as real <= w * 0.35;
    assert w * 0.65 - 1.0 < (w * 0.65).Floor as real;
    assert (h * 0.3).Floor as real <= h * 0.3;
    assert h * 0.55 - 1.0 < (h * 0.55).Floor as real;
  }
}
