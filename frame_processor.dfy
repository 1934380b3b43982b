/** `FrameProcessor`: the per-video state of the pipeline and the steps that
    update it in place. Each step is proved to leave exactly the state, and
    return exactly the value, that the corresponding function of FrameRules
    describes; the properties of those functions are proved there. */
module FrameProcessing {
  import opened Common
  import opened Pitch
  import opened View
  import opened Draw
  import opened Scene
  import opened Annotation
  import opened FrameRules

  class FrameProcessor {
    const pitchConfig: PitchConfiguration
    /** The foreign computations (tracker, clustering, colour conversion, homography). */
    const kit: Kit
    var playerModel: Option<Detector>
    var keypointModel: Option<KeypointDetector>
    var ballModel: Option<Detector>
    var classIds: map<string, int>
    var playerTracker: ByteTrack
    var goalkeeperTracker: ByteTrack
    var refereeTracker: ByteTrack
    var ballTracker: ByteTrack
    var movementHistory: History
    var team0Centroid: Option<Rgb>
    var team1Centroid: Option<Rgb>
    var teamColorsInitialized: bool
    var playerTeamAssignments: map<int, int>
    var lastSeenPlayers: map<int, Seen>
    var lastSuccessfulTransformer: Option<ViewTransformer>

    /** `{0: team0_centroid, 1: team1_centroid}`. */
    function TeamCentroids(): Centroids
      reads this`team0Centroid, this`team1Centroid
    {
      Centroids(team0Centroid, team1Centroid)
    }

    /** What every step keeps: the history's order lists each key once and
        every trail holds 1 to 50 points, every remembered player was seen
        at most 20 frames ago, and every assigned team is 0 or 1. */
    ghost predicate Valid()
      reads this
    {
      movementHistory.Valid() && movementHistory.Bounded() &&
      (forall k :: k in lastSeenPlayers ==> lastSeenPlayers[k].frame <= MaxMissingFrames) &&
      (forall k :: k in playerTeamAssignments ==> 0 <= playerTeamAssignments[k] < 2)
    }

    /** `__init__`: no models, fresh trackers, no history and no team information. */
    constructor(pitchConfig: PitchConfiguration, kit: Kit)
      ensures Valid()
      ensures this.pitchConfig == pitchConfig && this.kit == kit
      ensures playerModel.None? && keypointModel.None? && ballModel.None? && classIds == map[]
      ensures playerTracker == goalkeeperTracker == refereeTracker == ballTracker == FreshTracker
      ensures movementHistory == EmptyHistory && TeamCentroids() == NoCentroids && !teamColorsInitialized
      ensures playerTeamAssignments == map[] && lastSeenPlayers == map[] && lastSuccessfulTransformer.None?
    {
      this.pitchConfig := pitchConfig;
      this.kit := kit;
      playerModel := None;
      keypointModel := None;
      ballModel := None;
      classIds := map[];
      playerTracker := FreshTracker;
      goalkeeperTracker := FreshTracker;
      refereeTracker := FreshTracker;
      ballTracker := FreshTracker;
      movementHistory := EmptyHistory;
      team0Centroid := None;
      team1Centroid := None;
      teamColorsInitialized := false;
      playerTeamAssignments := map[];
      lastSeenPlayers := map[];
      lastSuccessfulTransformer := None;
    }

    /** `reset_state`: new trackers, and no centroids, assignments, remembered
        players or transformer; the models and the movement history stay. */
    method ResetState()
      requires Valid()
      modifies this`playerTracker, this`goalkeeperTracker, this`refereeTracker, this`ballTracker,
               this`team0Centroid, this`team1Centroid, this`teamColorsInitialized,
               this`playerTeamAssignments, this`lastSeenPlayers, this`lastSuccessfulTransformer
      ensures Valid()
      ensures playerTracker == goalkeeperTracker == refereeTracker == ballTracker == FreshTracker
      ensures TeamCentroids() == NoCentroids && !teamColorsInitialized
      ensures playerTeamAssignments == map[] && lastSeenPlayers == map[] && lastSuccessfulTransformer.None?
    {
      playerTracker := FreshTracker;
      goalkeeperTracker := FreshTracker;
      refereeTracker := FreshTracker;
      ballTracker := FreshTracker;
      team0Centroid := None;
      team1Centroid := None;
      teamColorsInitialized := false;
      playerTeamAssignments := map[];
      lastSeenPlayers := map[];
      lastSuccessfulTransformer := None;
    }

    /** `load_models`, with the three loaded models given: the class table
        maps each class name of the player model to its (last) id. */
    method LoadModels(player: Detector, keypoint: KeypointDetector, ball: Detector)
      modifies this`playerModel, this`keypointModel, this`ballModel, this`classIds
      ensures playerModel == Some(player) && keypointModel == Some(keypoint) && ballModel == Some(ball)
      ensures classIds == NameIndex(player.names)
    {
      playerModel := Some(player);
      keypointModel := Some(keypoint);
      ballModel := Some(ball);
      classIds := NameIndex(player.names);
    }

    /** `detect_keypoints`: the result and the remembered transformer are those
        of `Calibrate`; an IndexError leaves the state as it was. */
    method DetectKeypoints(frame: Frame) returns (r: Result<Option<ViewTransformer>>)
      modifies this`lastSuccessfulTransformer
      ensures var cal := Calibrate(keypointModel, pitchConfig, frame, kit, old(lastSuccessfulTransformer));
        (cal.Raise? ==> r == Raise(cal.error) && lastSuccessfulTransformer == old(lastSuccessfulTransformer)) &&
        (cal.Ok? ==> r == Ok(cal.value.result) && lastSuccessfulTransformer == cal.value.last)
    {
      if keypointModel.None? {
        return Ok(lastSuccessfulTransformer);
      }
      var found := keypointModel.value(frame);
      if found.None? || |found.value| == 0 {
        return Ok(lastSuccessfulTransformer);
      }
      var inst := found.value[0];
      var conf := if inst.confidence.Some? then inst.confidence.value else Ones(|inst.xy|);
      var mask := ConfidenceMask(conf);
      if |mask| != |inst.xy| || |mask| != |Vertices(pitchConfig)| {
        return Raise(IndexError);
      }
      var framePoints := Masked(inst.xy, mask);
      var pitchPoints := Masked(Vertices(pitchConfig), mask);
      if |framePoints| < 4 {
        return Ok(lastSuccessfulTransformer);
      }
      var built := NewViewTransformer(PointsArray(framePoints), PointsArray(pitchPoints), kit.findHomography);
      if built.Raise? {
        return Ok(lastSuccessfulTransformer);
      }
      lastSuccessfulTransformer := Some(built.value);
      r := Ok(Some(built.value));
    }

    /** `filter_referees_by_color`: exactly the candidates `RefereeFilter` keeps. */
    method FilterRefereesByColor(dets: seq<Detection>, frame: Frame) returns (r: seq<Detection>)
      ensures r == RefereeFilter(dets, frame, TeamCentroids(), kit)
    {
      if team0Centroid.None? || team1Centroid.None? {
        return dets;
      }
      var centroids := TeamCentroids();
      var team0Hue := kit.hue(team0Centroid.value);
      var team1Hue := kit.hue(team1Centroid.value);
      r := [];
      for i := 0 to |dets|
        invariant r == RefereeFilter(dets[..i], frame, centroids, kit)
      {
        var region := JerseyRegion(dets[i].box, frame.height, frame.width);
        if region.Some? && region.value.Area() >= DominantClusters {
          var refereeHue := kit.hue(kit.dominant(frame, region.value));
          if HueDistance(refereeHue, team0Hue) > RefereeHueGap && HueDistance(refereeHue, team1Hue) > RefereeHueGap {
            r := r + [dets[i]];
          }
        }
        assert dets[..i + 1] == dets[..i] + [dets[i]];
        RefereesPreserveOrder(dets[..i], [dets[i]], frame, centroids, kit);
        RefereeFilterOne(dets[i], frame, centroids, kit);
      }
      assert dets[..|dets|] == dets;
    }

    /** The loop of `detect_objects` that records this frame's players as seen now. */
    method RecordSeenPlayers(players: seq<Detection>)
      modifies this`lastSeenPlayers
      ensures lastSeenPlayers == RecordSeen(old(lastSeenPlayers), players, playerTeamAssignments)
    {
      ghost var seen := lastSeenPlayers;
      for i := 0 to |players|
        invariant lastSeenPlayers == RecordSeen(seen, players[..i], playerTeamAssignments)
      {
        var d := players[i];
        lastSeenPlayers := lastSeenPlayers[d.trackerId := Seen(d.box, 0, TeamOf(playerTeamAssignments, d.trackerId))];
        assert players[..i + 1][..i] == players[..i];
      }
      assert players[..|players|] == players;
    }

    /** The aging loop of `detect_objects`, over a snapshot of the remembered ids. */
    method AgeLastSeen(players: Option<seq<Detection>>)
      modifies this`lastSeenPlayers
      ensures lastSeenPlayers == Aged(old(lastSeenPlayers), players)
    {
      ghost var seen := lastSeenPlayers;
      ghost var aged := Aged(seen, players);
      var todo := lastSeenPlayers.Keys;
      while todo != {}
        invariant todo <= seen.Keys
        invariant forall k :: k in todo ==> k in lastSeenPlayers && lastSeenPlayers[k] == seen[k]
        invariant forall k :: k !in todo ==> (k in lastSeenPlayers <==> k in aged)
        invariant forall k :: k !in todo && k in lastSeenPlayers ==> lastSeenPlayers[k] == aged[k]
        decreases todo
      {
        var id :| id in todo;
        if players.None? || id !in TrackerIds(players.value) {
          var entry := lastSeenPlayers[id];
          lastSeenPlayers := lastSeenPlayers[id := entry.(frame := entry.frame + 1)];
          if entry.frame + 1 > MaxMissingFrames {
            lastSeenPlayers := lastSeenPlayers - {id};
          }
        } else {
          lastSeenPlayers := lastSeenPlayers[id := lastSeenPlayers[id].(frame := 0)];
        }
        todo := todo - {id};
      }
      assert lastSeenPlayers.Keys == aged.Keys;
    }

    /** The player-model half of `detect_objects`. */
    method DetectPeople(frame: Frame) returns (players: Option<seq<Detection>>, goalkeepers: Option<seq<Detection>>,
                                              referees: Option<seq<Detection>>)
      modifies this`playerTracker, this`goalkeeperTracker, this`refereeTracker, this`lastSeenPlayers
      ensures var o := FrameRules.DetectPeople(frame, old(playerModel), kit, old(playerTracker), old(goalkeeperTracker),
                                               old(refereeTracker), old(lastSeenPlayers), old(playerTeamAssignments),
                                               old(TeamCentroids()));
        players == o.players && goalkeepers == o.goalkeepers && referees == o.referees &&
        playerTracker == o.playerTracker && goalkeeperTracker == o.goalkeeperTracker &&
        refereeTracker == o.refereeTracker && lastSeenPlayers == o.seen
    {
      players, goalkeepers, referees := None, None, None;
      if playerModel.Some? {
        var dets := playerModel.value.infer(frame);
        var names := playerModel.value.names;
        var p := Update(playerTracker, kit.nms(OfClass(dets, ClassIdOf(names, "player", 0)), PlayerNms), kit);
        playerTracker := p.0;
        players := Some(p.1);
        RecordSeenPlayers(p.1);
        var g := Update(goalkeeperTracker, kit.nms(OfClass(dets, ClassIdOf(names, "goalkeeper", 1)), PlayerNms), kit);
        goalkeeperTracker := g.0;
        goalkeepers := Some(g.1);
        var r := Update(refereeTracker, kit.nms(OfClass(dets, ClassIdOf(names, "referee", 2)), PlayerNms), kit);
        refereeTracker := r.0;
        var kept := FilterRefereesByColor(r.1, frame);
        referees := Some(kept);
      }
    }

    /** The ball-model half of `detect_objects`. */
    method DetectBall(frame: Frame) returns (ball: Option<seq<Detection>>)
      modifies this`ballTracker
      ensures (ballTracker, ball) == FrameRules.DetectBall(frame, old(ballModel), kit, old(ballTracker))
    {
      ball := None;
      if ballModel.Some? {
        var candidates := kit.nms(ballModel.value.infer(frame), BallNms);
        if |candidates| > 0 {
          var best := BestIndex(candidates);
          var b := Update(ballTracker, [candidates[best]], kit);
          ballTracker := b.0;
          ball := Some(b.1);
        }
      }
    }

    /** `detect_objects`: the results, the four trackers and the remembered
        players are those of the function `DetectObjects`; nothing else changes. */
    method DetectObjects(frame: Frame) returns (results: FrameDetections)
      requires Valid()
      modifies this`playerTracker, this`goalkeeperTracker, this`refereeTracker, this`ballTracker, this`lastSeenPlayers
      ensures var o := FrameRules.DetectObjects(frame, old(playerModel), old(ballModel), kit, old(playerTracker),
                                                old(goalkeeperTracker), old(refereeTracker), old(ballTracker),
                                                old(lastSeenPlayers), old(playerTeamAssignments), old(TeamCentroids()));
        results == o.results && playerTracker == o.playerTracker && goalkeeperTracker == o.goalkeeperTracker &&
        refereeTracker == o.refereeTracker && ballTracker == o.ballTracker && lastSeenPlayers == o.seen
      ensures Valid()
    {
      FrameRules.DetectObjectsOutcome(frame, playerModel, ballModel, kit, playerTracker, goalkeeperTracker,
                                      refereeTracker, ballTracker, lastSeenPlayers, playerTeamAssignments, TeamCentroids());
      var players, goalkeepers, referees := DetectPeople(frame);
      var ball := DetectBall(frame);
      AgeLastSeen(players);
      results := FrameDetections(players, goalkeepers, referees, ball);
    }

    /** One `movement_history[key].append(point)`, creating the key first and
        keeping only the last 50 points. */
    method RecordPoint(key: TrackKey, p: Point)
      modifies this`movementHistory
      ensures movementHistory == Record(old(movementHistory), key, p)
    {
      ghost var h := movementHistory;
      var trails := movementHistory.trails;
      var order := movementHistory.order;
      if key !in trails {
        trails := trails[key := []];
        order := order + [key];
      }
      assert trails[key] == Trail(h, key);
      var trail := trails[key] + [p];
      if |trail| > PathHistoryLength {
        trail := trail[|trail| - PathHistoryLength..];
      }
      assert trail == Push(Trail(h, key), p);
      assert trails[key := trail] == h.trails[key := trail];
      movementHistory := History(trails[key := trail], order);
    }

    /** The inner loop of `track_player_movement` for one kind. */
    method RecordKind(kind: Kind, dets: seq<Detection>, pts: seq<Point>)
      requires |pts| == |dets|
      modifies this`movementHistory
      ensures movementHistory == RecordAll(old(movementHistory), kind, dets, pts)
    {
      ghost var h := movementHistory;
      assert dets[..0] == [] && pts[..0] == [];
      for i := 0 to |dets|
        invariant movementHistory == RecordAll(h, kind, dets[..i], pts[..i])
      {
        RecordNext(h, kind, dets, pts, i);
      }
      assert dets[..|dets|] == dets && pts[..|pts|] == pts;
    }

    /** One iteration of the inner loop of `track_player_movement`. */
    method RecordNext(ghost h: History, kind: Kind, dets: seq<Detection>, pts: seq<Point>, i: nat)
      requires |pts| == |dets| && i < |dets|
      requires movementHistory == RecordAll(h, kind, dets[..i], pts[..i])
      modifies this`movementHistory
      ensures movementHistory == RecordAll(h, kind, dets[..i + 1], pts[..i + 1])
    {
      RecordPoint(TrackKey(kind, dets[i].trackerId), pts[i]);
      RecordAllSnoc(h, kind, dets, pts, i);
    }

    /** One pass of the outer loop of `track_player_movement`: record the
        `j`-th tracked kind, or give the exception its projection raised. */
    method TrackNextKind(ghost h: History, dets: FrameDetections, transformer: ViewTransformer, j: nat)
      returns (error: Option<Error>)
      requires j < |TrackedKinds|
      requires Tracking(movementHistory, None) == TrackMovement(h, dets, transformer, kit.project, j)
      modifies this`movementHistory
      ensures Tracking(movementHistory, error) == TrackMovement(h, dets, transformer, kit.project, j + 1)
    {
      error := None;
      var kind := TrackedKinds[j];
      var d := dets.Get(kind);
      if d.Some? {
        var projected := ProjectAnchors(transformer, kind, d.value, kit.project);
        if projected.Raise? {
          error := Some(projected.error);
          return;
        }
        RecordKind(kind, d.value, projected.value);
      }
    }

    /** `track_player_movement`: the new history, and the exception that
        stopped it if any, are those of `TrackMovement` over all three kinds. */
    method TrackPlayerMovement(dets: FrameDetections, transformer: ViewTransformer) returns (error: Option<Error>)
      requires Valid()
      modifies this`movementHistory
      ensures Tracking(movementHistory, error) == TrackMovement(old(movementHistory), dets, transformer, kit.project, |TrackedKinds|)
      ensures Valid()
    {
      ghost var h := movementHistory;
      TrackMovementFrame(h, dets, transformer, kit.project, |TrackedKinds|);
      error := None;
      for j := 0 to |TrackedKinds|
        invariant error.None? && Tracking(movementHistory, None) == TrackMovement(h, dets, transformer, kit.project, j)
      {
        error := TrackNextKind(h, dets, transformer, j);
        if error.Some? {
          TrackMovementStops(h, dets, transformer, kit.project, j + 1, |TrackedKinds|);
          return;
        }
      }
    }

    /** The jersey-colour loop of `classify_teams_by_jersey_color`. */
    method CollectPlayerColors(frame: Frame, players: seq<Detection>) returns (colors: seq<Rgb>, ids: seq<int>)
      ensures (colors, ids) == PlayerColors(frame, players, kit)
    {
      colors, ids := [], [];
      for i := 0 to |players|
        invariant (colors, ids) == PlayerColors(frame, players[..i], kit)
      {
        var color := DominantColor(frame, players[i].box, kit);
        if color.Some? {
          colors := colors + [color.value];
          ids := ids + [players[i].trackerId];
        }
        assert players[..i + 1][..i] == players[..i];
      }
      assert players[..|players|] == players;
    }

    /** `classify_teams_by_jersey_color`: nothing, and no new centroids, when
        `ClassifyTeams` finds nothing; otherwise its assignments, with its
        centroids stored. */
    method ClassifyTeamsByJerseyColor(dets: FrameDetections, frame: Frame) returns (r: map<int, int>)
      modifies this`team0Centroid, this`team1Centroid
      ensures var c := ClassifyTeams(frame, dets, kit);
        (c.None? ==> r == map[] && TeamCentroids() == old(TeamCentroids())) &&
        (c.Some? ==> r == c.value.assignments && TeamCentroids() == c.value.centroids)
      ensures forall k :: k in r ==> 0 <= r[k] < 2
    {
      if dets.players.None? || |dets.players.value| == 0 {
        return map[];
      }
      var colors, ids := CollectPlayerColors(frame, dets.players.value);
      if |colors| < 2 {
        return map[];
      }
      var (c0, c1) := kit.clusterTeams(colors);
      team0Centroid, team1Centroid := Some(c0), Some(c1);
      r := AssignmentMap(ids, colors, kit);
    }

    /** `update_team_classification`: when a classification was found, its
        assignments override the earlier ones for the ids it names. */
    method UpdateTeamClassification(dets: FrameDetections, frame: Frame)
      requires Valid()
      modifies this`team0Centroid, this`team1Centroid, this`playerTeamAssignments
      ensures var c := ClassifyTeams(frame, dets, kit);
        (c.None? ==> TeamCentroids() == old(TeamCentroids()) && playerTeamAssignments == old(playerTeamAssignments)) &&
        (c.Some? ==> TeamCentroids() == c.value.centroids &&
                     playerTeamAssignments == MergeAssignments(old(playerTeamAssignments), c.value.assignments))
      ensures Valid()
    {
      var current := ClassifyTeamsByJerseyColor(dets, frame);
      if current != map[] {
        MergeCurrent(current);
      } else {
        assert MergeAssignments(playerTeamAssignments, current) == playerTeamAssignments;
      }
    }

    /** The merge step of `update_team_classification`: it keeps every
        assignment in {0, 1}. */
    method MergeCurrent(current: map<int, int>)
      requires Valid()
      requires forall k :: k in current ==> 0 <= current[k] < 2
      modifies this`playerTeamAssignments
      ensures playerTeamAssignments == MergeAssignments(old(playerTeamAssignments), current)
      ensures Valid()
    {
      playerTeamAssignments := MergeAssignments(playerTeamAssignments, current);
    }

    /** `annotate_original_frame`: the annotator sees the team state only when
        the jersey analysis is shown. */
    function AnnotateOriginalFrame(frame: Canvas, dets: FrameDetections, show: bool): (out: Canvas)
      reads this`team0Centroid, this`team1Centroid, this`playerTeamAssignments
      ensures out.base == frame.base && frame.ops <= out.ops
      ensures !show ==> out == AnnotateFrame(frame, dets, None, None, false)
    {
      AnnotateFrameKeepsFrame(frame, dets, if show then Some(playerTeamAssignments) else None,
                              if show then Some(TeamCentroids()) else None, show);
      AnnotateFrame(frame, dets, if show then Some(playerTeamAssignments) else None,
                    if show then Some(TeamCentroids()) else None, show)
    }

    /** The players loop of `create_radar_image`. */
    method DrawPlayers(radar: Canvas, players: seq<Detection>, pts: seq<Point>) returns (out: Canvas)
      requires |pts| == |players|
      ensures out == Drawn(radar, PlayerDots(pitchConfig, players, pts, TeamCentroids(), playerTeamAssignments))
    {
      out := radar;
      for i := 0 to |players|
        invariant out == Drawn(radar, PlayerDots(pitchConfig, players[..i], pts[..i], TeamCentroids(), playerTeamAssignments))
      {
        var color := TeamColor(TeamCentroids(), TeamOf(playerTeamAssignments, players[i].trackerId));
        ghost var before := out;
        if OnPitch(pitchConfig, pts[i]) {
          out := DrawPointsOnPitch(pitchConfig, [pts[i]], color, Black, 8, DefaultBrush, Some(out));
          PointsMarksOne(pts[i], color, Black, 8, DefaultBrush);
        }
        assert players[..i + 1][..i] == players[..i];
        assert pts[..i + 1][..i] == pts[..i];
        assert out == Drawn(before, RadarDot(pitchConfig, pts[i], color, 8));
      }
      assert players[..|players|] == players && pts[..|pts|] == pts;
    }

    /** The points loop of `create_radar_image` for one non-player kind. */
    method DrawKind(radar: Canvas, kind: Kind, pts: seq<Point>) returns (out: Canvas)
      ensures out == Drawn(radar, KindDots(pitchConfig, kind, pts))
    {
      out := radar;
      ghost var dot := (p: Point) => RadarDot(pitchConfig, p, KindColor(kind), KindRadius(kind));
      for i := 0 to |pts|
        invariant out == Drawn(radar, ConcatMap(pts[..i], dot))
      {
        ghost var before := out;
        if OnPitch(pitchConfig, pts[i]) {
          out := DrawPointsOnPitch(pitchConfig, [pts[i]], KindColor(kind), Black, KindRadius(kind), DefaultBrush, Some(out));
          PointsMarksOne(pts[i], KindColor(kind), Black, KindRadius(kind), DefaultBrush);
        }
        assert pts[..i + 1][..i] == pts[..i];
        assert out == Drawn(before, dot(pts[i]));
      }
      assert pts[..|pts|] == pts;
    }

    /** The loop over `movement_history` of `create_radar_image`, in key order. */
    method DrawTrails(radar: Canvas) returns (out: Canvas)
      ensures out == Drawn(radar, PathLayer(movementHistory, |movementHistory.order|, TeamCentroids(), playerTeamAssignments))
    {
      out := radar;
      assert radar.ops + [] == radar.ops;
      for j := 0 to |movementHistory.order|
        invariant out == Drawn(radar, PathLayer(movementHistory, j, TeamCentroids(), playerTeamAssignments))
      {
        out := DrawTrail(out, movementHistory.order[j]);
        DrawnTwice(radar, PathLayer(movementHistory, j, TeamCentroids(), playerTeamAssignments),
                   TrailLines(movementHistory, movementHistory.order[j], TeamCentroids(), playerTeamAssignments));
      }
    }

    /** One iteration of that loop: a trail of at least 2 points is drawn in
        its team's colour with `draw_paths_on_pitch`. */
    method DrawTrail(radar: Canvas, key: TrackKey) returns (out: Canvas)
      ensures out == Drawn(radar, TrailLines(movementHistory, key, TeamCentroids(), playerTeamAssignments))
    {
      var trail := Trail(movementHistory, key);
      if |trail| >= 2 {
        var color := PathColor(key, TeamCentroids(), playerTeamAssignments);
        PathsLinesOne(trail, color, DefaultBrush);
        var drawn := DrawPathsOnPitch(pitchConfig, [trail], Some([color]), DefaultBrush, Some(radar));
        out := drawn.value;
      } else {
        out := radar;
        assert radar.ops + [] == radar.ops;
      }
    }

    /** `create_radar_image`: exactly the picture, or the projection error, of
        `RadarImage`, with trails drawn as `DrawPathsOnPitch` draws them. */
    method CreateRadarImage(dets: FrameDetections, transformer: ViewTransformer, includePaths: bool) returns (r: Result<Canvas>)
      ensures r == RadarImage(pitchConfig, dets, transformer, kit.project, TeamCentroids(), playerTeamAssignments,
                              movementHistory, includePaths)
    {
      var radar := DrawPitch(pitchConfig, DefaultStyle);
      ghost var pitch := radar;
      ghost var players := PlayerLayer(pitchConfig, dets, transformer, kit.project, TeamCentroids(), playerTeamAssignments);
      if dets.players.Some? {
        var projected := ProjectAnchors(transformer, Players, dets.players.value, kit.project);
        if projected.Raise? {
          return Raise(projected.error);
        }
        radar := DrawPlayers(radar, dets.players.value, projected.value);
      } else {
        assert radar.ops + [] == radar.ops;
      }
      assert radar == Drawn(pitch, players.value);
      var others := DrawRadarKinds(radar, dets, transformer);
      if others.Raise? {
        return Raise(others.error);
      }
      radar := others.value;
      ghost var kinds := KindLayers(pitchConfig, dets, transformer, kit.project, |RadarKinds|).value;
      DrawnTwice(pitch, players.value, kinds);
      ghost var paths := if includePaths then PathLayer(movementHistory, |movementHistory.order|, TeamCentroids(), playerTeamAssignments) else [];
      if includePaths {
        radar := DrawTrails(radar);
      } else {
        assert radar.ops + [] == radar.ops;
      }
      DrawnTwice(pitch, players.value + kinds, paths);
      r := Ok(radar);
    }

    /** The loop of `create_radar_image` over goalkeepers, referees and the ball. */
    method DrawRadarKinds(radar: Canvas, dets: FrameDetections, transformer: ViewTransformer) returns (r: Result<Canvas>)
      ensures var layers := KindLayers(pitchConfig, dets, transformer, kit.project, |RadarKinds|);
        (layers.Raise? ==> r == Raise(layers.error)) && (layers.Ok? ==> r == Ok(Drawn(radar, layers.value)))
    {
      var out := radar;
      assert radar.ops + [] == radar.ops;
      for j := 0 to |RadarKinds|
        invariant KindLayers(pitchConfig, dets, transformer, kit.project, j).Ok?
        invariant out == Drawn(radar, KindLayers(pitchConfig, dets, transformer, kit.project, j).value)
      {
        var kind := RadarKinds[j];
        var d := dets.Get(kind);
        ghost var done := KindLayers(pitchConfig, dets, transformer, kit.project, j).value;
        ghost var layer := KindLayer(pitchConfig, kind, dets, transformer, kit.project);
        if d.Some? && |d.value| > 0 {
          var projected := ProjectAnchors(transformer, kind, d.value, kit.project);
          if projected.Raise? {
            KindLayersStop(pitchConfig, dets, transformer, kit.project, j + 1, |RadarKinds|);
            return Raise(projected.error);
          }
          out := DrawKind(out, kind, projected.value);
        } else {
          assert out.ops + [] == out.ops;
        }
        DrawnTwice(radar, done, layer.value);
      }
      r := Ok(out);
    }
  }
}
