/** `VideoProcessor`: opens the video, and turns one decoded frame into the
    annotated frame and the radar picture. The thread pool of `process_frame`
    is modelled as its sequential order: keypoints, detections, team
    classification, annotation, radar. */
module VideoProcessing {
  import opened Common
  import opened View
  import opened Draw
  import opened Scene
  import opened FrameRules
  import opened FrameProcessing

  const DefaultRadarWidth := 1600
  const DefaultRadarHeight := 1000
  const DefaultFps := 25
  const NoKeypointsText := "No Keypoints Detected"

  /** What `cv2.VideoCapture(video_path)` gave: whether the file opened, the
      frames `read()` returns before it first fails, and the properties
      reported by `get` (floats). */
  datatype Capture = Capture(isOpened: bool, frames: seq<Frame>, width: real, height: real, fps: real, frameCount: real)

  /** `int(fps) or 25`: the reported rate, truncated, or 25 when that is zero. */
  function FpsOrDefault(fps: real): (r: int)
    ensures r != 0
    ensures Trunc(fps) != 0 ==> r == Trunc(fps)
    ensures -1.0 < fps < 1.0 ==> r == DefaultFps
  {
    var t := Trunc(fps);
    if t != 0 then t else DefaultFps
  }

  /** `_handle_missing_transformer` on a copy of the last radar: the notice is
      written once, in white, half-way down the radar, on top of it. */
  function NoKeypointsRadar(last: Canvas, radarHeight: int): (r: Canvas)
    ensures r.base == last.base && r.Height() == last.Height() && r.Width() == last.Width()
    ensures |r.ops| == |last.ops| + 1 && r.ops[..|last.ops|] == last.ops
    ensures r.ops[|last.ops|] == Text(NoKeypointsText, (50, radarHeight / 2), 1.0, Bgr(255, 255, 255), 2)
  {
    assert (last.ops + [Text(NoKeypointsText, (50, radarHeight / 2), 1.0, Bgr(255, 255, 255), 2)])[..|last.ops|] == last.ops;
    Drawn(last, [Text(NoKeypointsText, (50, radarHeight / 2), 1.0, Bgr(255, 255, 255), 2)])
  }

  /** `cv2.resize(radar, (width, height))`: a new image of exactly that size. */
  function ResizedRadar(radar: Canvas, width: int, height: int): (r: Canvas)
    ensures r.Width() == width && r.Height() == height && r.ops == []
  {
    Canvas(Resized(radar, width, height), [])
  }

  /** Writing the notice on a radar that has the configured size and nothing
      drawn on it gives a radar of that size with the notice as its only
      drawing, however many frames in a row miss their keypoints. */
  lemma NoKeypointsRadarOnStoredRadar(last: Canvas, radarWidth: int, radarHeight: int)
    requires last.ops == [] && last.Width() == radarWidth && last.Height() == radarHeight
    ensures var r := NoKeypointsRadar(last, radarHeight);
      r.Width() == radarWidth && r.Height() == radarHeight &&
      r.ops == [Text(NoKeypointsText, (50, radarHeight / 2), 1.0, Bgr(255, 255, 255), 2)]
  {
  }

  class VideoProcessor {
    const frameProcessor: FrameProcessor
    const radarWidth: int
    const radarHeight: int
    var cap: Option<Capture>
    var totalFrames: int
    var frameWidth: int
    var frameHeight: int
    var fps: int
    var lastRadar: Canvas

    /** The stored radar always has the radar size and nothing drawn on it:
        it starts black and is replaced only by a resized radar. */
    ghost predicate Valid()
      reads this`lastRadar, frameProcessor
    {
      frameProcessor.Valid() &&
      lastRadar.ops == [] && lastRadar.Width() == radarWidth && lastRadar.Height() == radarHeight
    }

    /** `__init__`: no capture yet and a black radar of the radar size. */
    constructor(frameProcessor: FrameProcessor, radarWidth: int, radarHeight: int)
      requires frameProcessor.Valid()
      ensures Valid()
      ensures this.frameProcessor == frameProcessor && this.radarWidth == radarWidth && this.radarHeight == radarHeight
      ensures cap.None? && totalFrames == 0
      ensures lastRadar == Canvas(Blank(radarHeight, radarWidth, Bgr(0, 0, 0)), [])
    {
      this.frameProcessor := frameProcessor;
      this.radarWidth := radarWidth;
      this.radarHeight := radarHeight;
      cap := None;
      totalFrames := 0;
      frameWidth := 0;
      frameHeight := 0;
      fps := 0;
      lastRadar := Canvas(Blank(radarHeight, radarWidth, Bgr(0, 0, 0)), []);
    }

    /** `setup_video_io`: it keeps the capture; when the file opened, it reads
        the frame size, the rate (25 when none is reported) and the frame
        count, and reports success. */
    method SetupVideoIo(capture: Capture) returns (ok: bool)
      modifies this`cap, this`frameWidth, this`frameHeight, this`fps, this`totalFrames
      ensures cap == Some(capture) && ok == capture.isOpened
      ensures !ok ==> frameWidth == old(frameWidth) && frameHeight == old(frameHeight) &&
                      fps == old(fps) && totalFrames == old(totalFrames)
      ensures ok ==> frameWidth == Trunc(capture.width) && frameHeight == Trunc(capture.height) &&
                     fps == FpsOrDefault(capture.fps) && fps != 0 && totalFrames == Trunc(capture.frameCount)
    {
      cap := Some(capture);
      if !capture.isOpened {
        return false;
      }
      frameWidth := Trunc(capture.width);
      frameHeight := Trunc(capture.height);
      fps := FpsOrDefault(capture.fps);
      totalFrames := Trunc(capture.frameCount);
      ok := true;
    }

    /** `_handle_missing_transformer`: the last radar, copied, with the notice. */
    function HandleMissingTransformer(): (r: Canvas)
      reads this
      ensures r == NoKeypointsRadar(lastRadar, radarHeight)
    {
      NoKeypointsRadar(lastRadar, radarHeight)
    }

    /** `_create_radar_with_tracking`: the movement history is extended as
        `TrackMovement` says; then the radar of `RadarImage` without paths is
        drawn, resized and stored. An exception from either step propagates
        and leaves the stored radar as it was. */
    method CreateRadarWithTracking(dets: FrameDetections, transformer: ViewTransformer) returns (r: Result<Canvas>)
      requires Valid()
      modifies this`lastRadar, frameProcessor`movementHistory
      ensures Valid()
      ensures var fp := frameProcessor;
        var tm := TrackMovement(old(fp.movementHistory), dets, transformer, fp.kit.project, |TrackedKinds|);
        fp.movementHistory == tm.history &&
        (tm.error.Some? ==> r == Raise(tm.error.value) && lastRadar == old(lastRadar)) &&
        (tm.error.None? ==>
          var img := RadarImage(fp.pitchConfig, dets, transformer, fp.kit.project, fp.TeamCentroids(),
                                fp.playerTeamAssignments, fp.movementHistory, false);
          (img.Raise? ==> r == Raise(img.error) && lastRadar == old(lastRadar)) &&
          (img.Ok? ==> r == Ok(ResizedRadar(img.value, radarWidth, radarHeight)) && lastRadar == r.value))
    {
      var error := frameProcessor.TrackPlayerMovement(dets, transformer);
      if error.Some? {
        return Raise(error.value);
      }
      var radar := frameProcessor.CreateRadarImage(dets, transformer, false);
      if radar.Raise? {
        return Raise(radar.error);
      }
      var resized := ResizedRadar(radar.value, radarWidth, radarHeight);
      lastRadar := resized;
      r := Ok(resized);
    }

    /** The two tasks `process_frame` runs in parallel, both to completion:
        `detect_keypoints` as `Calibrate` says and `detect_objects` as the
        function `DetectObjects` says. */
    method DetectAll(frame: Frame) returns (transformer: Result<Option<ViewTransformer>>, detections: FrameDetections)
      requires Valid()
      modifies frameProcessor`lastSuccessfulTransformer,
               frameProcessor`playerTracker, frameProcessor`goalkeeperTracker, frameProcessor`refereeTracker,
               frameProcessor`ballTracker, frameProcessor`lastSeenPlayers
      ensures Valid()
      ensures var fp := frameProcessor;
        var o := FrameRules.DetectObjects(frame, old(fp.playerModel), old(fp.ballModel), fp.kit, old(fp.playerTracker),
                                          old(fp.goalkeeperTracker), old(fp.refereeTracker), old(fp.ballTracker),
                                          old(fp.lastSeenPlayers), old(fp.playerTeamAssignments), old(fp.TeamCentroids()));
        detections == o.results &&
        fp.playerTracker == o.playerTracker && fp.goalkeeperTracker == o.goalkeeperTracker &&
        fp.refereeTracker == o.refereeTracker && fp.ballTracker == o.ballTracker && fp.lastSeenPlayers == o.seen
      ensures var fp := frameProcessor;
        var cal := Calibrate(old(fp.keypointModel), fp.pitchConfig, frame, fp.kit, old(fp.lastSuccessfulTransformer));
        (cal.Raise? ==> transformer == Raise(cal.error) && fp.lastSuccessfulTransformer == old(fp.lastSuccessfulTransformer)) &&
        (cal.Ok? ==> transformer == Ok(cal.value.result) && fp.lastSuccessfulTransformer == cal.value.last)
    {
      transformer := frameProcessor.DetectKeypoints(frame);
      detections := frameProcessor.DetectObjects(frame);
    }

    /** What `process_frame` does once both detections are in: the teams are
        classified as `ClassifyTeams` says, the frame is annotated with the
        new team state, and the radar is the tracked one when there is a
        transformer and the stored one with the notice when there is none. */
    method RenderFrame(frame: Frame, detections: FrameDetections, transformer: Option<ViewTransformer>)
      returns (r: Result<(Canvas, Canvas)>)
      requires Valid()
      modifies this`lastRadar, frameProcessor`team0Centroid, frameProcessor`team1Centroid,
               frameProcessor`playerTeamAssignments, frameProcessor`movementHistory
      ensures Valid()
      ensures var fp := frameProcessor;
        var c := ClassifyTeams(frame, detections, fp.kit);
        (c.None? ==> fp.TeamCentroids() == old(fp.TeamCentroids()) &&
                     fp.playerTeamAssignments == old(fp.playerTeamAssignments)) &&
        (c.Some? ==> fp.TeamCentroids() == c.value.centroids &&
                     fp.playerTeamAssignments == MergeAssignments(old(fp.playerTeamAssignments), c.value.assignments))
      ensures var fp := frameProcessor;
        var annotated := fp.AnnotateOriginalFrame(Canvas(Footage(frame), []), detections, true);
        transformer.None? ==>
          fp.movementHistory == old(fp.movementHistory) && lastRadar == old(lastRadar) &&
          r == Ok((annotated, NoKeypointsRadar(old(lastRadar), radarHeight)))
      ensures var fp := frameProcessor;
        var annotated := fp.AnnotateOriginalFrame(Canvas(Footage(frame), []), detections, true);
        transformer.Some? ==>
          var tm := TrackMovement(old(fp.movementHistory), detections, transformer.value, fp.kit.project, |TrackedKinds|);
          fp.movementHistory == tm.history &&
          (tm.error.Some? ==> r == Raise(tm.error.value) && lastRadar == old(lastRadar)) &&
          (tm.error.None? ==>
            var img := RadarImage(fp.pitchConfig, detections, transformer.value, fp.kit.project, fp.TeamCentroids(),
                                  fp.playerTeamAssignments, fp.movementHistory, false);
            (img.Raise? ==> r == Raise(img.error) && lastRadar == old(lastRadar)) &&
            (img.Ok? ==> r == Ok((annotated, ResizedRadar(img.value, radarWidth, radarHeight))) && lastRadar == r.value.1))
      ensures r.Ok? ==> r.value.0.Height() == frame.height && r.value.0.Width() == frame.width &&
                        r.value.1.Height() == radarHeight && r.value.1.Width() == radarWidth
    {
      frameProcessor.UpdateTeamClassification(detections, frame);
      var annotated := frameProcessor.AnnotateOriginalFrame(Canvas(Footage(frame), []), detections, true);
      ghost var centroids, assignments := frameProcessor.TeamCentroids(), frameProcessor.playerTeamAssignments;
      var radar;
      if transformer.Some? {
        var made := CreateRadarWithTracking(detections, transformer.value);
        if made.Raise? {
          return Raise(made.error);
        }
        radar := made.value;
      } else {
        radar := HandleMissingTransformer();
      }
      assert frameProcessor.TeamCentroids() == centroids && frameProcessor.playerTeamAssignments == assignments;
      r := Ok((annotated, radar));
    }

    /** `process_frame`. Both parallel detections run before either result is
        taken, so the trackers and the remembered players move on even when
        `detect_keypoints` raised; its exception is then re-raised before any
        team, history or radar state changes. Otherwise the rest is
        `RenderFrame` on what the two detections returned, which are also
        given back, as ghost values, in `keypoints` and `detections`. */
    method ProcessFrame(frame: Frame)
      returns (r: Result<(Canvas, Canvas)>, ghost keypoints: Result<Option<ViewTransformer>>, ghost detections: FrameDetections)
      requires Valid()
      modifies this`lastRadar, frameProcessor`lastSuccessfulTransformer,
               frameProcessor`playerTracker, frameProcessor`goalkeeperTracker, frameProcessor`refereeTracker,
               frameProcessor`ballTracker, frameProcessor`lastSeenPlayers,
               frameProcessor`team0Centroid, frameProcessor`team1Centroid, frameProcessor`playerTeamAssignments,
               frameProcessor`movementHistory
      ensures Valid()
      ensures var fp := frameProcessor;
        var o := FrameRules.DetectObjects(frame, old(fp.playerModel), old(fp.ballModel), fp.kit, old(fp.playerTracker),
                                          old(fp.goalkeeperTracker), old(fp.refereeTracker), old(fp.ballTracker),
                                          old(fp.lastSeenPlayers), old(fp.playerTeamAssignments), old(fp.TeamCentroids()));
        detections == o.results &&
        fp.playerTracker == o.playerTracker && fp.goalkeeperTracker == o.goalkeeperTracker &&
        fp.refereeTracker == o.refereeTracker && fp.ballTracker == o.ballTracker && fp.lastSeenPlayers == o.seen
      ensures var fp := frameProcessor;
        var cal := Calibrate(old(fp.keypointModel), fp.pitchConfig, frame, fp.kit, old(fp.lastSuccessfulTransformer));
        (cal.Raise? ==> keypoints == Raise(cal.error) && fp.lastSuccessfulTransformer == old(fp.lastSuccessfulTransformer)) &&
        (cal.Ok? ==> keypoints == Ok(cal.value.result) && fp.lastSuccessfulTransformer == cal.value.last)
      ensures var fp := frameProcessor;
        keypoints.Raise? ==>
          r == Raise(keypoints.error) && fp.TeamCentroids() == old(fp.TeamCentroids()) &&
          fp.playerTeamAssignments == old(fp.playerTeamAssignments) &&
          fp.movementHistory == old(fp.movementHistory) && lastRadar == old(lastRadar)
      ensures var fp := frameProcessor;
        var c := ClassifyTeams(frame, detections, fp.kit);
        keypoints.Ok? ==>
          (c.None? ==> fp.TeamCentroids() == old(fp.TeamCentroids()) &&
                       fp.playerTeamAssignments == old(fp.playerTeamAssignments)) &&
          (c.Some? ==> fp.TeamCentroids() == c.value.centroids &&
                       fp.playerTeamAssignments == MergeAssignments(old(fp.playerTeamAssignments), c.value.assignments))
      ensures var fp := frameProcessor;
        var annotated := fp.AnnotateOriginalFrame(Canvas(Footage(frame), []), detections, true);
        keypoints.Ok? && keypoints.value.None? ==>
          fp.movementHistory == old(fp.movementHistory) && lastRadar == old(lastRadar) &&
          r == Ok((annotated, NoKeypointsRadar(old(lastRadar), radarHeight)))
      ensures var fp := frameProcessor;
        var annotated := fp.AnnotateOriginalFrame(Canvas(Footage(frame), []), detections, true);
        keypoints.Ok? && keypoints.value.Some? ==>
          var t := keypoints.value.value;
          var tm := TrackMovement(old(fp.movementHistory), detections, t, fp.kit.project, |TrackedKinds|);
          fp.movementHistory == tm.history &&
          (tm.error.Some? ==> r == Raise(tm.error.value) && lastRadar == old(lastRadar)) &&
          (tm.error.None? ==>
            var img := RadarImage(fp.pitchConfig, detections, t, fp.kit.project, fp.TeamCentroids(),
                                  fp.playerTeamAssignments, fp.movementHistory, false);
            (img.Raise? ==> r == Raise(img.error) && lastRadar == old(lastRadar)) &&
            (img.Ok? ==> r == Ok((annotated, ResizedRadar(img.value, radarWidth, radarHeight))) && lastRadar == r.value.1))
      ensures r.Ok? ==> r.value.0.Height() == frame.height && r.value.0.Width() == frame.width &&
                        r.value.1.Height() == radarHeight && r.value.1.Width() == radarWidth
    {
      ghost var centroids, assignments := frameProcessor.TeamCentroids(), frameProcessor.playerTeamAssignments;
      var transformer, found := DetectAll(frame);
      keypoints, detections := transformer, found;
      assert frameProcessor.TeamCentroids() == centroids && frameProcessor.playerTeamAssignments == assignments;
      if transformer.Raise? {
        return Raise(transformer.error), keypoints, detections;
      }
      r := RenderFrame(frame, found, transformer.value);
    }
  }
}
