# Football analysis pipeline: a Dafny model

This project models the processing core of a desktop football-video
analyser. Each video frame goes through these stages:

- A keypoint model finds pitch landmarks. From them a homography
  (`ViewTransformer`) maps image points to pitch centimetres. When too few
  landmarks are visible, the last good transformer is kept.
- A player model and a ball model detect people and the ball. ByteTrack
  trackers follow them. A referee candidate is kept only when its jersey
  hue is far from both team colours.
- Players are split into two teams by clustering their jersey colours.
  Each team keeps its colour centroid.
- The frame is annotated with dots, labels, jersey boxes and a team legend.
- A top-down "radar" of the pitch shows every detected person and the
  ball. When no transformer is available, the last radar is shown with a
  "No Keypoints Detected" notice.
- Players, goalkeepers and the ball each leave a trail of up to 50 pitch
  positions.
- A background worker runs this over the whole video:
  - it sends a preview every fifth frame, writes two numbered JPEG files
    per frame and reports progress after each frame;
  - at the end it sends the list of written files, unless it was stopped.

Modules, in dependency order:

| module | models |
|---|---|
| `Common` | Python-level values: `Option`, exceptions as `Result`, points, boxes, `int()` truncation, `np.clip`, f-string integer rendering, order-keeping filters |
| `Pitch` | `SoccerPitchConfiguration` (utils/config.py): the 32 vertices, edges, labels, colours |
| `View` | `ViewTransformer` (utils/view.py): its guards and how it delegates to OpenCV |
| `Draw` | utils/Draw.py: `draw_pitch`, `draw_points_on_pitch`, `draw_paths_on_pitch`, on images modelled as drawing logs |
| `Scene` | detections, detection kinds, team centroids, the jersey crop rectangle |
| `Annotation` | `FrameAnnotator` (utils/backend.py): colour and label choices and the layout of what it draws |
| `FrameRules` | the pure rules behind `FrameProcessor`: calibration, detection, referee filter, remembered players, movement history, team classification, radar layers |
| `FrameProcessing` | class `FrameProcessor`, whose methods update its fields as the Python methods do, each proved against the functions of `FrameRules` |
| `VideoProcessing` | class `VideoProcessor`: `setup_video_io`, `process_frame`, `_create_radar_with_tracking`, `_handle_missing_transformer` |
| `Worker` | class `ProcessingWorker`: `run` and `stop`, with what `run` emits recorded as an event log |

How the model represents things:

- An image is a `Canvas`: a base picture (a video frame, a blank
  background, a resized radar) plus the list of drawing commands applied to
  it. So "what was drawn, in what order and with which colour" can be
  stated exactly.
- Foreign computations are uninterpreted function values of the `Kit`
  datatype, or model fields. These are YOLO inference, ByteTrack's
  association, non-maximum suppression, k-means, colour-space conversion,
  `findHomography` and `perspectiveTransform`.
- A ByteTrack instance is the sequence of inputs it has been fed since it
  was created, so a reset tracker is an empty one.
- Exceptions are `Raise` values that the callers pass on, as Python does.

## Model

| member | source | states |
|---|---|---|
| `Common.Trunc` | utils/Draw.py:152-153 | Python `int()` of a float truncates toward zero: the result is the integer part, for either sign |
| `Common.Clip` | utils/backend.py:486-487 | `np.clip` lands in `[lo, hi]`, leaves values inside unchanged and maps values outside to the nearer bound |
| `Common.NatToString` | utils/backend.py:50 | f"{n}" of a natural number is a non-empty digit string, a single digit exactly below 10 |
| `Common.IntToString` | utils/backend.py:50 | f"{i}" is a minus sign followed by digits exactly when `i` is negative, and only digits otherwise |
| `Common.PaddedNat` | workers/processing_worker.py:37-38 | f"{n:05d}" is only digits, at least the width long, and ends with the digits of `n` |
| `Common.NatToStringRoundTrip` | utils/backend.py:50 | the digits f"{n}" renders read back as `n` |
| `Common.IntToStringInjective` | utils/backend.py:50 | different integers (negative ones included) render as different f-strings |
| `Common.PaddedNatRoundTrip` | workers/processing_worker.py:37-38 | f"{n:05d}" reads back as `n`, whatever the width |
| `Common.PaddedNatInjective` | workers/processing_worker.py:37-38 | distinct frame numbers give distinct zero-padded numbers |
| `Pitch.Vertices` | utils/config.py:17-62 | the configuration has exactly 32 vertices |
| `Pitch.TablesHaveOneEntryPerVertex` | utils/config.py:17-92 | there is one label and one colour per vertex |
| `Pitch.Corners` | utils/config.py:26-59 | vertices 1, 6, 25 and 30 are the four corners of the pitch |
| `Pitch.LeftRightMirror` | utils/config.py:25-62 | the vertex list is symmetric about the half-way line: a fixed involution maps every vertex to its mirror image |
| `Pitch.TopBottomMirror` | utils/config.py:25-62 | the vertex list is symmetric about the long axis, by another involution |
| `Pitch.CentreCircle` | utils/config.py:40-61 | vertices 15, 16, 31 and 32 lie on the centre circle, one radius from the centre spot |
| `Pitch.EdgesInRange` | utils/config.py:65-75 | every edge joins two vertex numbers between 1 and 32 |
| `Pitch.VerticesInField` | utils/config.py:17-62 | with plausible dimensions, every vertex lies inside the pitch |
| `Pitch.DefaultIsPlausible` | utils/config.py:8-16 | the default dimensions are plausible: boxes inside the field, the centre circle inside the field width |
| `View.NewViewTransformerOutcome` | utils/view.py:10-32 | construction succeeds exactly when the shapes match, the points are 2-D and there are at least 3 of them; it then holds `findHomography`'s matrix; each failing guard raises its own `ValueError` (shape, then columns, then fewer than 3 points), and an OpenCV exception propagates |
| `View.ThreePointsPassTheGuard` | utils/view.py:28-32 | three points pass the guard, although its message says at least 4 are required: the outcome is `findHomography`'s, whatever it is, while the intended guard raises its `ValueError` |
| `View.NewViewTransformerChecked` | utils/view.py:28-29 | with the guard as its message states it, any transformer built has at least 4 points, and 2-D inputs of fewer raise the message |
| `View.CheckedAgreesFromFourPoints` | utils/view.py:28-32 | from 4 points on, the corrected constructor and the original agree |
| `View.TransformPoints` | utils/view.py:34-56 | a non-empty success has a matrix and 2-D input, and maps point `i` to the perspective transform of row `i` |
| `View.TransformPointsGuards` | utils/view.py:39-49 | empty input gives an empty result; a missing matrix raises `RuntimeError`, non-2-D points raise `ValueError` |
| `View.TransformPointListIsPointwise` | utils/view.py:51-56 | transforming a concatenation of point lists is the concatenation of the transforms |
| `View.TransformImage` | utils/view.py:58-73 | a missing matrix raises `RuntimeError`; an image that is neither grey nor colour raises `ValueError`; otherwise the result is the warp with the stored matrix |
| `View.PointsArray` | utils/backend.py:278-279 | `np.array` of a point list is an (n, 2) array with one row `[x, y]` per point, in order |
| `Draw.PitchPictureLayout` | utils/Draw.py:20-40 | the pitch is a fresh background of the requested size with one line per edge, in edge order, between the scaled 1-indexed vertices, followed by five more markings |
| `Draw.DrawPitch` | utils/Draw.py:7-106 | the loop over the edges, then the circle, arcs and spots, gives exactly the picture above |
| `Draw.DrawEdge` | utils/Draw.py:23-40 | one pass of the edge loop draws exactly that edge's line |
| `Draw.StartPitch` | utils/Draw.py:142-147 | a supplied pitch is drawn on; a missing one is replaced by `draw_pitch` with the helper's padding and scale |
| `Draw.PointsMarksLayout` | utils/Draw.py:150-171 | each point gets two circles, in input order: a filled face, then an edge of the given thickness |
| `Draw.DrawPointsOnPitch` | utils/Draw.py:129-173 | the result is the start pitch with those circles appended, and nothing else |
| `Draw.NormalizeColorsCases` | utils/Draw.py:194-200 | no colours gives white for every path; a shorter list is repeated cyclically and cut to one colour per path; a long enough list is kept; an empty list with paths raises `ZeroDivisionError` |
| `Draw.PathLinesCount` | utils/Draw.py:204-223 | a path of fewer than 2 points draws nothing; otherwise one segment joins each pair of consecutive scaled points |
| `Draw.PathsLinesCount` | utils/Draw.py:203-223 | the number of segments drawn is the number of points after the first, over the paths with at least 2 points |
| `Draw.ScalePath` | utils/Draw.py:209-213 | every point of a path is scaled and padded, in order |
| `Draw.DrawPath` | utils/Draw.py:204-223 | the inner loop draws exactly the segments of that path |
| `Draw.DrawPathsOnPitch` | utils/Draw.py:176-225 | the colour error propagates; otherwise each path's segments are drawn in its normalised colour, in path order, and the drawn pitch is returned |
| `Scene.JerseyCrop` | utils/backend.py:481-487 | the clipped jersey rectangle lies inside the image on both axes |
| `Scene.JerseyRegion` | utils/backend.py:481-489 | a region is extracted exactly when the clipped rectangle is non-empty, and it is that rectangle |
| `Scene.JerseyCropInsideImage` | utils/backend.py:482-487 | for a box inside the image, the crop is rows 30 to 55 % and columns 35 to 65 % of the box |
| `Scene.JerseyRegionOfLargeBox` | utils/backend.py:481-489 | a box at least 4 pixels wide and high inside the image always yields a jersey region |
| `Annotation.TrackLabelInjective` | utils/backend.py:50 | different tracker ids get different labels under the same prefix |
| `Annotation.DotAndLabelLayout` | utils/backend.py:45-61 | one dot per detection, then one label per detection, with the kind's colour and prefix |
| `Annotation.AnnotateBall` | utils/backend.py:63-72 | the ball is drawn only when exactly one ball is detected: a red ring and a "Ball:id" caption below it |
| `Annotation.TeamDisplayColors` | utils/backend.py:109-122 | teams 0 and 1 get their centroid colour in BGR, or blue and red without one; team -1 is white |
| `Annotation.DisplayColorOutsideTeams` | utils/backend.py:138-139 | an id with no assigned team is drawn white, as is any team other than 0 and 1 |
| `Annotation.TeamLabel` | utils/backend.py:144 | the label is "T?" exactly for an unassigned player |
| `Annotation.TeamLabelInjective` | utils/backend.py:144 | different teams get different labels |
| `Annotation.JerseyMarksContents` | utils/backend.py:124-164 | the team label always comes last in the team's colour; the jersey box appears exactly when the crop is non-empty; without a centroid there is no swatch and no RGB text |
| `Annotation.TeamInfoLayout` | utils/backend.py:168-192 | four commands per known centroid, with team 1's row 40 pixels below team 0's |
| `Annotation.AnnotateFrameKeepsFrame` | utils/backend.py:74-99 | annotation only draws on top of the frame; with no detections and nothing shown it leaves the frame as it was; a ball list of any size other than one adds nothing |
| `FrameRules.Update` | utils/backend.py:345-346 | feeding a tracker appends exactly that input to what it has seen |
| `FrameRules.ConfidenceMask` | utils/backend.py:277 | one flag per keypoint, set exactly when its confidence exceeds 0.5 |
| `FrameRules.MaskedLength` | utils/backend.py:278-281 | masking keeps as many points as there are set flags |
| `FrameRules.MaskedAll` | utils/backend.py:277-279 | the all-ones confidence fallback keeps every point |
| `FrameRules.MaskedAppend` | utils/backend.py:278-279 | a boolean mask keeps the flagged rows in their order: masking a concatenation masks each part and joins the results |
| `FrameRules.MaskedPairs` | utils/backend.py:276-279 | masking the frame points and the pitch vertices with the same mask keeps them paired: the j-th kept point and the j-th kept vertex come from the same flagged index |
| `FrameRules.CalibrateOutcome` | utils/backend.py:256-295 | the remembered transformer only changes to one built from at least 4 confident points of the first instance, against the matching vertices, and the result is the remembered transformer; without a model nothing changes |
| `FrameRules.CalibrateCases` | utils/backend.py:256-295 | each branch of `detect_keypoints`: no model, no keypoints or no instance keep the last transformer; a mask that does not fit raises `IndexError`; fewer than 4 confident points keep the last; otherwise the new transformer from the confident points and their vertices is returned and remembered, and a construction failure keeps the last |
| `FrameRules.CalibrateWithoutConfidence` | utils/backend.py:276-295 | with no confidence array, all 32 points are used; a construction failure keeps the last transformer |
| `FrameRules.DominantColor` | utils/backend.py:496-498 | a colour is found only for a non-empty crop with at least 3 pixels, and it is the k-means colour of that crop |
| `FrameRules.HueDistanceFacts` | utils/backend.py:326-327 | the circular hue distance is symmetric, zero on equal hues, at most 90 on OpenCV hues, and 1 from 0 to 179 |
| `FrameRules.RefereeFilter` | utils/backend.py:297-334 | without both centroids every referee is kept; otherwise exactly the referees whose hue is more than 20 from both teams |
| `FrameRules.RefereesPreserveOrder` | utils/backend.py:308-334 | the filter works detection by detection and keeps the input order |
| `FrameRules.RefereeFilterOne` | utils/backend.py:308-334 | with both centroids known, a single referee is kept exactly when its hue is far enough from both teams |
| `FrameRules.ClassIdOf` | utils/backend.py:342-344 | `class_map.get(name, default)`: the last index carrying that name, or the default when no class has it |
| `FrameRules.ClassIdOfNameIndex` | utils/backend.py:342-344 | the class id looked up by name agrees with the inverted `names` map, with the default for a missing name |
| `FrameRules.NameIndex` | utils/backend.py:252-254 | the inverted map has one key per class name, mapped to an index that carries that name |
| `FrameRules.BestIndex` | utils/backend.py:367-369 | the chosen ball is the first candidate of maximal confidence |
| `FrameRules.RecordSeenContents` | utils/backend.py:347-354 | every tracked player is remembered with counter 0 and its current team (-1 if none); other entries are unchanged |
| `FrameRules.Aged` | utils/backend.py:371-380 | a player seen now is reset to 0; others count one more frame and are forgotten past 20; box and team are kept |
| `FrameRules.AgedUnseenForgets` | utils/backend.py:371-378 | a player unseen for `n` frames in a row is kept exactly while its counter stays within 20 |
| `FrameRules.DetectObjectsOutcome` | utils/backend.py:336-382 | the ball tracker gets at most the single most confident candidate; the three people trackers advance together, or not at all without a player model; all counters stay within 20 and tracked players are at 0 |
| `FrameRules.Push` | utils/backend.py:476-479 | a trail gains the newest point last and keeps at most the last 50 |
| `FrameRules.Record` | utils/backend.py:474-479 | a new key starts empty and goes to the end of the key order; only that key's trail changes |
| `FrameRules.RecordKeepsInvariants` | utils/backend.py:474-479 | recording keeps the key order a duplicate-free listing of the keys, and every trail between 1 and 50 points |
| `FrameRules.RecordAllInvariants` | utils/backend.py:470-479 | recording a whole detection list keeps those invariants and only adds keys, at the end of the order |
| `FrameRules.ProjectAnchors` | utils/backend.py:466-468 | projection succeeds exactly for an empty list or a transformer with a matrix, one pitch point per detection |
| `FrameRules.TrackMovementStops` | utils/backend.py:462-468 | a projection error stops the kind loop and propagates |
| `FrameRules.TrackKindFrame` | utils/backend.py:464-479 | one kind's pass keeps the history invariants and changes no key of another kind, nor of an id not tracked now |
| `FrameRules.TrackMovementFrame` | utils/backend.py:459-479 | tracking keeps the history invariants and leaves every key of another kind, or of an id not tracked now, unchanged |
| `FrameRules.TrackMovementSkipsReferees` | utils/backend.py:462 | referees are never recorded in the movement history |
| `FrameRules.TrackMovementAppendsPlayer` | utils/backend.py:470-479 | a player tracked once appends the projection of its bottom centre to its trail |
| `FrameRules.RecordAllOne` | utils/backend.py:470-479 | a detection whose id occurs once in the list extends exactly its own trail by its point |
| `FrameRules.RecordAllAbsent` | utils/backend.py:470-479 | a key that no detection names keeps its trail and its presence |
| `FrameRules.RecordAllAppend` | utils/backend.py:470-479 | recording two runs of detections one after the other is recording the second run on the history the first left |
| `FrameRules.PlayerColors` | utils/backend.py:515-525 | one colour and one id are collected together, never more than there are players |
| `FrameRules.PlayerColorsKept` | utils/backend.py:515-525 | the ids collected are those of exactly the players whose jersey gives a dominant colour, in player order, each paired with that colour |
| `FrameRules.AssignmentMap` | utils/backend.py:529-532 | every colour-bearing id gets a team, and every team is 0 or 1 |
| `FrameRules.AssignmentMapLastWins` | utils/backend.py:532 | an id's team is the label of its last occurrence |
| `FrameRules.ClassifyTeams` | utils/backend.py:508-532 | teams are classified only when there are players and at least 2 of them gave a colour; both centroids are then known and at least one id is assigned |
| `FrameRules.ClassifyTeamsFound` | utils/backend.py:508-532 | conversely, at least 2 player colours always give a classification, whose assignments name exactly the colour-bearing players' ids |
| `FrameRules.MergeAssignments` | utils/backend.py:537 | new assignments override old ones for the ids they name; all other ids keep theirs |
| `FrameRules.MergeKeepsTeams` | utils/backend.py:534-537 | merging a classification keeps every assigned team in {0, 1} |
| `FrameRules.RadarDotRules` | utils/backend.py:414-437 | an off-pitch point leaves no mark; the ball is red with radius 10; an unassigned player is white; goalkeepers and referees have radius 8 |
| `FrameRules.OnPitchInclusive` | utils/backend.py:419 | the pitch bounds are inclusive on both sides |
| `FrameRules.PlayerDotsCount` | utils/backend.py:414-421 | the players' layer has two circles for each projected point on the pitch |
| `FrameRules.KindLayersStop` | utils/backend.py:423-437 | a projection error in one kind is the error of the whole radar |
| `FrameProcessing.FrameProcessor.constructor` | utils/backend.py:197-216 | no models, four fresh trackers, an empty history and no team information |
| `FrameProcessing.FrameProcessor.ResetState` | utils/backend.py:218-245 | the trackers are fresh and the team, remembered-player and transformer state is cleared; the movement history is kept |
| `FrameProcessing.FrameProcessor.LoadModels` | utils/backend.py:247-254 | the three models are stored and the class ids are the inverted name map |
| `FrameProcessing.FrameProcessor.DetectKeypoints` | utils/backend.py:256-295 | the result and the remembered transformer are those of calibration; an exception leaves the state unchanged |
| `FrameProcessing.FrameProcessor.FilterRefereesByColor` | utils/backend.py:297-334 | the loop keeps exactly the referees of the filter |
| `FrameProcessing.FrameProcessor.RecordSeenPlayers` | utils/backend.py:347-354 | the loop records the players as the rule says |
| `FrameProcessing.FrameProcessor.AgeLastSeen` | utils/backend.py:371-380 | the loop over a snapshot of the keys ages and forgets as the rule says |
| `FrameProcessing.FrameProcessor.DetectPeople` | utils/backend.py:340-360 | the three trackers and the remembered players change exactly as the people part of the detection rule says |
| `FrameProcessing.FrameProcessor.DetectBall` | utils/backend.py:362-369 | the ball tracker changes exactly as the ball part says |
| `FrameProcessing.FrameProcessor.DetectObjects` | utils/backend.py:336-382 | results, trackers and remembered players are those of the detection rule, and the invariants hold |
| `FrameProcessing.FrameProcessor.RecordPoint` | utils/backend.py:474-479 | one append-and-trim of the history |
| `FrameProcessing.FrameProcessor.RecordKind` | utils/backend.py:470-479 | the loop over one kind's detections records them in order |
| `FrameProcessing.FrameProcessor.TrackPlayerMovement` | utils/backend.py:459-479 | the new history and any error are those of the tracking rule, and the history invariants hold |
| `FrameProcessing.FrameProcessor.CollectPlayerColors` | utils/backend.py:515-525 | the loop collects exactly the colours and ids of the rule |
| `FrameProcessing.FrameProcessor.ClassifyTeamsByJerseyColor` | utils/backend.py:508-532 | no classification returns an empty map and keeps the centroids; otherwise its assignments are returned and its centroids stored; teams are 0 or 1 |
| `FrameProcessing.FrameProcessor.UpdateTeamClassification` | utils/backend.py:534-537 | a classification overrides the old assignments for the ids it names and replaces the centroids; no classification changes nothing |
| `FrameProcessing.FrameProcessor.MergeCurrent` | utils/backend.py:537 | the update is the merge, and assigned teams stay in {0, 1} |
| `FrameProcessing.FrameProcessor.AnnotateOriginalFrame` | utils/backend.py:384-395 | only draws on the frame; without jersey analysis the annotator gets no team state |
| `FrameProcessing.FrameProcessor.DrawPlayers` | utils/backend.py:408-421 | the players loop draws exactly the players' layer |
| `FrameProcessing.FrameProcessor.DrawKind` | utils/backend.py:428-437 | the point loop of one kind draws exactly that kind's dots |
| `FrameProcessing.FrameProcessor.DrawRadarKinds` | utils/backend.py:423-437 | the kind loop draws the goalkeepers', referees' and ball's layers in order, or raises the first projection error |
| `FrameProcessing.FrameProcessor.DrawTrails` | utils/backend.py:439-455 | the history loop draws every trail of at least 2 points, in key order |
| `FrameProcessing.FrameProcessor.DrawTrail` | utils/backend.py:441-451 | one trail is drawn in its team's colour when it has at least 2 points |
| `FrameProcessing.FrameProcessor.CreateRadarImage` | utils/backend.py:397-457 | the radar, or the projection error, is exactly `RadarImage`: pitch, players, other kinds, then trails when asked for |
| `VideoProcessing.FpsOrDefault` | utils/backend.py:566 | the rate is never 0: the truncated reported rate, or 25 when that is 0 |
| `VideoProcessing.NoKeypointsRadar` | utils/backend.py:627-639 | the last radar keeps its size and drawings and gains the notice, once, on top: white text at (50, height / 2), scale 1, thickness 2 |
| `VideoProcessing.ResizedRadar` | utils/backend.py:623 | the resized radar has exactly the radar size |
| `VideoProcessing.NoKeypointsRadarOnStoredRadar` | utils/backend.py:627-639 | on the stored radar, the notice is the only drawing, however many frames in a row lack keypoints |
| `VideoProcessing.VideoProcessor.constructor` | utils/backend.py:542-553 | no capture, no frames and a black radar of the radar size |
| `VideoProcessing.VideoProcessor.SetupVideoIo` | utils/backend.py:555-569 | reports whether the file opened; if it did, the size, rate and frame count are read from the capture |
| `VideoProcessing.VideoProcessor.HandleMissingTransformer` | utils/backend.py:627-639 | the stored radar with the notice |
| `VideoProcessing.VideoProcessor.CreateRadarWithTracking` | utils/backend.py:615-625 | the history is tracked; on success the radar without paths is resized and stored; an error propagates and leaves the stored radar |
| `VideoProcessing.VideoProcessor.DetectAll` | utils/backend.py:574-578 | both detections run to completion, each as its rule says |
| `VideoProcessing.VideoProcessor.RenderFrame` | utils/backend.py:580-613 | classification, annotation and radar, each as its rule says; success gives a frame-sized annotation and a radar-sized radar |
| `VideoProcessing.VideoProcessor.ProcessFrame` | utils/backend.py:571-613 | both detections always run; a keypoint exception is then re-raised before any team, history or radar change; otherwise classification, annotation and radar follow their rules |
| `Worker.JoinPathInjective` | workers/processing_worker.py:37-38 | joining the same directory with different names gives different paths |
| `Worker.Record` | workers/processing_worker.py:42-46 | every record is marked selected |
| `Worker.RecordPathsDistinct` | workers/processing_worker.py:37-38 | different frames get different annotated and radar paths, and no annotated path is a radar path |
| `Worker.PercentBounds` | workers/processing_worker.py:51 | within the reported frame count, progress lies in [0, 100] and is 100 at the last frame |
| `Worker.SucceededFrames` | workers/processing_worker.py:31-49 | exactly the frames whose processing succeeded, in increasing order |
| `Worker.RecordsOfSucceededFrames` | workers/processing_worker.py:42-46 | one record per succeeded frame, in frame order |
| `Worker.RecordsDistinct` | workers/processing_worker.py:37-46 | no two records name the same file |
| `Worker.ProgressReportsAt` | workers/processing_worker.py:51-52 | the i-th report is for frame i + 1 of the total; within the total every percentage lies in [0, 100], and the last is 100 |
| `Worker.LoopProgress` | workers/processing_worker.py:27-52 | the progress reports of the loop are exactly one per frame read, in order, whether or not the frame failed |
| `Worker.TryEventsKinds` | workers/processing_worker.py:31-49 | one iteration's try block sends no progress report, and a preview only when the frame succeeded and is a fifth frame |
| `Worker.LoopPreviews` | workers/processing_worker.py:34-35 | previews are sent exactly for the succeeded frames whose index is a multiple of 5 |
| `Worker.LoopNeverFinishes` | workers/processing_worker.py:27-52 | the loop itself never sends `finished` |
| `Worker.Steps` | workers/processing_worker.py:27-29 | the loop processes every frame, or stops at the first test after `stop()` |
| `Worker.ProcessingWorker.constructor` | workers/processing_worker.py:13-17 | the worker starts running, with its processor and directory |
| `Worker.ProcessingWorker.Stop` | workers/processing_worker.py:58-59 | stop only lowers the running flag |
| `Worker.ProcessingWorker.TryFrame` | workers/processing_worker.py:31-49 | the events and the added record of one try block, on what processing the frame gave |
| `Worker.ProcessingWorker.FrameLoop` | workers/processing_worker.py:27-52 | the loop's events and records are those of its outcomes, as many as the stop allows; a zero frame count raises at the first report |
| `Worker.ProcessingWorker.Run` | workers/processing_worker.py:19-56 | an unopened video sends only the error; otherwise the loop, `cap.release()`, then `finished` with the records only when still running; a stop that takes effect within the frames run means no `finished` |

## Left out

- Model internals (YOLO, ByteTrack association, non-maximum suppression, k-means, OpenCV colour conversion, `findHomography`, `perspectiveTransform`, `warpPerspective`, `cv2.resize`) are uninterpreted functions of the `Kit` datatype; their numeric results are not modelled.
- Detection thresholds (0.45, 0.1, NMS 0.3 and 0.1) are passed to the uninterpreted detector and NMS functions; what they filter is not modelled.
- `check_cuda`, the torch device and `.to(device)` are left out: they only choose where the code runs.
- `load_models` takes the three loaded models as parameters instead of file paths; loading is I/O.
- `cv2.VideoCapture`, `cap.read()` and `cap.release()` are modelled by a `Capture` value (`isOpened`, the frames read before the first failure, the reported properties) and a `CaptureReleased` event. The `not ret` exit is the end of that frame list.
- `cv2.imwrite` is an `ImageWritten` event; its failure (a `False` return, ignored by the source) is not modelled.
- Console messages are not modelled, except the one the `except` branch of `run` prints, which is a `FrameFailed` event.
- The thread pool of `process_frame` is modelled as its sequential order. The keypoint and object detections both complete before either result is used. Team classification runs before annotation, which reads its result. The effect of running the two truly in parallel is not modelled.
- The `QThread` and the timing of `stop()` are modelled by the parameter `stopAt`: the step before whose test `stop()` takes effect.
- Qt signals are events in a log; Qt's queued delivery is not modelled.
- `__del__` (the executor shutdown) is left out.
- Floats are exact reals. A rounding difference between a float and its exact value is not modelled; NaN and infinite values are not modelled.
- `Worker.Percent`: exact arithmetic, so `int(29 / 100 * 100)` is 29, where the float evaluation gives 28.
- Images are values: each helper returns the drawn image and callers rebind it, as the source does. In-place aliasing of numpy arrays (the helpers draw on the array they are given and return it) is not modelled.
- `VideoProcessing.VideoProcessor.ProcessFrame`: the keypoint result and the detections are returned as ghost outputs for the contract; the source returns only the two images.
- `Worker.ProcessingWorker.Run`, `Worker.ProcessingWorker.TryFrame`: the outcome of each frame is what `ProcessFrame` returned. The worker's contract does not restate `ProcessFrame`'s, because the worker sees only its result.
- `tracker_id` is taken to be present on every tracked detection list. supervision's `None` case is not modelled, so the `tracker_id is None` branches are not modelled.
- A `movement_history` key `f"{key}_{tracker_id}"` is the pair (kind, id). The `int(str(...).split('_')[-1])` of `create_radar_image` is the id part of that pair.
- The path colour looks up a goalkeeper or ball id in the player assignments, as the source does; the model keeps this.
- The `except` branch of the path drawing in `create_radar_image` cannot be reached (one colour, one path), so it is not modelled.
- The `position_history` and `smoothing_window_size` that `reset_state` creates are never read; they are not modelled.
- `team_colors_initialized` is never set to `True` by the source; it is a field that stays `False`.
- `getattr(self.pitch_config, 'vertices', None)` is always a non-empty list, so that guard is not modelled separately.
- The edges, labels and colours of the pitch configuration are constants, not per-instance fields.
- `detect_objects` has no `try`; an exception from a foreign call there is not modelled.
- `os.path.join` is modelled for POSIX paths and a relative file name only.
- `Worker.JoinPath` has no contract of its own; `Worker.JoinPathInjective` states what the worker relies on.
- Pitch drawing: the exact geometry of the arcs and circles is not drawn pixel by pixel, only the command list.
- The user interface (`ui/`), `main.py` and the Firebase login are not part of this model.

## Findings

| source | as written | input that shows it | evidently intended | confidence | as-written member | corrected member |
|---|---|---|---|---|---|---|
| utils/view.py:28-29 | the guard is `len(source) < 3`, so three points reach `findHomography` and the error, if any, is OpenCV's instead of the guard's message; the one caller, utils/backend.py:281, passes at least 4 points, so the gap is latent there | source and target of three 2-D points each | the guard the message states, `len(source) < 4` | high; not executed | `View.ThreePointsPassTheGuard` | `View.NewViewTransformerChecked` |
