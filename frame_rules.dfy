/** The rules `FrameProcessor` applies to each frame, as functions of its
    state and of the outputs of the foreign models. The class in
    frame_processor.dfy runs these steps imperatively and is proved to
    produce what these functions describe. */
module FrameRules {
  import opened Common
  import opened Pitch
  import opened View
  import opened Draw
  import opened Scene

  // ---------------------------------------------------------------------
  // The foreign models
  // ---------------------------------------------------------------------

  /** A YOLO detector: its per-frame detections (at its fixed confidence
      threshold) and its `model.names`, indexed by class id. */
  datatype Detector = Detector(infer: Frame -> seq<Candidate>, names: seq<string>)

  /** One detected keypoint skeleton: 2-D points and, when the model gives
      them, their confidences. */
  datatype KeypointInstance = KeypointInstance(xy: seq<Point>, confidence: Option<seq<real>>)

  /** The keypoint model: `None` when the result carries no keypoints. */
  type KeypointDetector = Frame -> Option<seq<KeypointInstance>>

  /** A KMeans team label, 0 or 1. */
  type TeamIndex = t: int | 0 <= t < 2

  /** The foreign computations the processor relies on. */
  datatype Kit = Kit(
    nms: (seq<Candidate>, real) -> seq<Candidate>,            // Detections.with_nms(threshold)
    track: seq<seq<Candidate>> -> seq<Detection>,             // ByteTrack, from its input history
    dominant: (Frame, Crop) -> Rgb,                           // medianBlur, RGB, KMeans(3), majority centre
    hue: Rgb -> int,                                          // the H channel of cv2 RGB2HSV
    clusterTeams: seq<Rgb> -> (Rgb, Rgb),                     // KMeans(2) cluster centres
    teamOf: (seq<Rgb>, nat) -> TeamIndex,                     // KMeans(2) label of the i-th colour
    findHomography: FindHomography,
    project: Projection)

  /** `sv.ByteTrack()`: a deterministic tracker, whose output depends only on
      what it has been fed since it was created. */
  datatype ByteTrack = ByteTrack(fed: seq<seq<Candidate>>)

  const FreshTracker := ByteTrack([])

  /** `tracker.update_with_detections(input)`: the tracker with one more
      input, and its output for that input. */
  function Update(t: ByteTrack, input: seq<Candidate>, kit: Kit): (r: (ByteTrack, seq<Detection>))
    ensures r.0.fed == t.fed + [input]
  {
    (ByteTrack(t.fed + [input]), kit.track(t.fed + [input]))
  }

  // ---------------------------------------------------------------------
  // detect_keypoints
  // ---------------------------------------------------------------------

  /** A keypoint is kept when its confidence is strictly above this. */
  const KeypointConfidence: real := 0.5

  function Ones(n: nat): (s: seq<real>)
    ensures |s| == n && forall i :: 0 <= i < n ==> s[i] == 1.0
  {
    seq(n, i => 1.0)
  }

  /** `conf > 0.5` elementwise. */
  function ConfidenceMask(conf: seq<real>): (mask: seq<bool>)
    ensures |mask| == |conf| && forall i :: 0 <= i < |conf| ==> (mask[i] <==> conf[i] > KeypointConfidence)
  {
    seq(|conf|, i requires 0 <= i < |conf| => conf[i] > KeypointConfidence)
  }

  /** `xs[mask]` for a boolean mask of the same length. */
  function Masked<T>(xs: seq<T>, mask: seq<bool>): (r: seq<T>)
    requires |xs| == |mask|
    ensures |r| <= |xs|
    ensures forall x :: x in r ==> x in xs
  {
    if xs == [] then []
    else Masked(xs[..|xs| - 1], mask[..|mask| - 1]) + (if mask[|mask| - 1] then [xs[|xs| - 1]] else [])
  }

  /** The number of set entries of a mask. */
  function Count(mask: seq<bool>): nat
  {
    if mask == [] then 0 else Count(mask[..|mask| - 1]) + (if mask[|mask| - 1] then 1 else 0)
  }

  /** Masking two arrays with one mask keeps them in correspondence: both
      keep as many rows as the mask has set entries. */
  lemma {:induction false} MaskedLength<T>(xs: seq<T>, mask: seq<bool>)
    requires |xs| == |mask|
    ensures |Masked(xs, mask)| == Count(mask)
  {
    if xs != [] {
      MaskedLength(xs[..|xs| - 1], mask[..|mask| - 1]);
    }
  }

  /** A mask with every entry set keeps everything. */
  lemma {:induction false} MaskedAll<T>(xs: seq<T>, mask: seq<bool>)
    requires |xs| == |mask| && forall i :: 0 <= i < |mask| ==> mask[i]
    ensures Masked(xs, mask) == xs
  {
    if xs != [] {
      MaskedAll(xs[..|xs| - 1], mask[..|mask| - 1]);
    }
  }

  /** Masking works entry by entry: a concatenation is masked part by part. */
  lemma {:induction false} MaskedAppend<T>(a: seq<T>, ma: seq<bool>, b: seq<T>, mb: seq<bool>)
    requires |a| == |ma| && |b| == |mb|
    ensures Masked(a + b, ma + mb) == Masked(a, ma) + Masked(b, mb)
    decreases |b|
  {
    if b == [] {
      assert a + b == a && ma + mb == ma;
    } else {
      var n := |b| - 1;
      assert (a + b)[..|a + b| - 1] == a + b[..n];
      assert (ma + mb)[..|ma + mb| - 1] == ma + mb[..n];
      MaskedAppend(a, ma, b[..n], mb[..n]);
    }
  }

  /** Masking two arrays with one mask keeps their rows paired: the j-th row
      kept from each comes from the same set entry of the mask. */
  lemma {:induction false} MaskedPairs<T, U>(xs: seq<T>, ys: seq<U>, mask: seq<bool>, j: nat)
    requires |xs| == |mask| && |ys| == |mask| && j < Count(mask)
    ensures |Masked(xs, mask)| == |Masked(ys, mask)| == Count(mask)
    ensures exists i :: 0 <= i < |mask| && mask[i] && Masked(xs, mask)[j] == xs[i] && Masked(ys, mask)[j] == ys[i]
    decreases |mask|
  {
    MaskedLength(xs, mask);
    MaskedLength(ys, mask);
    var n := |mask| - 1;
    MaskedLength(xs[..n], mask[..n]);
    MaskedLength(ys[..n], mask[..n]);
    if j < Count(mask[..n]) {
      MaskedPairs(xs[..n], ys[..n], mask[..n], j);
      var i :| 0 <= i < n && mask[..n][i] && Masked(xs[..n], mask[..n])[j] == xs[..n][i] &&
               Masked(ys[..n], mask[..n])[j] == ys[..n][i];
      assert Masked(xs, mask)[j] == xs[i] && Masked(ys, mask)[j] == ys[i];
    } else {
      assert mask[n] && Masked(xs, mask)[j] == xs[n] && Masked(ys, mask)[j] == ys[n];
    }
  }

  /** What `detect_keypoints` returns, and the `last_successful_transformer`
      it leaves behind. */
  datatype Calibration = Calibration(result: Option<ViewTransformer>, last: Option<ViewTransformer>)

  /** `detect_keypoints`. Without a keypoint model, without keypoints, with
      an empty instance list, with fewer than 4 confident points or when the
      transformer cannot be built, it falls back on the last one. A
      confidence mask whose length differs from the points' or from the 32
      vertices' makes numpy raise IndexError, which is not caught. */
  function Calibrate(model: Option<KeypointDetector>, config: PitchConfiguration, frame: Frame, kit: Kit,
                     last: Option<ViewTransformer>): Result<Calibration>
  {
    if model.None? then Ok(Calibration(last, last))
    else
      var found := model.value(frame);
      if found.None? || |found.value| == 0 then Ok(Calibration(last, last))
      else
        var inst := found.value[0];
        var conf := if inst.confidence.Some? then inst.confidence.value else Ones(|inst.xy|);
        var mask := ConfidenceMask(conf);
        if |mask| != |inst.xy| || |mask| != |Vertices(config)| then Raise(IndexError)
        else
          var source := Masked(inst.xy, mask);
          var target := Masked(Vertices(config), mask);
          if |source| < 4 then Ok(Calibration(last, last))
          else
            match NewViewTransformer(PointsArray(source), PointsArray(target), kit.findHomography)
            case Raise(_) => Ok(Calibration(last, last))
            case Ok(vt) => Ok(Calibration(Some(vt), Some(vt)))
  }

  /** The transformer returned is always the one remembered afterwards; the
      remembered one only changes when at least 4 confident keypoints gave
      a transformer, which is then the homography from exactly those points
      to the corresponding pitch vertices. */
  lemma CalibrateOutcome(model: Option<KeypointDetector>, config: PitchConfiguration, frame: Frame, kit: Kit,
                         last: Option<ViewTransformer>)
    ensures Calibrate(model, config, frame, kit, last).Ok? ==>
      Calibrate(model, config, frame, kit, last).value.result == Calibrate(model, config, frame, kit, last).value.last
    ensures Calibrate(model, config, frame, kit, last).Ok? && Calibrate(model, config, frame, kit, last).value.last != last ==>
      model.Some? && model.value(frame).Some? && |model.value(frame).value| > 0 &&
      var inst := model.value(frame).value[0];
      var conf := if inst.confidence.Some? then inst.confidence.value else Ones(|inst.xy|);
      |conf| == |inst.xy| == 32 &&
      var mask := ConfidenceMask(conf);
      Count(mask) >= 4 &&
      Calibrate(model, config, frame, kit, last).value.last ==
        NewViewTransformer(PointsArray(Masked(inst.xy, mask)), PointsArray(Masked(Vertices(config), mask)),
                           kit.findHomography).ToOption()
    ensures model.None? ==> Calibrate(model, config, frame, kit, last) == Ok(Calibration(last, last))
  {
    if model.Some? {
      var found := model.value(frame);
      if found.Some? && |found.value| > 0 {
        var inst := found.value[0];
        var conf := if inst.confidence.Some? then inst.confidence.value else Ones(|inst.xy|);
        var mask := ConfidenceMask(conf);
        if |mask| == |inst.xy| && |mask| == |Vertices(config)| {
          MaskedLength(inst.xy, mask);
        }
      }
    }
  }

  /** Every outcome of `detect_keypoints`, case by case, in the order of its
      guards: no model, no keypoints or no instance keep the last
      transformer; a mask that does not fit raises IndexError; fewer than 4
      confident points keep the last transformer; otherwise the homography
      from the confident points to their vertices is returned and
      remembered, or, when its construction raises, the last one is kept. */
  lemma CalibrateCases(model: Option<KeypointDetector>, config: PitchConfiguration, frame: Frame, kit: Kit,
                       last: Option<ViewTransformer>)
    ensures model.None? || model.value(frame).None? || |model.value(frame).value| == 0 ==>
      Calibrate(model, config, frame, kit, last) == Ok(Calibration(last, last))
    ensures model.Some? && model.value(frame).Some? && |model.value(frame).value| > 0 ==>
      var inst := model.value(frame).value[0];
      var conf := if inst.confidence.Some? then inst.confidence.value else Ones(|inst.xy|);
      var mask := ConfidenceMask(conf);
      (|conf| != |inst.xy| || |conf| != 32 ==> Calibrate(model, config, frame, kit, last) == Raise(IndexError)) &&
      (|conf| == |inst.xy| == 32 && Count(mask) < 4 ==>
        Calibrate(model, config, frame, kit, last) == Ok(Calibration(last, last))) &&
      (|conf| == |inst.xy| == 32 && Count(mask) >= 4 ==>
        Calibrate(model, config, frame, kit, last) ==
          match NewViewTransformer(PointsArray(Masked(inst.xy, mask)), PointsArray(Masked(Vertices(config), mask)),
                                   kit.findHomography)
          case Raise(_) => Ok(Calibration(last, last))
          case Ok(vt) => Ok(Calibration(Some(vt), Some(vt))))
  {
    if model.Some? && model.value(frame).Some? && |model.value(frame).value| > 0 {
      var inst := model.value(frame).value[0];
      var conf := if inst.confidence.Some? then inst.confidence.value else Ones(|inst.xy|);
      if |conf| == |inst.xy| {
        MaskedLength(inst.xy, ConfidenceMask(conf));
      }
    }
  }

  /** Without confidences every detected point is used: 32 points with no
      confidence array calibrate from all 32 vertices. */
  lemma CalibrateWithoutConfidence(model: KeypointDetector, config: PitchConfiguration, frame: Frame, kit: Kit,
                                   last: Option<ViewTransformer>)
    requires model(frame).Some? && |model(frame).value| > 0
    requires model(frame).value[0].confidence.None? && |model(frame).value[0].xy| == 32
    ensures Calibrate(Some(model), config, frame, kit, last) ==
      match NewViewTransformer(PointsArray(model(frame).value[0].xy), PointsArray(Vertices(config)), kit.findHomography)
      case Raise(_) => Ok(Calibration(last, last))
      case Ok(vt) => Ok(Calibration(Some(vt), Some(vt)))
  {
    var inst := model(frame).value[0];
    var mask := ConfidenceMask(Ones(32));
    MaskedAll(inst.xy, mask);
    MaskedAll(Vertices(config), mask);
  }

  // ---------------------------------------------------------------------
  // _compute_dominant_color and filter_referees_by_color
  // ---------------------------------------------------------------------

  /** `num_clusters` of `_compute_dominant_color`. */
  const DominantClusters := 3

  /** `_compute_dominant_color(_extract_jersey_region(frame, box))`: no
      colour for an empty crop or one with fewer pixels than clusters. */
  function DominantColor(frame: Frame, box: Box, kit: Kit): (c: Option<Rgb>)
    ensures c.Some? ==>
      JerseyRegion(box, frame.height, frame.width).Some? &&
      JerseyRegion(box, frame.height, frame.width).value.Area() >= DominantClusters
    ensures c.Some? ==> c.value == kit.dominant(frame, JerseyCrop(box, frame.height, frame.width))
  {
    var region := JerseyRegion(box, frame.height, frame.width);
    if region.None? || region.value.Area() < DominantClusters then None
    else Some(kit.dominant(frame, region.value))
  }

  /** OpenCV hues run from 0 to 179 and wrap around. */
  const HueRange := 180
  /** A referee's hue must be further than this from both teams. */
  const RefereeHueGap := 20

  /** The circular distance between two hues: `min(|d|, 180 - |d|)`. */
  function HueDistance(a: int, b: int): int
  {
    var d := Abs(a - b);
    if d <= HueRange - d then d else HueRange - d
  }

  /** The hue distance is symmetric, zero from a hue to itself, at most 90
      between valid hues, and treats the ends of the range as neighbours. */
  lemma HueDistanceFacts(a: int, b: int)
    ensures HueDistance(a, b) == HueDistance(b, a)
    ensures HueDistance(a, a) == 0
    ensures 0 <= a < HueRange && 0 <= b < HueRange ==> 0 <= HueDistance(a, b) <= HueRange / 2
    ensures HueDistance(0, HueRange - 1) == 1
  {
  }

  /** Whether a referee candidate is kept: it has a dominant jersey colour
      whose hue is more than 20 away from both team hues. */
  predicate RefereeKept(d: Detection, frame: Frame, centroids: Centroids, kit: Kit)
    requires centroids.Known()
  {
    var c := DominantColor(frame, d.box, kit);
    c.Some? &&
    HueDistance(kit.hue(c.value), kit.hue(centroids.team0.value)) > RefereeHueGap &&
    HueDistance(kit.hue(c.value), kit.hue(centroids.team1.value)) > RefereeHueGap
  }

  /** `filter_referees_by_color`. */
  function RefereeFilter(dets: seq<Detection>, frame: Frame, centroids: Centroids, kit: Kit): (r: seq<Detection>)
    ensures !centroids.Known() ==> r == dets
    ensures centroids.Known() ==> forall d :: d in r <==> d in dets && RefereeKept(d, frame, centroids, kit)
  {
    if !centroids.Known() then dets
    else Filter(dets, (d: Detection) requires centroids.Known() => RefereeKept(d, frame, centroids, kit))
  }

  /** The filter keeps the candidates' order: filtering two lists one after
      the other is filtering each. */
  lemma RefereesPreserveOrder(a: seq<Detection>, b: seq<Detection>, frame: Frame, centroids: Centroids, kit: Kit)
    ensures RefereeFilter(a + b, frame, centroids, kit) == RefereeFilter(a, frame, centroids, kit) + RefereeFilter(b, frame, centroids, kit)
  {
    if centroids.Known() {
      FilterAppend(a, b, (d: Detection) requires centroids.Known() => RefereeKept(d, frame, centroids, kit));
    }
  }

  /** One candidate is kept exactly when it passes the colour test. */
  lemma RefereeFilterOne(d: Detection, frame: Frame, centroids: Centroids, kit: Kit)
    requires centroids.Known()
    ensures RefereeFilter([d], frame, centroids, kit) == if RefereeKept(d, frame, centroids, kit) then [d] else []
  {
    assert [d][..0] == [];
  }

  // ---------------------------------------------------------------------
  // detect_objects
  // ---------------------------------------------------------------------

  /** `{v: k for k, v in names.items()}.get(name, default)`: the last class
      id with that name, or the default. */
  function ClassIdOf(names: seq<string>, name: string, default: int): (id: int)
    ensures (exists i :: 0 <= i < |names| && names[i] == name) ==>
      0 <= id < |names| && names[id] == name && forall j :: id < j < |names| ==> names[j] != name
    ensures (forall i :: 0 <= i < |names| ==> names[i] != name) ==> id == default
  {
    if names == [] then default
    else if names[|names| - 1] == name then |names| - 1
    else ClassIdOf(names[..|names| - 1], name, default)
  }

  /** `{k: v for v, k in names.items()}`: each class name with the last id
      that carries it. */
  function NameIndex(names: seq<string>): (m: map<string, int>)
    ensures m.Keys == set i | 0 <= i < |names| :: names[i]
    ensures forall n :: n in m ==>
      0 <= m[n] < |names| && names[m[n]] == n && forall j :: m[n] < j < |names| ==> names[j] != n
  {
    if names == [] then map[]
    else NameIndex(names[..|names| - 1])[names[|names| - 1] := |names| - 1]
  }

  /** Looking a name up in the inverted table with a default is the same as
      finding its last id directly. */
  lemma ClassIdOfNameIndex(names: seq<string>, name: string, default: int)
    ensures ClassIdOf(names, name, default) == if name in NameIndex(names) then NameIndex(names)[name] else default
  {
    if name in NameIndex(names) {
      var i := NameIndex(names)[name];
      assert names[i] == name;
    }
  }

  /** `dets[np.isin(dets.class_id, [id])]`. */
  function OfClass(dets: seq<Candidate>, id: int): seq<Candidate>
  {
    Filter(dets, (c: Candidate) => c.classId == id)
  }

  /** `np.argmax(confidence)`: the first candidate with the highest confidence. */
  function BestIndex(cands: seq<Candidate>): (k: nat)
    requires |cands| > 0
    ensures k < |cands|
    ensures forall j :: 0 <= j < |cands| ==> cands[j].confidence <= cands[k].confidence
    ensures forall j :: 0 <= j < k ==> cands[j].confidence < cands[k].confidence
  {
    if |cands| == 1 then 0
    else
      var k := BestIndex(cands[..|cands| - 1]);
      if cands[|cands| - 1].confidence > cands[k].confidence then |cands| - 1 else k
  }

  /** `last_seen_players[id]`. */
  datatype Seen = Seen(box: Box, frame: nat, team: int)

  const MaxMissingFrames := 20

  /** Every tracked player of this frame is recorded as seen now, with its
      current team or -1; a repeated track id keeps its last row. */
  function RecordSeen(seen: map<int, Seen>, players: seq<Detection>, assignments: map<int, int>): map<int, Seen>
  {
    if players == [] then seen
    else
      var d := players[|players| - 1];
      RecordSeen(seen, players[..|players| - 1], assignments)[d.trackerId := Seen(d.box, 0, TeamOf(assignments, d.trackerId))]
  }

  lemma {:induction false} RecordSeenContents(seen: map<int, Seen>, players: seq<Detection>, assignments: map<int, int>)
    ensures RecordSeen(seen, players, assignments).Keys == seen.Keys + set d | d in players :: d.trackerId
    ensures forall d :: d in players ==>
      RecordSeen(seen, players, assignments)[d.trackerId].frame == 0 &&
      RecordSeen(seen, players, assignments)[d.trackerId].team == TeamOf(assignments, d.trackerId)
    ensures forall k :: k in seen && k !in TrackerIds(players) ==> RecordSeen(seen, players, assignments)[k] == seen[k]
  {
    if players != [] {
      var init := players[..|players| - 1];
      var last := players[|players| - 1];
      RecordSeenContents(seen, init, assignments);
      RecordSeenStep(seen, players, assignments);
      LastPlayer(players);
    }
  }

  /** A player, or its track id, is among the earlier ones or is the last one's. */
  lemma LastPlayer(players: seq<Detection>)
    requires players != []
    ensures var n := |players| - 1;
      forall d :: d in players <==> d in players[..n] || d == players[n]
    ensures var n := |players| - 1;
      forall k :: k in TrackerIds(players) <==> k in TrackerIds(players[..n]) || k == players[n].trackerId
  {
    var n := |players| - 1;
    assert players == players[..n] + [players[n]];
    assert TrackerIds(players) == TrackerIds(players[..n]) + [players[n].trackerId];
  }

  /** One more player overwrites exactly its own entry. */
  lemma RecordSeenStep(seen: map<int, Seen>, players: seq<Detection>, assignments: map<int, int>)
    requires players != []
    ensures var d := players[|players| - 1];
      RecordSeen(seen, players, assignments) ==
        RecordSeen(seen, players[..|players| - 1], assignments)[d.trackerId := Seen(d.box, 0, TeamOf(assignments, d.trackerId))]
  {
  }

  /** Whether a track id is among this frame's players (`results['players']`
      may be missing altogether). */
  predicate SeenNow(players: Option<seq<Detection>>, id: int)
  {
    players.Some? && id in TrackerIds(players.value)
  }

  /** The aging loop: a player seen now gets counter 0; any other has its
      counter incremented and is dropped once it exceeds 20. */
  function Aged(seen: map<int, Seen>, players: Option<seq<Detection>>): (r: map<int, Seen>)
    ensures forall k :: k in r ==> r[k].frame <= MaxMissingFrames
    ensures forall k :: k in r <==> k in seen && (SeenNow(players, k) || seen[k].frame + 1 <= MaxMissingFrames)
    ensures forall k :: k in r ==> r[k].box == seen[k].box && r[k].team == seen[k].team
    ensures forall k :: k in r ==> r[k].frame == if SeenNow(players, k) then 0 else seen[k].frame + 1
  {
    map k | k in seen && (SeenNow(players, k) || seen[k].frame + 1 <= MaxMissingFrames) ::
      if SeenNow(players, k) then seen[k].(frame := 0) else seen[k].(frame := seen[k].frame + 1)
  }

  /** Aging `n` times in frames where the player does not appear. */
  function AgedUnseen(seen: map<int, Seen>, n: nat): map<int, Seen>
  {
    if n == 0 then seen else Aged(AgedUnseen(seen, n - 1), None)
  }

  /** A player last seen `c` frames ago and missing for `n` more frames is
      still remembered exactly when `c + n <= 20`, with counter `c + n`: a
      player reappearing within 20 frames keeps its entry, and one missing
      for 21 frames in a row is forgotten. */
  lemma {:induction false} AgedUnseenForgets(seen: map<int, Seen>, n: nat, k: int)
    requires k in seen && seen[k].frame <= MaxMissingFrames
    ensures k in AgedUnseen(seen, n) <==> seen[k].frame + n <= MaxMissingFrames
    ensures k in AgedUnseen(seen, n) ==> AgedUnseen(seen, n)[k] == seen[k].(frame := seen[k].frame + n)
  {
    if n > 0 {
      AgedUnseenForgets(seen, n - 1, k);
      assert !SeenNow(None, k);
    }
  }

  /** The three trackers fed from the player model's detections. */
  const PlayerNms: real := 0.3
  const BallNms: real := 0.1

  /** What `detect_objects` returns and the state it leaves. */
  datatype ObjectsOutcome = ObjectsOutcome(
    results: FrameDetections,
    playerTracker: ByteTrack, goalkeeperTracker: ByteTrack, refereeTracker: ByteTrack, ballTracker: ByteTrack,
    seen: map<int, Seen>)

  /** The part of `detect_objects` that runs the player model: the three
      trackers' outputs (referees filtered by colour) and the players
      recorded as seen now. */
  datatype PeopleOutcome = PeopleOutcome(
    players: Option<seq<Detection>>, goalkeepers: Option<seq<Detection>>, referees: Option<seq<Detection>>,
    playerTracker: ByteTrack, goalkeeperTracker: ByteTrack, refereeTracker: ByteTrack, seen: map<int, Seen>)

  function DetectPeople(frame: Frame, playerModel: Option<Detector>, kit: Kit, pt: ByteTrack, gt: ByteTrack, rt: ByteTrack,
                        seen: map<int, Seen>, assignments: map<int, int>, centroids: Centroids): PeopleOutcome
  {
    if playerModel.None? then PeopleOutcome(None, None, None, pt, gt, rt, seen)
    else
      var dets := playerModel.value.infer(frame);
      var names := playerModel.value.names;
      var p := Update(pt, kit.nms(OfClass(dets, ClassIdOf(names, "player", 0)), PlayerNms), kit);
      var g := Update(gt, kit.nms(OfClass(dets, ClassIdOf(names, "goalkeeper", 1)), PlayerNms), kit);
      var r := Update(rt, kit.nms(OfClass(dets, ClassIdOf(names, "referee", 2)), PlayerNms), kit);
      PeopleOutcome(Some(p.1), Some(g.1), Some(RefereeFilter(r.1, frame, centroids, kit)), p.0, g.0, r.0,
                    RecordSeen(seen, p.1, assignments))
  }

  /** The part of `detect_objects` that runs the ball model: the ball
      tracker is fed the single most confident candidate, if there is one. */
  function DetectBall(frame: Frame, ballModel: Option<Detector>, kit: Kit, bt: ByteTrack): (ByteTrack, Option<seq<Detection>>)
  {
    if ballModel.None? then (bt, None)
    else
      var cands := kit.nms(ballModel.value.infer(frame), BallNms);
      if |cands| == 0 then (bt, None)
      else var b := Update(bt, [cands[BestIndex(cands)]], kit); (b.0, Some(b.1))
  }

  /** `detect_objects`: the people, the ball, then the aging of the remembered players. */
  function DetectObjects(frame: Frame, playerModel: Option<Detector>, ballModel: Option<Detector>, kit: Kit,
                         pt: ByteTrack, gt: ByteTrack, rt: ByteTrack, bt: ByteTrack,
                         seen: map<int, Seen>, assignments: map<int, int>, centroids: Centroids): ObjectsOutcome
  {
    var people := DetectPeople(frame, playerModel, kit, pt, gt, rt, seen, assignments, centroids);
    var ball := DetectBall(frame, ballModel, kit, bt);
    ObjectsOutcome(FrameDetections(people.players, people.goalkeepers, people.referees, ball.1),
                   people.playerTracker, people.goalkeeperTracker, people.refereeTracker, ball.0,
                   Aged(people.seen, people.players))
  }

  /** The ball tracker is fed at most one candidate per frame, the most
      confident one after suppression, and only when there is one; the
      player model's three trackers advance together, or not at all when
      there is no player model; every remembered player's counter is at
      most 20, and each player tracked now has counter 0. */
  lemma DetectObjectsOutcome(frame: Frame, playerModel: Option<Detector>, ballModel: Option<Detector>, kit: Kit,
                             pt: ByteTrack, gt: ByteTrack, rt: ByteTrack, bt: ByteTrack,
                             seen: map<int, Seen>, assignments: map<int, int>, centroids: Centroids)
    ensures var o := DetectObjects(frame, playerModel, ballModel, kit, pt, gt, rt, bt, seen, assignments, centroids);
      (o.ballTracker == bt <==> o.results.ball.None?) &&
      (o.results.ball.Some? ==>
        ballModel.Some? && |kit.nms(ballModel.value.infer(frame), BallNms)| > 0 &&
        var cands := kit.nms(ballModel.value.infer(frame), BallNms);
        o.ballTracker.fed == bt.fed + [[cands[BestIndex(cands)]]] &&
        forall c :: c in cands ==> c.confidence <= cands[BestIndex(cands)].confidence) &&
      (playerModel.None? <==> o.results.players.None?) &&
      (playerModel.None? ==> o.playerTracker == pt && o.goalkeeperTracker == gt && o.refereeTracker == rt &&
                             o.results.goalkeepers.None? && o.results.referees.None?) &&
      (playerModel.Some? ==> |o.playerTracker.fed| == |pt.fed| + 1 && |o.goalkeeperTracker.fed| == |gt.fed| + 1 &&
                             |o.refereeTracker.fed| == |rt.fed| + 1) &&
      (forall k :: k in o.seen ==> o.seen[k].frame <= MaxMissingFrames) &&
      (o.results.players.Some? ==> forall d :: d in o.results.players.value ==>
        d.trackerId in o.seen && o.seen[d.trackerId].frame == 0)
  {
    if playerModel.Some? {
      var dets := playerModel.value.infer(frame);
      var p := Update(pt, kit.nms(OfClass(dets, ClassIdOf(playerModel.value.names, "player", 0)), PlayerNms), kit);
      RecordSeenContents(seen, p.1, assignments);
      forall d | d in p.1 ensures d.trackerId in TrackerIds(p.1) {
        var i :| 0 <= i < |p.1| && p.1[i] == d;
        assert TrackerIds(p.1)[i] == d.trackerId;
      }
    }
  }

  // ---------------------------------------------------------------------
  // track_player_movement
  // ---------------------------------------------------------------------

  /** `path_history_length`. */
  const PathHistoryLength := 50

  /** A `movement_history` key `f"{kind}_{tracker_id}"`. */
  datatype TrackKey = TrackKey(kind: Kind, id: int)

  /** Append the newest point and keep only the last 50. */
  function Push(trail: seq<Point>, p: Point): (r: seq<Point>)
    ensures 1 <= |r| <= PathHistoryLength && r[|r| - 1] == p
    ensures |r| == if |trail| < PathHistoryLength then |trail| + 1 else PathHistoryLength
    ensures r == (trail + [p])[|trail| + 1 - |r|..]
  {
    var t := trail + [p];
    if |t| > PathHistoryLength then t[|t| - PathHistoryLength..] else t
  }

  /** `movement_history`, with the insertion order of its keys. */
  datatype History = History(trails: map<TrackKey, seq<Point>>, order: seq<TrackKey>)
  {
    /** The order lists each key exactly once. */
    ghost predicate Valid()
    {
      (forall i, j :: 0 <= i < j < |order| ==> order[i] != order[j]) &&
      (forall k :: k in trails <==> k in order)
    }

    /** Every trail holds between 1 and 50 points. */
    ghost predicate Bounded()
    {
      forall k :: k in trails ==> 1 <= |trails[k]| <= PathHistoryLength
    }
  }

  const EmptyHistory := History(map[], [])

  function Trail(h: History, k: TrackKey): seq<Point>
  {
    if k in h.trails then h.trails[k] else []
  }

  /** One `movement_history[key].append(point)` with its trim; a new key is
      created empty first and goes to the end of the order. */
  function Record(h: History, k: TrackKey, p: Point): (r: History)
    ensures r.trails == h.trails[k := Push(Trail(h, k), p)]
    ensures r.order == if k in h.trails then h.order else h.order + [k]
  {
    History(h.trails[k := Push(Trail(h, k), p)], if k in h.trails then h.order else h.order + [k])
  }

  lemma RecordKeepsInvariants(h: History, k: TrackKey, p: Point)
    requires h.Valid() && h.Bounded()
    ensures Record(h, k, p).Valid() && Record(h, k, p).Bounded()
  {
    var r := Record(h, k, p);
    if k !in h.trails {
      assert k !in h.order;
      forall i, j | 0 <= i < j < |r.order| ensures r.order[i] != r.order[j] {
        assert r.order[i] == h.order[i];
        if j < |h.order| {
          assert r.order[j] == h.order[j];
        } else {
          assert r.order[i] in h.order;
        }
      }
    }
    forall key | key in r.trails ensures key in r.order && 1 <= |r.trails[key]| <= PathHistoryLength {
      if key != k {
        assert r.trails[key] == h.trails[key] && key in h.order;
      }
    }
  }

  /** The points of one kind's detections, recorded in detection order. */
  function RecordAll(h: History, kind: Kind, dets: seq<Detection>, pts: seq<Point>): History
    requires |pts| == |dets|
    decreases |dets|
  {
    if dets == [] then h
    else Record(RecordAll(h, kind, dets[..|dets| - 1], pts[..|pts| - 1]), TrackKey(kind, dets[|dets| - 1].trackerId), pts[|pts| - 1])
  }

  /** Recording one more detection is recording it after the earlier ones. */
  lemma RecordAllSnoc(h: History, kind: Kind, dets: seq<Detection>, pts: seq<Point>, i: nat)
    requires |pts| == |dets| && i < |dets|
    ensures RecordAll(h, kind, dets[..i + 1], pts[..i + 1]) ==
      Record(RecordAll(h, kind, dets[..i], pts[..i]), TrackKey(kind, dets[i].trackerId), pts[i])
  {
    assert dets[..i + 1][..i] == dets[..i] && dets[..i + 1][i] == dets[i];
    assert pts[..i + 1][..i] == pts[..i] && pts[..i + 1][i] == pts[i];
  }

  /** Recording keeps the order valid and every trail within 50 points,
      keeps every key, and only appends to the order. */
  lemma {:induction false} RecordAllInvariants(h: History, kind: Kind, dets: seq<Detection>, pts: seq<Point>)
    requires |pts| == |dets| && h.Valid() && h.Bounded()
    ensures RecordAll(h, kind, dets, pts).Valid() && RecordAll(h, kind, dets, pts).Bounded()
    ensures h.trails.Keys <= RecordAll(h, kind, dets, pts).trails.Keys
    ensures h.order <= RecordAll(h, kind, dets, pts).order
    decreases |dets|
  {
    if dets != [] {
      var n := |dets| - 1;
      RecordAllInvariants(h, kind, dets[..n], pts[..n]);
      RecordKeepsInvariants(RecordAll(h, kind, dets[..n], pts[..n]), TrackKey(kind, dets[n].trackerId), pts[n]);
    }
  }

  /** The anchor `track_player_movement` and the radar use: the centre of the
      ball's box, the bottom centre of anyone else's. */
  function Anchor(kind: Kind, d: Detection): Point
  {
    if kind == Ball then d.box.Center() else d.box.BottomCenter()
  }

  function Anchors(kind: Kind, dets: seq<Detection>): (pts: seq<Point>)
    ensures |pts| == |dets| && forall i :: 0 <= i < |dets| ==> pts[i] == Anchor(kind, dets[i])
  {
    seq(|dets|, i requires 0 <= i < |dets| => Anchor(kind, dets[i]))
  }

  /** `transformer.transform_points` of one kind's anchors. */
  function ProjectAnchors(vt: ViewTransformer, kind: Kind, dets: seq<Detection>, project: Projection): (r: Result<seq<Point>>)
    ensures r.Ok? ==> |r.value| == |dets|
    ensures r.Ok? <==> dets == [] || vt.m.Some?
    ensures r.Ok? && dets != [] ==> forall i :: 0 <= i < |dets| ==>
      r.value[i] == project(vt.m.value, Anchor(kind, dets[i]).x, Anchor(kind, dets[i]).y)
  {
    var a := PointsArray(Anchors(kind, dets));
    TransformPointsGuards(vt, a, project);
    TransformPoints(vt, a, project)
  }

  /** The history after recording one kind, or the error that stopped it. */
  datatype Tracking = Tracking(history: History, error: Option<Error>)

  function TrackKind(h: History, kind: Kind, dets: FrameDetections, vt: ViewTransformer, project: Projection): Tracking
  {
    var d := dets.Get(kind);
    if d.None? then Tracking(h, None)
    else match ProjectAnchors(vt, kind, d.value, project)
      case Raise(e) => Tracking(h, Some(e))
      case Ok(pts) => Tracking(RecordAll(h, kind, d.value, pts), None)
  }

  /** The kinds `track_player_movement` records, in order; referees are not among them. */
  const TrackedKinds: seq<Kind> := [Players, Goalkeepers, Ball]

  /** `track_player_movement`: each tracked kind in turn; an exception from
      the transformer stops it, leaving what the earlier kinds recorded. */
  function TrackMovement(h: History, dets: FrameDetections, vt: ViewTransformer, project: Projection, n: nat): Tracking
    requires n <= |TrackedKinds|
  {
    if n == 0 then Tracking(h, None)
    else
      var before := TrackMovement(h, dets, vt, project, n - 1);
      if before.error.Some? then before else TrackKind(before.history, TrackedKinds[n - 1], dets, vt, project)
  }

  /** Once a kind raises, the later kinds are not recorded: the outcome is final. */
  lemma {:induction false} TrackMovementStops(h: History, dets: FrameDetections, vt: ViewTransformer, project: Projection,
                                              j: nat, n: nat)
    requires j <= n <= |TrackedKinds| && TrackMovement(h, dets, vt, project, j).error.Some?
    ensures TrackMovement(h, dets, vt, project, n) == TrackMovement(h, dets, vt, project, j)
    decreases n
  {
    if j < n {
      TrackMovementStops(h, dets, vt, project, j, n - 1);
    }
  }

  /** The keys a step over `kinds` leaves alone: those of other kinds, and
      those whose id is not among that kind's detections. */
  ghost predicate Untouched(h: History, h': History, dets: FrameDetections, kinds: set<Kind>)
  {
    forall k: TrackKey :: (k.kind !in kinds || dets.Get(k.kind).None? || k.id !in TrackerIds(dets.Get(k.kind).value)) ==>
      (k in h'.trails <==> k in h.trails) && Trail(h', k) == Trail(h, k)
  }

  lemma TrackKindFrame(h: History, kind: Kind, dets: FrameDetections, vt: ViewTransformer, project: Projection)
    requires h.Valid() && h.Bounded()
    ensures var h' := TrackKind(h, kind, dets, vt, project).history;
      h'.Valid() && h'.Bounded() && Untouched(h, h', dets, {kind})
  {
    var d := dets.Get(kind);
    if d.Some? {
      var r := ProjectAnchors(vt, kind, d.value, project);
      if r.Ok? {
        RecordAllInvariants(h, kind, d.value, r.value);
        forall k: TrackKey | k.kind != kind || k.id !in TrackerIds(d.value)
          ensures (k in TrackKind(h, kind, dets, vt, project).history.trails <==> k in h.trails)
          ensures Trail(TrackKind(h, kind, dets, vt, project).history, k) == Trail(h, k)
        {
          forall j | 0 <= j < |d.value| ensures TrackKey(kind, d.value[j].trackerId) != k {
            assert TrackerIds(d.value)[j] == d.value[j].trackerId;
          }
          RecordAllAbsent(h, kind, d.value, r.value, k);
        }
      }
    }
  }

  lemma UntouchedCompose(h: History, h': History, h'': History, dets: FrameDetections, a: set<Kind>, b: set<Kind>)
    requires Untouched(h, h', dets, a) && Untouched(h', h'', dets, b)
    ensures Untouched(h, h'', dets, a + b)
  {
  }

  /** The first `n` tracked kinds. */
  function KindsUpTo(n: nat): set<Kind>
    requires n <= |TrackedKinds|
  {
    if n == 0 then {} else KindsUpTo(n - 1) + {TrackedKinds[n - 1]}
  }

  /** Tracking keeps the history's invariants, never records a referee and
      leaves every key of another kind or id as it was. */
  lemma {:induction false} TrackMovementFrame(h: History, dets: FrameDetections, vt: ViewTransformer, project: Projection, n: nat)
    requires n <= |TrackedKinds| && h.Valid() && h.Bounded()
    ensures var t := TrackMovement(h, dets, vt, project, n);
      t.history.Valid() && t.history.Bounded() &&
      Untouched(h, t.history, dets, KindsUpTo(n))
  {
    if n > 0 {
      TrackMovementFrame(h, dets, vt, project, n - 1);
      var before := TrackMovement(h, dets, vt, project, n - 1);
      var kinds := KindsUpTo(n - 1);
      if before.error.None? {
        TrackKindFrame(before.history, TrackedKinds[n - 1], dets, vt, project);
        UntouchedCompose(h, before.history, TrackKind(before.history, TrackedKinds[n - 1], dets, vt, project).history,
                         dets, kinds, {TrackedKinds[n - 1]});
      }
    }
  }

  /** `track_player_movement` never records a referee: referee keys are
      exactly those there were before. */
  lemma TrackMovementSkipsReferees(h: History, dets: FrameDetections, vt: ViewTransformer, project: Projection)
    requires h.Valid() && h.Bounded()
    ensures forall k: TrackKey :: k.kind == Referees ==>
      (k in TrackMovement(h, dets, vt, project, |TrackedKinds|).history.trails <==> k in h.trails)
  {
    TrackMovementFrame(h, dets, vt, project, |TrackedKinds|);
    assert KindsUpTo(3) == {Players, Goalkeepers, Ball};
  }

  /** A player tracked once in this frame has the projection of its bottom
      centre appended to its trail, as the newest point. */
  lemma TrackMovementAppendsPlayer(h: History, dets: FrameDetections, vt: ViewTransformer, project: Projection, i: nat)
    requires dets.players.Some? && i < |dets.players.value| && vt.m.Some?
    requires forall j :: 0 <= j < |dets.players.value| && j != i ==> dets.players.value[j].trackerId != dets.players.value[i].trackerId
    ensures var t := TrackMovement(h, dets, vt, project, 1);
      var d := dets.players.value[i];
      var k := TrackKey(Players, d.trackerId);
      t.error.None? &&
      Trail(t.history, k) == Push(Trail(h, k), project(vt.m.value, d.box.BottomCenter().x, d.box.BottomCenter().y))
  {
    var ds := dets.players.value;
    var pts := ProjectAnchors(vt, Players, ds, project).value;
    assert TrackMovement(h, dets, vt, project, 1) == TrackKind(h, Players, dets, vt, project);
    assert TrackKind(h, Players, dets, vt, project) == Tracking(RecordAll(h, Players, ds, pts), None);
    RecordAllOne(h, Players, ds, pts, i);
  }

  lemma TrailOfRecord(h: History, k': TrackKey, p: Point, k: TrackKey)
    ensures Trail(Record(h, k', p), k) == if k == k' then Push(Trail(h, k), p) else Trail(h, k)
  {
  }

  /** A track id that occurs once among the detections has its point pushed
      onto its trail, once. */
  lemma RecordAllOne(h: History, kind: Kind, dets: seq<Detection>, pts: seq<Point>, i: nat)
    requires |pts| == |dets| && i < |dets|
    requires forall j :: 0 <= j < |dets| && j != i ==> dets[j].trackerId != dets[i].trackerId
    ensures Trail(RecordAll(h, kind, dets, pts), TrackKey(kind, dets[i].trackerId)) ==
      Push(Trail(h, TrackKey(kind, dets[i].trackerId)), pts[i])
  {
    RecordAllSplit(h, kind, dets, pts, i + 1);
    RecordAllOneFirst(h, kind, dets, pts, i);
    RecordAllAfterOne(RecordAll(h, kind, dets[..i + 1], pts[..i + 1]), kind, dets, pts, i);
  }

  /** Recording up to and including the detection pushes its point onto
      the untouched trail. */
  lemma RecordAllOneFirst(h: History, kind: Kind, dets: seq<Detection>, pts: seq<Point>, i: nat)
    requires |pts| == |dets| && i < |dets|
    requires forall j :: 0 <= j < |dets| && j != i ==> dets[j].trackerId != dets[i].trackerId
    ensures Trail(RecordAll(h, kind, dets[..i + 1], pts[..i + 1]), TrackKey(kind, dets[i].trackerId)) ==
      Push(Trail(h, TrackKey(kind, dets[i].trackerId)), pts[i])
  {
    var k := TrackKey(kind, dets[i].trackerId);
    forall j | 0 <= j < i ensures TrackKey(kind, dets[..i][j].trackerId) != k {
      assert dets[..i][j] == dets[j];
    }
    RecordAllAbsent(h, kind, dets[..i], pts[..i], k);
    RecordAllSnoc(h, kind, dets, pts, i);
    TrailOfRecord(RecordAll(h, kind, dets[..i], pts[..i]), k, pts[i], k);
  }

  /** The detections after a unique one leave its trail alone, from any
      starting history. */
  lemma RecordAllAfterOne(g: History, kind: Kind, dets: seq<Detection>, pts: seq<Point>, i: nat)
    requires |pts| == |dets| && i < |dets|
    requires forall j :: 0 <= j < |dets| && j != i ==> dets[j].trackerId != dets[i].trackerId
    ensures Trail(RecordAll(g, kind, dets[i + 1..], pts[i + 1..]), TrackKey(kind, dets[i].trackerId)) ==
      Trail(g, TrackKey(kind, dets[i].trackerId))
  {
    var later := dets[i + 1..];
    forall j | 0 <= j < |later| ensures TrackKey(kind, later[j].trackerId) != TrackKey(kind, dets[i].trackerId) {
      assert later[j] == dets[i + 1 + j];
    }
    RecordAllAbsent(g, kind, later, pts[i + 1..], TrackKey(kind, dets[i].trackerId));
  }

  /** Recording the detections is recording those from `c` on after those before `c`. */
  lemma RecordAllSplit(h: History, kind: Kind, dets: seq<Detection>, pts: seq<Point>, c: nat)
    requires |pts| == |dets| && c <= |dets|
    ensures RecordAll(h, kind, dets, pts) == RecordAll(RecordAll(h, kind, dets[..c], pts[..c]), kind, dets[c..], pts[c..])
  {
    assert dets == dets[..c] + dets[c..] && pts == pts[..c] + pts[c..];
    RecordAllAppend(h, kind, dets[..c], pts[..c], dets[c..], pts[c..]);
  }

  /** Recording two runs of detections is recording the second after the first. */
  lemma {:induction false} RecordAllAppend(h: History, kind: Kind, a: seq<Detection>, pa: seq<Point>, b: seq<Detection>, pb: seq<Point>)
    requires |pa| == |a| && |pb| == |b|
    ensures RecordAll(h, kind, a + b, pa + pb) == RecordAll(RecordAll(h, kind, a, pa), kind, b, pb)
    decreases |b|
  {
    if b == [] {
      assert a + b == a && pa + pb == pa;
    } else {
      var n := |b| - 1;
      assert (a + b)[..|a + b| - 1] == a + b[..n] && (a + b)[|a + b| - 1] == b[n];
      assert (pa + pb)[..|pa + pb| - 1] == pa + pb[..n] && (pa + pb)[|pa + pb| - 1] == pb[n];
      RecordAllAppend(h, kind, a, pa, b[..n], pb[..n]);
    }
  }

  /** A key none of the detections maps to is left as it was. */
  lemma {:induction false} RecordAllAbsent(h: History, kind: Kind, dets: seq<Detection>, pts: seq<Point>, k: TrackKey)
    requires |pts| == |dets|
    requires forall j :: 0 <= j < |dets| ==> TrackKey(kind, dets[j].trackerId) != k
    ensures Trail(RecordAll(h, kind, dets, pts), k) == Trail(h, k)
    ensures k in RecordAll(h, kind, dets, pts).trails <==> k in h.trails
    decreases |dets|
  {
    if dets != [] {
      RecordAllAbsent(h, kind, dets[..|dets| - 1], pts[..|pts| - 1], k);
    }
  }

  // ---------------------------------------------------------------------
  // classify_teams_by_jersey_color and update_team_classification
  // ---------------------------------------------------------------------

  /** Whether a player's jersey gives a dominant colour. */
  function HasColor(frame: Frame, kit: Kit): Detection -> bool
  {
    (d: Detection) => DominantColor(frame, d.box, kit).Some?
  }

  /** The colour loop of `classify_teams_by_jersey_color`: one colour and one
      id for each player whose jersey gives a dominant colour. */
  function PlayerColors(frame: Frame, players: seq<Detection>, kit: Kit): (r: (seq<Rgb>, seq<int>))
    ensures |r.0| == |r.1| <= |players|
  {
    if players == [] then ([], [])
    else
      var (colors, ids) := PlayerColors(frame, players[..|players| - 1], kit);
      var d := players[|players| - 1];
      var c := DominantColor(frame, d.box, kit);
      if c.Some? then (colors + [c.value], ids + [d.trackerId]) else (colors, ids)
  }

  /** The ids collected are those of exactly the players whose jersey gives a
      dominant colour, in player order, each paired with that colour. */
  lemma {:induction false} PlayerColorsKept(frame: Frame, players: seq<Detection>, kit: Kit)
    ensures var r := PlayerColors(frame, players, kit);
      var kept := Filter(players, HasColor(frame, kit));
      r.1 == TrackerIds(kept) && |r.0| == |kept| &&
      forall i :: 0 <= i < |kept| ==> DominantColor(frame, kept[i].box, kit) == Some(r.0[i])
    decreases |players|
  {
    if players != [] {
      PlayerColorsKept(frame, players[..|players| - 1], kit);
      PlayerColorsStep(frame, players, kit);
    }
  }

  /** One more player extends what was collected for the players before it. */
  lemma PlayerColorsStep(frame: Frame, players: seq<Detection>, kit: Kit)
    requires players != []
    requires var r := PlayerColors(frame, players[..|players| - 1], kit);
      var kept := Filter(players[..|players| - 1], HasColor(frame, kit));
      r.1 == TrackerIds(kept) && |r.0| == |kept| &&
      forall i :: 0 <= i < |kept| ==> DominantColor(frame, kept[i].box, kit) == Some(r.0[i])
    ensures var r := PlayerColors(frame, players, kit);
      var kept := Filter(players, HasColor(frame, kit));
      r.1 == TrackerIds(kept) && |r.0| == |kept| &&
      forall i :: 0 <= i < |kept| ==> DominantColor(frame, kept[i].box, kit) == Some(r.0[i])
  {
    var n := |players| - 1;
    var d := players[n];
    var p := HasColor(frame, kit);
    var prior, priorKept := PlayerColors(frame, players[..n], kit), Filter(players[..n], p);
    var r := PlayerColors(frame, players, kit);
    assert Filter(players, p) == priorKept + (if p(d) then [d] else []);
    if p(d) {
      assert r == (prior.0 + [DominantColor(frame, d.box, kit).value], prior.1 + [d.trackerId]);
      ColorsAppend(frame, kit, prior.0, prior.1, priorKept, d);
    } else {
      assert r == prior;
    }
  }

  /** A player with a dominant colour, appended to what matches, still matches. */
  lemma ColorsAppend(frame: Frame, kit: Kit, colors: seq<Rgb>, ids: seq<int>, kept: seq<Detection>, d: Detection)
    requires ids == TrackerIds(kept) && |colors| == |kept|
    requires forall i :: 0 <= i < |kept| ==> DominantColor(frame, kept[i].box, kit) == Some(colors[i])
    requires DominantColor(frame, d.box, kit).Some?
    ensures var colors', kept' := colors + [DominantColor(frame, d.box, kit).value], kept + [d];
      ids + [d.trackerId] == TrackerIds(kept') && |colors'| == |kept'| &&
      forall i :: 0 <= i < |kept'| ==> DominantColor(frame, kept'[i].box, kit) == Some(colors'[i])
  {
    var colors', kept' := colors + [DominantColor(frame, d.box, kit).value], kept + [d];
    assert TrackerIds(kept') == TrackerIds(kept) + [d.trackerId];
    forall i | 0 <= i < |kept'| ensures DominantColor(frame, kept'[i].box, kit) == Some(colors'[i]) {
      if i < |kept| {
        assert kept'[i] == kept[i] && colors'[i] == colors[i];
      }
    }
  }

  /** `{tracker_ids[i]: labels[i]}`: a repeated id takes its last label. */
  function AssignmentMap(ids: seq<int>, colors: seq<Rgb>, kit: Kit): (m: map<int, int>)
    requires |ids| <= |colors|
    ensures m.Keys == set i | i in ids
    ensures forall k :: k in m ==> 0 <= m[k] < 2
  {
    if ids == [] then map[]
    else AssignmentMap(ids[..|ids| - 1], colors, kit)[ids[|ids| - 1] := kit.teamOf(colors, |ids| - 1)]
  }

  /** The id of the i-th colour gets that colour's label unless a later
      colour has the same id. */
  lemma {:induction false} AssignmentMapLastWins(ids: seq<int>, colors: seq<Rgb>, kit: Kit, i: nat)
    requires |ids| <= |colors| && i < |ids|
    requires forall j :: i < j < |ids| ==> ids[j] != ids[i]
    ensures AssignmentMap(ids, colors, kit)[ids[i]] == kit.teamOf(colors, i)
  {
    if i < |ids| - 1 {
      AssignmentMapLastWins(ids[..|ids| - 1], colors, kit, i);
    }
  }

  /** What `classify_teams_by_jersey_color` finds: the new centroids and the
      assignments, or nothing when there are no players or fewer than 2 of
      them have a dominant colour. */
  datatype Classification = Classification(centroids: Centroids, assignments: map<int, int>)

  function ClassifyTeams(frame: Frame, dets: FrameDetections, kit: Kit): (r: Option<Classification>)
    ensures r.Some? ==> r.value.centroids.Known() && |r.value.assignments| >= 1
    ensures r.Some? ==> dets.players.Some? && |PlayerColors(frame, dets.players.value, kit).0| >= 2
  {
    if dets.players.None? || |dets.players.value| == 0 then None
    else
      var (colors, ids) := PlayerColors(frame, dets.players.value, kit);
      if |colors| < 2 then None
      else
        var (c0, c1) := kit.clusterTeams(colors);
        var m := AssignmentMap(ids, colors, kit);
        assert ids[0] in m;
        Some(Classification(Centroids(Some(c0), Some(c1)), m))
  }

  /** Conversely, at least 2 player colours give a classification, whose
      assignments name exactly the ids collected with those colours. */
  lemma ClassifyTeamsFound(frame: Frame, dets: FrameDetections, kit: Kit)
    requires dets.players.Some? && |PlayerColors(frame, dets.players.value, kit).0| >= 2
    ensures var r := ClassifyTeams(frame, dets, kit);
      r.Some? && r.value.assignments.Keys == set i | i in PlayerColors(frame, dets.players.value, kit).1
  {
  }

  /** `player_team_assignments.update(current)`. */
  function MergeAssignments(prior: map<int, int>, current: map<int, int>): (m: map<int, int>)
    ensures m.Keys == prior.Keys + current.Keys
    ensures forall k :: k in current ==> m[k] == current[k]
    ensures forall k :: k in prior && k !in current ==> m[k] == prior[k]
  {
    prior + current
  }

  /** Classification only ever assigns teams 0 and 1, so merging keeps every
      assignment in {0, 1}. */
  lemma MergeKeepsTeams(prior: map<int, int>, frame: Frame, dets: FrameDetections, kit: Kit)
    requires forall k :: k in prior ==> 0 <= prior[k] < 2
    ensures var c := ClassifyTeams(frame, dets, kit);
      c.Some? ==> forall k :: k in MergeAssignments(prior, c.value.assignments) ==>
        0 <= MergeAssignments(prior, c.value.assignments)[k] < 2
  {
  }

  // ---------------------------------------------------------------------
  // create_radar_image
  // ---------------------------------------------------------------------

  /** A projected point is drawn only inside the pitch, edges included. */
  predicate OnPitch(c: PitchConfiguration, p: Point)
  {
    0.0 <= p.x <= c.length as real && 0.0 <= p.y <= c.width as real
  }

  /** A centroid as `sv.Color(r=int(c[0]), g=int(c[1]), b=int(c[2]))`. */
  function CentroidColor(c: Rgb): Color { Color(Trunc(c.r), Trunc(c.g), Trunc(c.b)) }

  /** `team_colors[team]`: the team's centroid colour, or blue for team 0
      and red for team 1 before the teams are known; white otherwise. */
  function TeamColor(centroids: Centroids, team: int): Color
  {
    if team == 0 then (if centroids.team0.Some? then CentroidColor(centroids.team0.value) else Blue)
    else if team == 1 then (if centroids.team1.Some? then CentroidColor(centroids.team1.value) else Red)
    else White
  }

  /** `color_map[kind]` for the non-player kinds. */
  function KindColor(kind: Kind): Color
  {
    match kind
    case Goalkeepers => Green
    case Referees => Yellow
    case Ball => Red
    case Players => White
  }

  /** The radius of a radar dot: 10 for the ball, 8 for anyone else. */
  function KindRadius(kind: Kind): int { if kind == Ball then 10 else 8 }

  /** `draw_points_on_pitch(xy=[p], face_color=color, edge_color=BLACK, radius=r, pitch=radar)`. */
  function RadarDot(c: PitchConfiguration, p: Point, face: Color, radius: int): seq<DrawOp>
  {
    if OnPitch(c, p) then PointMarks(p, face, Black, radius, DefaultBrush) else []
  }

  /** The dots of the players, each in its team's colour. */
  function PlayerDots(c: PitchConfiguration, players: seq<Detection>, pts: seq<Point>, centroids: Centroids,
                      assignments: map<int, int>): seq<DrawOp>
    requires |pts| == |players|
    decreases |players|
  {
    if players == [] then []
    else PlayerDots(c, players[..|players| - 1], pts[..|pts| - 1], centroids, assignments) +
         RadarDot(c, pts[|pts| - 1], TeamColor(centroids, TeamOf(assignments, players[|players| - 1].trackerId)), 8)
  }

  /** The dots of one non-player kind, in its fixed colour and radius. */
  function KindDots(c: PitchConfiguration, kind: Kind, pts: seq<Point>): seq<DrawOp>
  {
    ConcatMap(pts, (p: Point) => RadarDot(c, p, KindColor(kind), KindRadius(kind)))
  }

  /** The dots of one non-player kind, or its error; a missing or empty kind draws nothing. */
  function KindLayer(c: PitchConfiguration, kind: Kind, dets: FrameDetections, vt: ViewTransformer, project: Projection): Result<seq<DrawOp>>
  {
    var d := dets.Get(kind);
    if d.None? || |d.value| == 0 then Ok([])
    else match ProjectAnchors(vt, kind, d.value, project)
      case Raise(e) => Raise(e)
      case Ok(pts) => Ok(KindDots(c, kind, pts))
  }

  /** A path's colour: the team colour of the numeric id at the end of its
      key, whatever the kind. */
  function PathColor(k: TrackKey, centroids: Centroids, assignments: map<int, int>): Color
  {
    TeamColor(centroids, TeamOf(assignments, k.id))
  }

  /** The segments of one trail, when it has at least 2 points. */
  function TrailLines(h: History, k: TrackKey, centroids: Centroids, assignments: map<int, int>): seq<DrawOp>
  {
    if |Trail(h, k)| >= 2 then PathLines(Trail(h, k), PathColor(k, centroids, assignments), DefaultBrush) else []
  }

  /** The trails of at least 2 points, in key order, each in its colour. */
  function PathLayer(h: History, n: nat, centroids: Centroids, assignments: map<int, int>): seq<DrawOp>
    requires n <= |h.order|
  {
    if n == 0 then [] else PathLayer(h, n - 1, centroids, assignments) + TrailLines(h, h.order[n - 1], centroids, assignments)
  }

  /** The kinds drawn after the players, in order. */
  const RadarKinds: seq<Kind> := [Goalkeepers, Referees, Ball]

  /** The dots of the first `n` radar kinds, or the first error. */
  function KindLayers(c: PitchConfiguration, dets: FrameDetections, vt: ViewTransformer, project: Projection, n: nat): Result<seq<DrawOp>>
    requires n <= |RadarKinds|
  {
    if n == 0 then Ok([])
    else
      var before := KindLayers(c, dets, vt, project, n - 1);
      if before.Raise? then before
      else
        var layer := KindLayer(c, RadarKinds[n - 1], dets, vt, project);
        if layer.Raise? then Raise(layer.error) else Ok(before.value + layer.value)
  }

  /** An error in one kind is the error of the whole layer. */
  lemma {:induction false} KindLayersStop(c: PitchConfiguration, dets: FrameDetections, vt: ViewTransformer, project: Projection,
                                          j: nat, n: nat)
    requires j <= n <= |RadarKinds| && KindLayers(c, dets, vt, project, j).Raise?
    ensures KindLayers(c, dets, vt, project, n) == KindLayers(c, dets, vt, project, j)
    decreases n
  {
    if j < n {
      KindLayersStop(c, dets, vt, project, j, n - 1);
    }
  }

  /** The players' layer: nothing without players, else a dot per player or the projection's error. */
  function PlayerLayer(c: PitchConfiguration, dets: FrameDetections, vt: ViewTransformer, project: Projection,
                       centroids: Centroids, assignments: map<int, int>): Result<seq<DrawOp>>
  {
    if dets.players.None? then Ok([])
    else match ProjectAnchors(vt, Players, dets.players.value, project)
      case Raise(e) => Raise(e)
      case Ok(pts) => Ok(PlayerDots(c, dets.players.value, pts, centroids, assignments))
  }

  /** `create_radar_image`: the default pitch, the players, then goalkeepers,
      referees and the ball, then (when asked) the trails. */
  function RadarImage(c: PitchConfiguration, dets: FrameDetections, vt: ViewTransformer, project: Projection,
                      centroids: Centroids, assignments: map<int, int>, h: History, includePaths: bool): Result<Canvas>
  {
    var players := PlayerLayer(c, dets, vt, project, centroids, assignments);
    if players.Raise? then Raise(players.error)
    else
      var others := KindLayers(c, dets, vt, project, |RadarKinds|);
      if others.Raise? then Raise(others.error)
      else
        var paths := if includePaths then PathLayer(h, |h.order|, centroids, assignments) else [];
        Ok(Drawn(PitchPicture(c, DefaultStyle), players.value + others.value + paths))
  }

  /** Off-pitch points leave no mark, on-pitch points two circles; an
      unassigned player is white, the ball has radius 10. */
  lemma RadarDotRules(c: PitchConfiguration, p: Point, centroids: Centroids, assignments: map<int, int>, id: int)
    ensures !OnPitch(c, p) ==> RadarDot(c, p, White, 8) == []
    ensures OnPitch(c, p) ==>
      |RadarDot(c, p, KindColor(Ball), KindRadius(Ball))| == 2 &&
      RadarDot(c, p, KindColor(Ball), KindRadius(Ball))[0] == Circle(ToPixel(p, 0.1, 50), 10, Red.AsBgr(), -1)
    ensures id !in assignments ==> TeamColor(centroids, TeamOf(assignments, id)) == White
    ensures KindRadius(Goalkeepers) == KindRadius(Referees) == 8
  {
  }

  /** The pitch corners are on the pitch and a point just past the goal line
      is not: the bounds are inclusive. */
  lemma OnPitchInclusive(c: PitchConfiguration)
    requires 0 <= c.length && 0 <= c.width
    ensures OnPitch(c, Point(0.0, 0.0)) && OnPitch(c, Point(c.length as real, c.width as real))
    ensures !OnPitch(c, Point(c.length as real + 0.5, 0.0)) && !OnPitch(c, Point(-0.5, 0.0))
  {
  }

  /** Every dot the radar draws on the players' layer lies on the pitch, and
      there are two circles per player inside it. */
  lemma {:induction false} PlayerDotsCount(c: PitchConfiguration, players: seq<Detection>, pts: seq<Point>,
                                           centroids: Centroids, assignments: map<int, int>)
    requires |pts| == |players|
    ensures |PlayerDots(c, players, pts, centroids, assignments)| == 2 * |Filter(pts, (p: Point) => OnPitch(c, p))|
    decreases |players|
  {
    if players != [] {
      var n := |players| - 1;
      PlayerDotsCount(c, players[..n], pts[..n], centroids, assignments);
      assert pts == pts[..n] + [pts[n]];
      FilterAppend(pts[..n], [pts[n]], (p: Point) => OnPitch(c, p));
      assert [pts[n]][..0] == [];
    }
  }
}
