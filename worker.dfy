/** `ProcessingWorker`: the background loop that drives a `VideoProcessor`
    over a whole video. What it does that can be seen from outside (Qt
    signals, images written, console messages, releasing the capture) is
    recorded as a log of events. */
module Worker {
  import opened Common
  import opened Draw
  import opened VideoProcessing

  const OpenFailedMessage := "Video dosyası açılamadı veya I/O hatası oluştu."
  const PreviewPeriod := 5
  const NameDigits := 5

  /** One entry of `processed_frames_info`. */
  datatype FrameRecord = FrameRecord(annotatedPath: string, radarPath: string, selected: bool)

  datatype Event =
    | ErrorSignal(message: string)                         // error.emit
    | PreviewSignal(annotated: Canvas, radar: Canvas)      // frame_preview_ready.emit
    | ImageWritten(path: string, image: Canvas)            // cv2.imwrite
    | FrameFailed(frameCount: nat, error: Error)           // the message printed by the except branch
    | ProgressSignal(percent: int, current: int, total: int)  // progress.emit
    | CaptureReleased                                      // cap.release()
    | FinishedSignal(records: seq<FrameRecord>)            // finished.emit

  predicate IsPreview(e: Event) { e.PreviewSignal? }
  predicate IsProgress(e: Event) { e.ProgressSignal? }
  predicate IsWrite(e: Event) { e.ImageWritten? }

  // ---------------------------------------------------------------------
  // Output names
  // ---------------------------------------------------------------------

  /** `os.path.join(directory, name)` for a relative name, with the POSIX separator. */
  function JoinPath(directory: string, name: string): string
  {
    if directory == [] || directory[|directory| - 1] == '/' then directory + name else directory + "/" + name
  }

  /** The same directory joined with two names gives the same path only for the same name. */
  lemma JoinPathInjective(directory: string, a: string, b: string)
    ensures JoinPath(directory, a) == JoinPath(directory, b) ==> a == b
  {
    var prefix := if directory == [] || directory[|directory| - 1] == '/' then directory else directory + "/";
    assert JoinPath(directory, a) == prefix + a && JoinPath(directory, b) == prefix + b;
    if prefix + a == prefix + b {
      assert a == (prefix + a)[|prefix|..];
      assert b == (prefix + b)[|prefix|..];
    }
  }

  /** f"annotated_{frame_count:05d}.jpg" */
  function AnnotatedName(frameCount: nat): string { "annotated_" + PaddedNat(frameCount, NameDigits) + ".jpg" }

  /** f"radar_{frame_count:05d}.jpg" */
  function RadarName(frameCount: nat): string { "radar_" + PaddedNat(frameCount, NameDigits) + ".jpg" }

  /** The record appended for a frame that was processed. */
  function Record(directory: string, frameCount: nat): (r: FrameRecord)
    ensures r.selected
  {
    FrameRecord(JoinPath(directory, AnnotatedName(frameCount)), JoinPath(directory, RadarName(frameCount)), true)
  }

  /** Different frames are written to different files, and no annotated
      image has the name of a radar image. */
  lemma RecordPathsDistinct(directory: string, a: nat, b: nat)
    ensures Record(directory, a).annotatedPath == Record(directory, b).annotatedPath ==> a == b
    ensures Record(directory, a).radarPath == Record(directory, b).radarPath ==> a == b
    ensures Record(directory, a).annotatedPath != Record(directory, b).radarPath
  {
    JoinPathInjective(directory, AnnotatedName(a), AnnotatedName(b));
    JoinPathInjective(directory, RadarName(a), RadarName(b));
    JoinPathInjective(directory, AnnotatedName(a), RadarName(b));
    var pa := PaddedNat(a, NameDigits);
    var pb := PaddedNat(b, NameDigits);
    if AnnotatedName(a) == AnnotatedName(b) {
      assert pa == AnnotatedName(a)[10..10 + |pa|];
      assert pb == AnnotatedName(b)[10..10 + |pb|];
      PaddedNatInjective(a, b, NameDigits);
    }
    if RadarName(a) == RadarName(b) {
      assert pa == RadarName(a)[6..6 + |pa|];
      assert pb == RadarName(b)[6..6 + |pb|];
      PaddedNatInjective(a, b, NameDigits);
    }
    assert AnnotatedName(a)[0] == 'a' && RadarName(b)[0] == 'r';
  }

  // ---------------------------------------------------------------------
  // One iteration of the frame loop
  // ---------------------------------------------------------------------

  /** `int((frame_count + 1) / total_frames * 100)`, on exact reals. */
  function Percent(current: int, total: int): int
    requires total != 0
  {
    Trunc(current as real / total as real * 100.0)
  }

  /** The progress reported after each of the first `total` frames lies
      between 0 and 100, and the last of them reports 100. */
  lemma PercentBounds(current: int, total: int)
    requires 0 < current <= total
    ensures 0 <= Percent(current, total) <= 100
    ensures current == total ==> Percent(current, total) == 100
  {
    var q := current as real / total as real;
    assert 0.0 < q <= 1.0;
    assert 0.0 <= q * 100.0 <= 100.0;
    if current == total {
      assert q == 1.0;
    }
  }

  /** What the `try` block of frame `frameCount` leaves behind: a preview on
      every fifth frame and two images when `process_frame` succeeded, the
      printed message when it raised. */
  function TryEvents(directory: string, frameCount: nat, outcome: Result<(Canvas, Canvas)>): seq<Event>
  {
    match outcome
    case Raise(e) => [FrameFailed(frameCount, e)]
    case Ok(images) =>
      (if frameCount % PreviewPeriod == 0 then [PreviewSignal(images.0, images.1)] else []) +
      [ImageWritten(Record(directory, frameCount).annotatedPath, images.0),
       ImageWritten(Record(directory, frameCount).radarPath, images.1)]
  }

  /** The events of the first `|outcomes|` iterations, each followed by its
      progress report. */
  function LoopEvents(directory: string, outcomes: seq<Result<(Canvas, Canvas)>>, total: int): seq<Event>
    requires outcomes == [] || total != 0
  {
    if outcomes == [] then []
    else
      var n := |outcomes|;
      LoopEvents(directory, outcomes[..n - 1], total) + TryEvents(directory, n - 1, outcomes[n - 1]) +
      [ProgressSignal(Percent(n, total), n, total)]
  }

  /** `processed_frames_info` after the first `|outcomes|` iterations. */
  function Records(directory: string, outcomes: seq<Result<(Canvas, Canvas)>>): seq<FrameRecord>
  {
    if outcomes == [] then []
    else
      var n := |outcomes|;
      Records(directory, outcomes[..n - 1]) + (if outcomes[n - 1].Ok? then [Record(directory, n - 1)] else [])
  }

  /** The frames `process_frame` succeeded on, in the order they were read. */
  function SucceededFrames(outcomes: seq<Result<(Canvas, Canvas)>>): (fs: seq<nat>)
    ensures forall i :: 0 <= i < |fs| ==> fs[i] < |outcomes| && outcomes[fs[i]].Ok?
    ensures forall f :: 0 <= f < |outcomes| && outcomes[f].Ok? ==> f in fs
    ensures forall i, j :: 0 <= i < j < |fs| ==> fs[i] < fs[j]
  {
    if outcomes == [] then []
    else
      var n := |outcomes|;
      var prior := SucceededFrames(outcomes[..n - 1]);
      assert forall i :: 0 <= i < |prior| ==> outcomes[prior[i]] == outcomes[..n - 1][prior[i]];
      assert forall f :: 0 <= f < n - 1 ==> outcomes[f] == outcomes[..n - 1][f];
      prior + (if outcomes[n - 1].Ok? then [n - 1] else [])
  }

  /** The records are those of the frames that succeeded, one each, in the
      order the frames were read. */
  lemma {:induction false} RecordsOfSucceededFrames(directory: string, outcomes: seq<Result<(Canvas, Canvas)>>)
    ensures |Records(directory, outcomes)| == |SucceededFrames(outcomes)|
    ensures forall i :: 0 <= i < |SucceededFrames(outcomes)| ==>
      Records(directory, outcomes)[i] == Record(directory, SucceededFrames(outcomes)[i])
    decreases |outcomes|
  {
    if outcomes != [] {
      RecordsOfSucceededFrames(directory, outcomes[..|outcomes| - 1]);
    }
  }

  /** No two records name the same file. */
  lemma RecordsDistinct(directory: string, outcomes: seq<Result<(Canvas, Canvas)>>)
    ensures var rs := Records(directory, outcomes);
      forall i, j :: 0 <= i < |rs| && 0 <= j < |rs| && i != j ==>
        rs[i].annotatedPath != rs[j].annotatedPath && rs[i].radarPath != rs[j].radarPath
  {
    RecordsOfSucceededFrames(directory, outcomes);
    var rs := Records(directory, outcomes);
    var fs := SucceededFrames(outcomes);
    forall i, j | 0 <= i < |rs| && 0 <= j < |rs| && i != j
      ensures rs[i].annotatedPath != rs[j].annotatedPath && rs[i].radarPath != rs[j].radarPath
    {
      assert fs[i] != fs[j];
      RecordPathsDistinct(directory, fs[i], fs[j]);
    }
  }

  /** The progress reports of the first `n` iterations: frame numbers 1 to `n`. */
  function ProgressReports(n: nat, total: int): (rs: seq<Event>)
    requires total != 0
    ensures |rs| == n
  {
    if n == 0 then [] else ProgressReports(n - 1, total) + [ProgressSignal(Percent(n, total), n, total)]
  }

  /** The `i`-th report is for frame number `i + 1`; when `n` is the frame
      count, every percentage lies between 0 and 100 and the last is 100. */
  lemma {:induction false} ProgressReportsAt(n: nat, total: int)
    requires total != 0
    ensures forall i :: 0 <= i < n ==> ProgressReports(n, total)[i] == ProgressSignal(Percent(i + 1, total), i + 1, total)
    ensures 0 < n <= total ==> forall i :: 0 <= i < n ==> 0 <= ProgressReports(n, total)[i].percent <= 100
    ensures 0 < n == total ==> ProgressReports(n, total)[n - 1].percent == 100
  {
    if n > 0 {
      ProgressReportsAt(n - 1, total);
      var rs := ProgressReports(n, total);
      assert forall i :: 0 <= i < n - 1 ==> rs[i] == ProgressReports(n - 1, total)[i];
      if n <= total {
        forall i | 0 <= i < n
          ensures 0 <= rs[i].percent <= 100
        {
          PercentBounds(i + 1, total);
        }
        PercentBounds(n, total);
      }
    }
  }

  /** The last iteration adds exactly its own progress report. */
  lemma LoopProgressStep(directory: string, outcomes: seq<Result<(Canvas, Canvas)>>, total: int)
    requires total != 0 && outcomes != []
    ensures var n := |outcomes|;
      Filter(LoopEvents(directory, outcomes, total), IsProgress) ==
        Filter(LoopEvents(directory, outcomes[..n - 1], total), IsProgress) +
        [ProgressSignal(Percent(n, total), n, total)]
  {
    var n := |outcomes|;
    var prior := LoopEvents(directory, outcomes[..n - 1], total);
    var step := TryEvents(directory, n - 1, outcomes[n - 1]);
    var report := [ProgressSignal(Percent(n, total), n, total)];
    TryEventsKinds(directory, n - 1, outcomes[n - 1]);
    FilterNone(step, IsProgress);
    FilterOne(report[0], IsProgress);
    FilterStep(LoopEvents(directory, outcomes, total), prior, step, report, IsProgress);
  }

  /** Progress is reported once per iteration, failed frames included, in
      order, with the 1-based frame number. */
  lemma {:induction false} LoopProgress(directory: string, outcomes: seq<Result<(Canvas, Canvas)>>, total: int)
    requires total != 0
    ensures Filter(LoopEvents(directory, outcomes, total), IsProgress) == ProgressReports(|outcomes|, total)
    decreases |outcomes|
  {
    if outcomes != [] {
      var n := |outcomes|;
      LoopProgress(directory, outcomes[..n - 1], total);
      LoopProgressStep(directory, outcomes, total);
      assert ProgressReports(n, total) == ProgressReports(n - 1, total) + [ProgressSignal(Percent(n, total), n, total)];
    }
  }

  /** A `try` block sends no progress report, and a preview only for a
      frame that succeeded and whose index is a multiple of 5. */
  lemma TryEventsKinds(directory: string, frameCount: nat, outcome: Result<(Canvas, Canvas)>)
    ensures forall e :: e in TryEvents(directory, frameCount, outcome) ==> !IsProgress(e)
    ensures |Filter(TryEvents(directory, frameCount, outcome), IsPreview)| ==
      if outcome.Ok? && frameCount % PreviewPeriod == 0 then 1 else 0
  {
    var s := TryEvents(directory, frameCount, outcome);
    if outcome.Ok? {
      var writes := [ImageWritten(Record(directory, frameCount).annotatedPath, outcome.value.0),
                     ImageWritten(Record(directory, frameCount).radarPath, outcome.value.1)];
      var preview := if frameCount % PreviewPeriod == 0 then [PreviewSignal(outcome.value.0, outcome.value.1)] else [];
      assert s == preview + writes;
      FilterAppend(preview, writes, IsPreview);
      FilterNone(writes, IsPreview);
      if preview != [] {
        FilterOne(preview[0], IsPreview);
      } else {
        FilterNone(preview, IsPreview);
      }
    } else {
      FilterNone(s, IsPreview);
    }
  }

  /** How many previews the last iteration adds to the log. */
  lemma LoopPreviewsStep(directory: string, outcomes: seq<Result<(Canvas, Canvas)>>, total: int)
    requires total != 0 && outcomes != []
    ensures var n := |outcomes|;
      |Filter(LoopEvents(directory, outcomes, total), IsPreview)| ==
        |Filter(LoopEvents(directory, outcomes[..n - 1], total), IsPreview)| +
        (if outcomes[n - 1].Ok? && IsPreviewFrame(n - 1) then 1 else 0)
  {
    var n := |outcomes|;
    var prior := LoopEvents(directory, outcomes[..n - 1], total);
    var step := TryEvents(directory, n - 1, outcomes[n - 1]);
    var report := [ProgressSignal(Percent(n, total), n, total)];
    TryEventsKinds(directory, n - 1, outcomes[n - 1]);
    FilterNone(report, IsPreview);
    assert LoopEvents(directory, outcomes, total) == prior + step + report;
    FilterAppendThree(prior, step, report, IsPreview);
  }

  /** How many preview frames the last outcome adds to the succeeded frames. */
  lemma SucceededPreviewsStep(outcomes: seq<Result<(Canvas, Canvas)>>)
    requires outcomes != []
    ensures var n := |outcomes|;
      |Filter(SucceededFrames(outcomes), IsPreviewFrame)| ==
        |Filter(SucceededFrames(outcomes[..n - 1]), IsPreviewFrame)| +
        (if outcomes[n - 1].Ok? && IsPreviewFrame(n - 1) then 1 else 0)
  {
    var n := |outcomes|;
    var last: seq<nat> := if outcomes[n - 1].Ok? then [n - 1] else [];
    if outcomes[n - 1].Ok? {
      FilterOne<nat>(n - 1, IsPreviewFrame);
    }
    assert SucceededFrames(outcomes) == SucceededFrames(outcomes[..n - 1]) + last;
    FilterAppend(SucceededFrames(outcomes[..n - 1]), last, IsPreviewFrame);
  }

  /** A preview is sent exactly for the frames that succeeded and whose index
      is a multiple of 5. */
  lemma {:induction false} LoopPreviews(directory: string, outcomes: seq<Result<(Canvas, Canvas)>>, total: int)
    requires total != 0
    ensures |Filter(LoopEvents(directory, outcomes, total), IsPreview)| ==
      |Filter(SucceededFrames(outcomes), IsPreviewFrame)|
    decreases |outcomes|
  {
    if outcomes != [] {
      LoopPreviewsStep(directory, outcomes, total);
      SucceededPreviewsStep(outcomes);
      LoopPreviews(directory, outcomes[..|outcomes| - 1], total);
    }
  }

  predicate IsPreviewFrame(frameCount: nat) { frameCount % PreviewPeriod == 0 }

  /** Nothing inside the loop is a `finished` signal. */
  lemma {:induction false} LoopNeverFinishes(directory: string, outcomes: seq<Result<(Canvas, Canvas)>>, total: int)
    requires outcomes == [] || total != 0
    ensures forall e :: e in LoopEvents(directory, outcomes, total) ==> !e.FinishedSignal?
    decreases |outcomes|
  {
    if outcomes != [] {
      LoopNeverFinishes(directory, outcomes[..|outcomes| - 1], total);
    }
  }

  /** Whether `is_running` still holds at the test of step `step`, when
      `stop()` is called just before the test of step `stopAt`. */
  predicate RunningAt(running: bool, stopAt: Option<nat>, step: nat)
  {
    running && !(stopAt.Some? && stopAt.value <= step)
  }

  /** How many frames the loop processes: all of them, or those before the
      step at which `stop()` arrives. */
  function Steps(frames: nat, running: bool, stopAt: Option<nat>): (n: nat)
    ensures n <= frames
    ensures n == frames || !RunningAt(running, stopAt, n)
    ensures forall k :: 0 <= k < n ==> RunningAt(running, stopAt, k)
  {
    if !running then 0 else if stopAt.Some? then Min(stopAt.value, frames) else frames
  }

  class ProcessingWorker {
    const videoProcessor: VideoProcessor
    const tempFrameDir: string
    var isRunning: bool

    constructor(videoProcessor: VideoProcessor, tempDir: string)
      ensures this.videoProcessor == videoProcessor && tempFrameDir == tempDir && isRunning
    {
      this.videoProcessor := videoProcessor;
      tempFrameDir := tempDir;
      isRunning := true;
    }

    /** `stop`: it only lowers the flag the loop tests. */
    method Stop()
      modifies this`isRunning
      ensures !isRunning
    {
      isRunning := false;
    }

    /** The `try` block of one iteration: process the frame, then send the
        preview and write the two images, or print the failure. `added` is
        what is appended to `processed_frames_info`. */
    method TryFrame(frameCount: nat, frame: Frame)
      returns (result: Result<(Canvas, Canvas)>, written: seq<Event>, added: seq<FrameRecord>)
      requires videoProcessor.Valid()
      modifies videoProcessor, videoProcessor.frameProcessor
      ensures videoProcessor.Valid()
      ensures written == TryEvents(tempFrameDir, frameCount, result)
      ensures added == if result.Ok? then [Record(tempFrameDir, frameCount)] else []
    {
      var r, _, _ := videoProcessor.ProcessFrame(frame);
      result := r;
      if result.Ok? {
        var (annotated, radar) := result.value;
        written := [];
        if frameCount % PreviewPeriod == 0 {
          written := [PreviewSignal(annotated, radar)];
        }
        var annotatedPath := JoinPath(tempFrameDir, AnnotatedName(frameCount));
        var radarPath := JoinPath(tempFrameDir, RadarName(frameCount));
        written := written + [ImageWritten(annotatedPath, annotated), ImageWritten(radarPath, radar)];
        added := [FrameRecord(annotatedPath, radarPath, true)];
      } else {
        written := [FrameFailed(frameCount, result.error)];
        added := [];
      }
    }

    /** The frame loop of `run`, from the first test of `is_running` to the
        exit: by exhausting the frames or the stop (`raised.None?`), or by
        the division by zero in the progress report of the first frame when
        the capture reports no frames (`raised.Some?`). */
    method FrameLoop(frames: seq<Frame>, total: int, stopAt: Option<nat>)
      returns (events: seq<Event>, outcomes: seq<Result<(Canvas, Canvas)>>, records: seq<FrameRecord>, raised: Option<Error>)
      requires videoProcessor.Valid()
      modifies this`isRunning, videoProcessor, videoProcessor.frameProcessor
      ensures videoProcessor.Valid()
      ensures raised.Some? ==>
        raised == Some(ZeroDivisionError) && total == 0 && |frames| >= 1 &&
        RunningAt(old(isRunning), stopAt, 0) && isRunning &&
        |outcomes| == 1 && events == TryEvents(tempFrameDir, 0, outcomes[0])
      ensures raised.None? ==>
        |outcomes| == Steps(|frames|, old(isRunning), stopAt) && (total != 0 || outcomes == []) &&
        isRunning == RunningAt(old(isRunning), stopAt, |outcomes|) &&
        events == LoopEvents(tempFrameDir, outcomes, total) && records == Records(tempFrameDir, outcomes)
    {
      events, outcomes, records, raised := [], [], [], None;
      var frameCount: nat := 0;
      while true
        invariant videoProcessor.Valid()
        invariant frameCount <= |frames| && |outcomes| == frameCount && raised.None?
        invariant isRunning == (old(isRunning) && !(stopAt.Some? && stopAt.value < frameCount))
        invariant forall k :: 0 <= k < frameCount ==> RunningAt(old(isRunning), stopAt, k)
        invariant total != 0 || outcomes == []
        invariant records == Records(tempFrameDir, outcomes)
        invariant events == LoopEvents(tempFrameDir, outcomes, total)
        decreases |frames| - frameCount
      {
        if stopAt == Some(frameCount) {
          Stop();
        }
        if frameCount >= |frames| || !isRunning {
          break;
        }
        var result, written, added := TryFrame(frameCount, frames[frameCount]);
        events := events + written;
        records := records + added;
        ghost var prior := outcomes;
        outcomes := outcomes + [result];
        assert outcomes[..frameCount] == prior;
        if total == 0 {
          raised := Some(ZeroDivisionError);
          assert prior == [];
          return;
        }
        events := events + [ProgressSignal(Percent(frameCount + 1, total), frameCount + 1, total)];
        frameCount := frameCount + 1;
      }
    }

    /** `run`, with `capture` what opening the video gave and `stop()`
        arriving, if ever, just before the loop's test of step `stopAt`
        (step `n` being the test after the `n`-th frame, or the final test
        once the frames are exhausted). `outcomes` lists what
        `process_frame` gave for each frame read; `raised` is the exception
        that escaped the loop, if any. */
    method Run(capture: Capture, stopAt: Option<nat>)
      returns (events: seq<Event>, outcomes: seq<Result<(Canvas, Canvas)>>, raised: Option<Error>)
      requires videoProcessor.Valid()
      modifies this`isRunning, videoProcessor, videoProcessor.frameProcessor
      ensures videoProcessor.Valid()
      ensures !capture.isOpened ==>
        events == [ErrorSignal(OpenFailedMessage)] && outcomes == [] && raised.None? && isRunning == old(isRunning)
      ensures var total := Trunc(capture.frameCount);
        capture.isOpened && raised.Some? ==>
          raised == Some(ZeroDivisionError) && total == 0 && |capture.frames| >= 1 &&
          RunningAt(old(isRunning), stopAt, 0) && isRunning &&
          |outcomes| == 1 && events == TryEvents(tempFrameDir, 0, outcomes[0])
      ensures var total := Trunc(capture.frameCount);
        capture.isOpened && raised.None? ==>
          |outcomes| == Steps(|capture.frames|, old(isRunning), stopAt) && (total != 0 || outcomes == []) &&
          isRunning == RunningAt(old(isRunning), stopAt, |outcomes|) &&
          events == LoopEvents(tempFrameDir, outcomes, total) + [CaptureReleased] +
                    (if isRunning then [FinishedSignal(Records(tempFrameDir, outcomes))] else [])
      ensures stopAt.Some? && stopAt.value <= |outcomes| ==> forall e :: e in events ==> !e.FinishedSignal?
    {
      var ready := videoProcessor.SetupVideoIo(capture);
      if !ready {
        events, outcomes, raised := [ErrorSignal(OpenFailedMessage)], [], None;
        return;
      }
      var total := videoProcessor.totalFrames;
      var records;
      events, outcomes, records, raised := FrameLoop(capture.frames, total, stopAt);
      if raised.Some? {
        return;
      }
      events := events + [CaptureReleased];
      LoopNeverFinishes(tempFrameDir, outcomes, total);
      if isRunning {
        events := events + [FinishedSignal(records)];
      }
    }
  }
}
