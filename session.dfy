/** The detection session: the tick loop of `run`, the recording toggle, the
    key commands, snapshot and recording file names, and `cleanup`. Every
    oracle a tick consults (the camera's read and reopen outcomes, the model's
    inference, the two clock readings, the key code and the timestamp string)
    is part of the tick's input; a run is driven by a finite script of ticks. */
module Session {
  import opened Common
  import opened Canvas
  import opened Settings
  import opened Camera
  import opened Detector

  /** An open cv2.VideoWriter: its file, frame rate and frame size, and the
      frames written to it so far. */
  datatype Writer = Writer(path: string, fps: int, width: int, height: int, frames: seq<Picture>)

  /** What the session does outside its own fields, in order. */
  datatype Effect =
    | Show(frame: Picture)                         // cv2.imshow
    | SaveImage(path: string, frame: Picture)      // cv2.imwrite of a snapshot
    | PrintDetections(detections: seq<Detection>)  // `_show_detection_info`
    | CloseWriter(writer: Writer)                  // video_writer.release(): the recording is finished
    | ReleaseCamera                                // camera.release() in `cleanup`
    | DestroyWindows                               // cv2.destroyAllWindows()

  /** The camera handler's and the detector's mutable fields, `video_writer` and `is_running`. */
  datatype SysState = SysState(cam: CamState, meter: FpsMeter, writer: Option<Writer>, running: bool)

  /** What stays fixed during a run: configuration, rendering helpers, and the
      detector's model and name table. */
  datatype Setup = Setup(cfg: Config, render: Rendering, hasModel: bool, classNames: map<int, string>)

  /** One tick's oracles. `Fault` is an exception escaping the loop body
      (caught by the generic handler of `run`). */
  datatype Tick =
    | Frame(read: ReadOutcome, reopen: OpenOutcome, inference: Inference, clock: Clock, key: int, stamp: string)
    | Fault

  /** How `run` ends. `Interrupted` is a KeyboardInterrupt, which in the model
      arrives when the script of ticks runs out. */
  datatype ExitReason = CameraUnavailable | ReconnectFailed | UserQuit | Interrupted | Faulted

  datatype Command = Quit | SaveSnapshot | ToggleRecording | ShowInfo | NoCommand

  const KeyEsc := 27

  /** The command for a cv2.waitKey code: only its low 8 bits count
      (`& 0xFF`, which equals a non-negative remainder modulo 256 also for -1). */
  function KeyCommand(key: int): (c: Command)
    ensures c == Quit <==> key % 256 == 'q' as int || key % 256 == KeyEsc
    ensures c == SaveSnapshot <==> key % 256 == 's' as int
    ensures c == ToggleRecording <==> key % 256 == 'r' as int
    ensures c == ShowInfo <==> key % 256 == 'i' as int
  {
    var k := key % 256;
    if k == 'q' as int || k == KeyEsc then Quit
    else if k == 's' as int then SaveSnapshot
    else if k == 'r' as int then ToggleRecording
    else if k == 'i' as int then ShowInfo
    else NoCommand
  }

  /** Bits above the low eight do not change the command, and "no key" (-1) is no command. */
  lemma KeyMasked(key: int, n: int)
    ensures KeyCommand(key + 256 * n) == KeyCommand(key)
    ensures KeyCommand(-1) == NoCommand
  {
    assert (key + 256 * n) % 256 == key % 256;
  }

  function SnapshotPath(dir: string, stamp: string): string
  {
    dir + "/detection_" + stamp + ".jpg"
  }

  function RecordingPath(dir: string, stamp: string): string
  {
    dir + "/recording_" + stamp + ".mp4"
  }

  /** A snapshot never overwrites a recording, and different timestamps give
      different files of each kind. */
  lemma FileNamesDistinct(dir: string, a: string, b: string)
    ensures SnapshotPath(dir, a) != RecordingPath(dir, b)
    ensures SnapshotPath(dir, a) == SnapshotPath(dir, b) ==> a == b
    ensures RecordingPath(dir, a) == RecordingPath(dir, b) ==> a == b
  {
    var n := |dir|;
    assert SnapshotPath(dir, a)[n + 1] == 'd';
    assert RecordingPath(dir, b)[n + 1] == 'r';
    if SnapshotPath(dir, a) == SnapshotPath(dir, b) {
      assert a == SnapshotPath(dir, a)[n + 11 .. n + 11 + |a|];
      assert b == SnapshotPath(dir, b)[n + 11 .. n + 11 + |b|];
    }
    if RecordingPath(dir, a) == RecordingPath(dir, b) {
      assert a == RecordingPath(dir, a)[n + 11 .. n + 11 + |a|];
      assert b == RecordingPath(dir, b)[n + 11 .. n + 11 + |b|];
    }
  }

  /** The object count drawn at (10, 60); its digits read back as the count. */
  function CountCaption(n: nat, cfg: Config): (m: Mark)
    ensures m.Text? && m.origin == Point(10, 60) && m.color == cfg.fpsColor
    ensures |m.text| > 9 && m.text[..9] == "Objects: " && AllDigits(m.text[9..]) && DecimalValue(m.text[9..]) == n
  {
    DecimalRoundTrip(n);
    var t := "Objects: " + Decimal(n);
    assert t[9..] == Decimal(n);
    Text(t, Point(10, 60), cfg.fpsColor)
  }

  /** The filled red dot drawn 30 pixels in from the top right corner while recording. */
  function Indicator(p: Picture): Mark
  {
    Circle(Point(p.width - 30, 30), 10, Bgr(0, 0, 255), -1)
  }

  /** What `_toggle_recording` does to `video_writer`. */
  datatype Toggled = Toggled(writer: Option<Writer>, effects: seq<Effect>)

  /** Without a writer a new one is opened on a timestamped file at the
      configured camera rate, sized (shape[1], shape[0]) of the frame; with one,
      it is released and cleared. */
  function Toggle(w: Option<Writer>, frame: Picture, stamp: string, cfg: Config): (r: Toggled)
    ensures w.None? ==> r.effects == [] && r.writer.Some? && r.writer.value.frames == []
    ensures w.None? ==> r.writer.value.path == RecordingPath(cfg.outputDir, stamp) && r.writer.value.fps == cfg.cameraFps
    ensures w.None? ==> r.writer.value.width == frame.width && r.writer.value.height == frame.height
    ensures w.Some? ==> r.writer.None? && r.effects == [CloseWriter(w.value)]
  {
    if w.None? then Toggled(Some(Writer(RecordingPath(cfg.outputDir, stamp), cfg.cameraFps, frame.width, frame.height, [])), [])
    else Toggled(None, [CloseWriter(w.value)])
  }

  /** Two toggles from "not recording" return to "not recording", having
      finished one empty recording. */
  lemma {:induction false} ToggleTwice(f1: Picture, s1: string, f2: Picture, s2: string, cfg: Config)
    ensures var t1 := Toggle(None, f1, s1, cfg);
            var t2 := Toggle(t1.writer, f2, s2, cfg);
            t2.writer == None && t1.effects + t2.effects == [CloseWriter(t1.writer.value)]
  {
  }

  /** The overlays drawn after the annotation: the FPS caption only when
      enabled, and always the object count, in that order. */
  function Overlays(setup: Setup, fps: real, count: nat): seq<Mark>
  {
    (if setup.cfg.showFps then [FpsCaption(fps, setup.cfg, setup.render)] else []) + [CountCaption(count, setup.cfg)]
  }

  /** With the shipped configuration both captions are drawn, FPS first, both
      in the yellow FPS colour. */
  lemma ShippedOverlays(render: Rendering, hasModel: bool, names: map<int, string>, fps: real, count: nat)
    ensures var o := Overlays(Setup(Shipped, render, hasModel, names), fps, count);
            && |o| == 2 && o[0] == FpsCaption(fps, Shipped, render)
            && o[1].Text? && o[1].origin == Point(10, 60)
            && o[0].color == Bgr(0, 255, 255) && o[1].color == Bgr(0, 255, 255)
  {
  }

  /** The frame after detection, FPS and object count, with the records and the new counter. */
  datatype Composed = Composed(frame: Picture, detections: seq<Detection>, meter: FpsMeter)

  function Compose(setup: Setup, meter: FpsMeter, frame: Picture, inf: Inference, clock: Clock): Composed
  {
    var d := Detect(setup.hasModel, setup.classNames, frame, inf, setup.cfg, setup.render);
    var m := if setup.cfg.showFps then FpsUpdated(meter, clock.now, clock.later) else meter;
    Composed(d.frame.(marks := d.frame.marks + Overlays(setup, m.fps, |d.detections|)), d.detections, m)
  }

  /** Composing is detection followed by the drawing calls of the captions:
      the FPS caption (after the counter update) when enabled, then the count. */
  lemma ComposeByDrawing(setup: Setup, meter: FpsMeter, frame: Picture, inf: Inference, clock: Clock)
    ensures var c := Compose(setup, meter, frame, inf, clock);
            var d := Detect(setup.hasModel, setup.classNames, frame, inf, setup.cfg, setup.render);
            var m := if setup.cfg.showFps then FpsUpdated(meter, clock.now, clock.later) else meter;
            var f := if setup.cfg.showFps then d.frame.Draw(FpsCaption(m.fps, setup.cfg, setup.render)) else d.frame;
            && c.detections == d.detections && c.meter == m
            && c.frame == f.Draw(CountCaption(|d.detections|, setup.cfg))
  {
    var d := Detect(setup.hasModel, setup.classNames, frame, inf, setup.cfg, setup.render);
    var m := if setup.cfg.showFps then FpsUpdated(meter, clock.now, clock.later) else meter;
    if setup.cfg.showFps {
      assert d.frame.marks + Overlays(setup, m.fps, |d.detections|)
          == (d.frame.marks + [FpsCaption(m.fps, setup.cfg, setup.render)]) + [CountCaption(|d.detections|, setup.cfg)];
    }
  }

  /** The writer after the recording step and the frame that is then shown. */
  datatype Recording = Recording(writer: Option<Writer>, shown: Picture)

  /** While recording, the frame is written first and the indicator drawn after. */
  function Recorded(w: Option<Writer>, frame: Picture): Recording
  {
    if w.Some? then Recording(Some(w.value.(frames := w.value.frames + [frame])), frame.Draw(Indicator(frame)))
    else Recording(w, frame)
  }

  /** The outcome of one tick: the new state, its effects, and whether the loop stops. */
  datatype TickResult = TickResult(state: SysState, effects: seq<Effect>, stop: Option<ExitReason>)

  /** The key handling at the end of a tick, after the frame is shown. */
  function Dispatched(setup: Setup, s: SysState, shown: Picture, dets: seq<Detection>, key: int, stamp: string): TickResult
  {
    match KeyCommand(key)
    case Quit => TickResult(s, [Show(shown)], Some(UserQuit))
    case SaveSnapshot => TickResult(s, [Show(shown), SaveImage(SnapshotPath(setup.cfg.outputDir, stamp), shown)], None)
    case ToggleRecording =>
      var t := Toggle(s.writer, shown, stamp, setup.cfg);
      TickResult(s.(writer := t.writer), [Show(shown)] + t.effects, None)
    case ShowInfo => TickResult(s, [Show(shown), PrintDetections(dets)], None)
    case NoCommand => TickResult(s, [Show(shown)], None)
  }

  /** One pass of the loop body of `run`. */
  function TickStep(setup: Setup, s: SysState, t: Tick): TickResult
    requires t.Frame?
  {
    var rd := ReadResult(s.cam, t.read);
    if !rd.ok then
      var rc := Reconnected(s.cam, t.reopen);
      TickResult(s.(cam := rc.state), [], if rc.ok then None else Some(ReconnectFailed))
    else
      var c := Compose(setup, s.meter, rd.frame.value, t.inference, t.clock);
      var rec := Recorded(s.writer, c.frame);
      Dispatched(setup, s.(meter := c.meter, writer := rec.writer), rec.shown, c.detections, t.key, t.stamp)
  }

  /** What `run` leaves behind. */
  datatype RunResult = RunResult(state: SysState, effects: seq<Effect>, exit: ExitReason)

  function Then(e: seq<Effect>, r: RunResult): RunResult
  {
    r.(effects := e + r.effects)
  }

  /** Re-association of effects; a separate lemma only to keep the loop proofs cheap. */
  lemma ThenThen(a: seq<Effect>, b: seq<Effect>, r: RunResult)
    ensures Then(a, Then(b, r)) == Then(a + b, r)
  {
    assert a + (b + r.effects) == (a + b) + r.effects;
  }

  /** `cleanup`: release the writer if there is one (without clearing the
      field), then the camera, then close the windows. */
  function CleanedUp(s: SysState, exit: ExitReason): RunResult
  {
    var release := if s.writer.Some? then [CloseWriter(s.writer.value)] else [];
    RunResult(s.(cam := Released(s.cam)), release + [ReleaseCamera, DestroyWindows], exit)
  }

  lemma CleanupReleases(s: SysState)
    ensures Consistent(s.cam) ==> Consistent(Released(s.cam)) && !Released(s.cam).isOpened
  {
    if Consistent(s.cam) {
      ConsistencyPreserved(s.cam, Opened);
    }
  }

  /** The frames of the writer carry no recording indicator. */
  predicate CleanWriter(w: Option<Writer>)
  {
    w.Some? ==> forall k :: 0 <= k < |w.value.frames| ==> NoCircle(w.value.frames[k])
  }

  /** Every recording finished among these effects has no frame with the indicator. */
  predicate CleanRecordings(effects: seq<Effect>)
  {
    forall k :: 0 <= k < |effects| && effects[k].CloseWriter? ==> CleanWriter(Some(effects[k].writer))
  }

  /** The last effects of a run are those of `cleanup`. */
  predicate EndsWithCleanup(r: RunResult)
  {
    && |r.effects| >= 2
    && r.effects[|r.effects| - 2..] == [ReleaseCamera, DestroyWindows]
    && (r.state.writer.Some? ==> |r.effects| >= 3 && r.effects[|r.effects| - 3] == CloseWriter(r.state.writer.value))
  }

  lemma CleanupEnds(s: SysState, exit: ExitReason)
    ensures var c := CleanedUp(s, exit);
            c.exit == exit && c.state.running == s.running && EndsWithCleanup(c)
  {
  }

  lemma ThenKeepsEnding(e: seq<Effect>, r: RunResult)
    requires EndsWithCleanup(r)
    ensures EndsWithCleanup(Then(e, r))
  {
    var all := e + r.effects;
    assert all[|all| - 2..] == r.effects[|r.effects| - 2..];
    if r.state.writer.Some? {
      assert all[|all| - 3] == r.effects[|r.effects| - 3];
    }
  }

  lemma CleanRecordingsAppend(a: seq<Effect>, b: seq<Effect>)
    requires CleanRecordings(a) && CleanRecordings(b)
    ensures CleanRecordings(a + b)
  {
    forall k | 0 <= k < |a + b| && (a + b)[k].CloseWriter?
      ensures CleanWriter(Some((a + b)[k].writer))
    {
      if k >= |a| {
        assert (a + b)[k] == b[k - |a|];
      }
    }
  }

  /** What is written and what is shown in a tick that reads a frame: the
      annotation, then the FPS caption when enabled, then the object count; the
      shown frame adds the indicator after these when recording, and the
      written frame is the one without it. */
  lemma {:induction false} TickDrawOrder(setup: Setup, s: SysState, t: Tick)
    requires t.Frame? && ReadResult(s.cam, t.read).ok
    ensures var c := Compose(setup, s.meter, Captured(t.read), t.inference, t.clock);
            var r := TickStep(setup, s, t);
            var overlays := AnnotationMarks(c.detections, setup.cfg, setup.render) + Overlays(setup, c.meter.fps, |c.detections|);
            && c.frame.marks == overlays
            && NoCircle(c.frame)
            && |r.effects| >= 1 && r.effects[0].Show?
            && r.effects[0].frame.marks == overlays + (if s.writer.Some? then [Indicator(c.frame)] else [])
            && (s.writer.Some? ==> Recorded(s.writer, c.frame).writer.value.frames == s.writer.value.frames + [c.frame])
            && (s.writer.None? ==> Recorded(s.writer, c.frame).writer.None?)
  {
    ComposeDrawOrder(setup, s.meter, Captured(t.read), t.inference, t.clock);
  }

  /** On a frame with nothing drawn yet, composing draws the annotation, then
      the overlays, and no circle. */
  lemma {:induction false} ComposeDrawOrder(setup: Setup, meter: FpsMeter, frame: Picture, inf: Inference, clock: Clock)
    requires frame.marks == []
    ensures var c := Compose(setup, meter, frame, inf, clock);
            var overlays := AnnotationMarks(c.detections, setup.cfg, setup.render) + Overlays(setup, c.meter.fps, |c.detections|);
            c.frame.marks == overlays && NoCircle(c.frame)
  {
    var c := Compose(setup, meter, frame, inf, clock);
    var d := Detect(setup.hasModel, setup.classNames, frame, inf, setup.cfg, setup.render);
    if d.detections == [] {
      assert d.frame.marks == [];
      assert AnnotationMarks(c.detections, setup.cfg, setup.render) == [];
    }
    OverlaysNoCircle(setup, c.detections, c.meter.fps);
  }

  /** Neither the annotation nor the captions draw a circle. */
  lemma OverlaysNoCircle(setup: Setup, dets: seq<Detection>, fps: real)
    ensures var overlays := AnnotationMarks(dets, setup.cfg, setup.render) + Overlays(setup, fps, |dets|);
            forall k :: 0 <= k < |overlays| ==> !IsCircle(overlays[k])
  {
    var a := AnnotationMarks(dets, setup.cfg, setup.render);
    var overlays := a + Overlays(setup, fps, |dets|);
    AnnotationHasNoCircle(dets, setup.cfg, setup.render);
    forall k | 0 <= k < |overlays|
      ensures !IsCircle(overlays[k])
    {
      if k >= |a| {
        assert overlays[k] == Overlays(setup, fps, |dets|)[k - |a|];
      }
    }
  }

  /** No tick changes `is_running`. */
  lemma TickKeepsRunning(setup: Setup, s: SysState, t: Tick)
    requires t.Frame?
    ensures TickStep(setup, s, t).state.running == s.running
  {
  }

  /** Once the handler has a device handle, no tick takes it away: a reconnect
      keeps the released handle when the new capture cannot even be constructed. */
  lemma TickKeepsHandle(setup: Setup, s: SysState, t: Tick)
    requires t.Frame?
    ensures s.cam.cap.Some? ==> TickStep(setup, s, t).state.cam.cap.Some?
  {
  }

  /** A tick keeps the writer free of indicator frames and finishes only such
      recordings; it never touches `is_running`; it keeps the camera consistent. */
  lemma {:induction false} TickKeepsInvariants(setup: Setup, s: SysState, t: Tick)
    requires t.Frame?
    ensures var r := TickStep(setup, s, t);
            && r.state.running == s.running
            && (Consistent(s.cam) ==> Consistent(r.state.cam))
            && (CleanWriter(s.writer) ==> CleanWriter(r.state.writer) && CleanRecordings(r.effects))
  {
    var r := TickStep(setup, s, t);
    if !ReadResult(s.cam, t.read).ok {
      if Consistent(s.cam) {
        ConsistencyPreserved(s.cam, t.reopen);
      }
    } else if CleanWriter(s.writer) {
      TickDrawOrder(setup, s, t);
      var c := Compose(setup, s.meter, Captured(t.read), t.inference, t.clock);
      var rec := Recorded(s.writer, c.frame);
      if s.writer.Some? {
        var fs := rec.writer.value.frames;
        forall k | 0 <= k < |fs|
          ensures NoCircle(fs[k])
        {
          if k < |s.writer.value.frames| {
            assert fs[k] == s.writer.value.frames[k];
          }
        }
      }
      assert CleanWriter(rec.writer);
    }
  }

  /** The loop of `run` from a given state over the remaining script: a fault
      or the end of the script (an interrupt) goes to `cleanup` at once; a tick
      that stops the loop goes to `cleanup` after its own effects. */
  function Loop(setup: Setup, s: SysState, script: seq<Tick>): RunResult
    decreases |script|
  {
    if script == [] then CleanedUp(s, Interrupted)
    else if script[0].Fault? then CleanedUp(s, Faulted)
    else
      var r := TickStep(setup, s, script[0]);
      Then(r.effects, if r.stop.Some? then CleanedUp(r.state, r.stop.value) else Loop(setup, r.state, script[1..]))
  }

  /** One turn of the loop over a tick that reads (or tries to read) a frame,
      seen from a run that has already produced `done`. */
  lemma LoopAdvance(setup: Setup, s: SysState, script: seq<Tick>, i: int, done: seq<Effect>, whole: RunResult)
    requires 0 <= i < |script| && script[i].Frame?
    requires whole == Then(done, Loop(setup, s, script[i..]))
    ensures var r := TickStep(setup, s, script[i]);
            whole == Then(done + r.effects, if r.stop.Some? then CleanedUp(r.state, r.stop.value) else Loop(setup, r.state, script[i + 1..]))
  {
    var r := TickStep(setup, s, script[i]);
    assert script[i..][1..] == script[i + 1..];
    ThenThen(done, r.effects, if r.stop.Some? then CleanedUp(r.state, r.stop.value) else Loop(setup, r.state, script[i + 1..]));
  }

  /** Sequence associativity, stated apart only because asserting it inside
      `Run`'s heap-heavy loop costs far more. */
  lemma EffectsAppend(a: seq<Effect>, b: seq<Effect>, c: seq<Effect>)
    ensures (a + b) + c == a + (b + c)
  {
  }

  /** A freshly constructed camera handler is consistent, which is what the
      run lemmas ask of their starting state. */
  lemma ConstructedConsistent(o: OpenOutcome)
    ensures Consistent(Initialized(Unopened, o).state)
  {
  }

  /** `cleanup` does the same whatever ended the loop, so running it after the
      loop completes the run. */
  lemma CleanupEndsRun(before: seq<Effect>, done: seq<Effect>, last: SysState, exit: ExitReason, whole: RunResult)
    requires whole == Then(done, CleanedUp(last, exit))
    ensures var c := CleanedUp(last, Interrupted);
            whole.state == c.state && before + whole.effects == (before + done) + c.effects
  {
    assert before + (done + CleanedUp(last, exit).effects) == (before + done) + CleanedUp(last, exit).effects;
  }

  /** Every way out of the loop (reconnect failure, quit, an exception, an
      interrupt) passes through `cleanup`, and `is_running` is never reset. */
  lemma {:induction false} LoopEndsWithCleanup(setup: Setup, s: SysState, script: seq<Tick>)
    ensures var r := Loop(setup, s, script);
            r.exit != CameraUnavailable && r.state.running == s.running && EndsWithCleanup(r)
    decreases |script|
  {
    if script == [] {
      CleanupEnds(s, Interrupted);
    } else if script[0].Fault? {
      CleanupEnds(s, Faulted);
    } else {
      var r := TickStep(setup, s, script[0]);
      TickKeepsRunning(setup, s, script[0]);
      var rest := if r.stop.Some? then CleanedUp(r.state, r.stop.value) else Loop(setup, r.state, script[1..]);
      if r.stop.Some? {
        CleanupEnds(r.state, r.stop.value);
      } else {
        LoopEndsWithCleanup(setup, r.state, script[1..]);
      }
      ThenKeepsEnding(r.effects, rest);
    }
  }

  /** A loop that starts with a consistent camera handler ends with the camera
      released: the handler no longer believes it open. */
  lemma {:induction false} LoopReleasesCamera(setup: Setup, s: SysState, script: seq<Tick>)
    requires Consistent(s.cam)
    ensures var r := Loop(setup, s, script);
            Consistent(r.state.cam) && !r.state.cam.isOpened
    ensures var r := Loop(setup, s, script);
            r.state.cam.cap.Some? ==> !r.state.cam.cap.value.reportsOpen
    ensures s.cam.cap.Some? ==> Loop(setup, s, script).state.cam.cap.Some?
    decreases |script|
  {
    if script == [] || script[0].Fault? {
      CleanupReleases(s);
    } else {
      var r := TickStep(setup, s, script[0]);
      TickKeepsInvariants(setup, s, script[0]);
      TickKeepsHandle(setup, s, script[0]);
      if r.stop.Some? {
        CleanupReleases(r.state);
      } else {
        LoopReleasesCamera(setup, r.state, script[1..]);
      }
    }
  }

  /** No recording finished during the loop, nor the writer left at its end,
      has a frame with the recording indicator. */
  lemma {:induction false} LoopRecordsCleanly(setup: Setup, s: SysState, script: seq<Tick>)
    requires CleanWriter(s.writer)
    ensures var r := Loop(setup, s, script);
            CleanWriter(r.state.writer) && CleanRecordings(r.effects)
    decreases |script|
  {
    if script != [] && script[0].Frame? {
      var r := TickStep(setup, s, script[0]);
      TickKeepsInvariants(setup, s, script[0]);
      var rest := if r.stop.Some? then CleanedUp(r.state, r.stop.value) else Loop(setup, r.state, script[1..]);
      if r.stop.None? {
        LoopRecordsCleanly(setup, r.state, script[1..]);
      }
      CleanRecordingsAppend(r.effects, rest.effects);
    }
  }

  /** `run`: never enters the loop, never sets `is_running` and never cleans up
      when the camera is not available at the start; otherwise it sets
      `is_running` and runs the loop. */
  function RunOutcome(setup: Setup, s: SysState, script: seq<Tick>): (r: RunResult)
    ensures r.exit == CameraUnavailable <==> !Available(s.cam)
    ensures !Available(s.cam) ==> r == RunResult(s, [], CameraUnavailable)
    ensures Available(s.cam) ==> r.state.running && EndsWithCleanup(r)
  {
    if !Available(s.cam) then RunResult(s, [], CameraUnavailable)
    else
      LoopEndsWithCleanup(setup, s.(running := true), script);
      Loop(setup, s.(running := true), script)
  }

  /** A run that starts consistent and not recording, and gets past the
      availability check, ends with the device handle present and closed and
      the camera not believed open; every recording it finished is free of
      the indicator. */
  lemma RunReleasesAndRecordsCleanly(setup: Setup, s: SysState, script: seq<Tick>)
    requires Consistent(s.cam) && s.writer.None?
    ensures var r := RunOutcome(setup, s, script);
            r.exit != CameraUnavailable ==>
              && r.state.cam.cap.Some? && !r.state.cam.cap.value.reportsOpen
              && !r.state.cam.isOpened && CleanRecordings(r.effects)
  {
    var s1 := s.(running := true);
    if Available(s.cam) {
      LoopReleasesCamera(setup, s1, script);
      LoopRecordsCleanly(setup, s1, script);
    }
  }

  /** A failed read costs exactly one reconnect attempt: if that fails the loop
      stops (through cleanup); if it succeeds the rest of the tick is skipped
      and the loop goes on with the next tick from the reconnected camera. */
  lemma ReadFailureReconnects(setup: Setup, s: SysState, script: seq<Tick>)
    requires script != [] && script[0].Frame? && !ReadResult(s.cam, script[0].read).ok
    ensures var rc := Reconnected(s.cam, script[0].reopen);
            && (!rc.ok ==> Loop(setup, s, script) == CleanedUp(s.(cam := rc.state), ReconnectFailed))
            && (rc.ok ==> Loop(setup, s, script) == Loop(setup, s.(cam := rc.state), script[1..]))
  {
    var rc := Reconnected(s.cam, script[0].reopen);
    assert TickStep(setup, s, script[0]) == TickResult(s.(cam := rc.state), [], if rc.ok then None else Some(ReconnectFailed));
    var r := TickStep(setup, s, script[0]);
    assert Then(r.effects, Loop(setup, r.state, script[1..])) == Loop(setup, r.state, script[1..]);
    assert Then(r.effects, CleanedUp(r.state, ReconnectFailed)) == CleanedUp(r.state, ReconnectFailed);
  }

  /** After a successful reconnect the next read that grabs a frame succeeds. */
  lemma ReconnectThenRead(s: SysState, read: ReadOutcome)
    requires read.Grabbed?
    ensures ReadResult(Reconnected(s.cam, Opened).state, read).ok
  {
  }

  /** The key decides the rest of a tick that read a frame: quit stops the
      loop; each other command adds exactly its one action after the shown
      frame; any other key adds nothing. */
  lemma {:induction false} KeyDispatch(setup: Setup, s: SysState, t: Tick)
    requires t.Frame? && ReadResult(s.cam, t.read).ok
    ensures var r := TickStep(setup, s, t);
            var c := Compose(setup, s.meter, Captured(t.read), t.inference, t.clock);
            var rec := Recorded(s.writer, c.frame);
            && r.effects[0] == Show(rec.shown)
            && (r.stop.Some? <==> KeyCommand(t.key) == Quit)
            && (r.stop.Some? ==> r.stop.value == UserQuit)
            && (KeyCommand(t.key) == SaveSnapshot ==> r.effects == [Show(rec.shown), SaveImage(SnapshotPath(setup.cfg.outputDir, t.stamp), rec.shown)])
            && (KeyCommand(t.key) == ShowInfo ==> r.effects == [Show(rec.shown), PrintDetections(c.detections)])
            && (KeyCommand(t.key) == ToggleRecording ==> r.state.writer == Toggle(rec.writer, rec.shown, t.stamp, setup.cfg).writer)
            && (KeyCommand(t.key) == ToggleRecording ==> r.effects == [Show(rec.shown)] + Toggle(rec.writer, rec.shown, t.stamp, setup.cfg).effects)
            && (KeyCommand(t.key) != ToggleRecording ==> r.state.writer == rec.writer)
            && (KeyCommand(t.key) in {Quit, NoCommand} ==> r.effects == [Show(rec.shown)])
            && r.state.cam == s.cam && r.state.meter == c.meter && r.state.running == s.running
  {
  }

  /** Starting a recording with 'r' shows the frame and does nothing else: the
      new writer is empty and takes the shape of the frame. */
  lemma ToggleOnStartsEmpty(setup: Setup, s: SysState, t: Tick)
    requires t.Frame? && ReadResult(s.cam, t.read).ok && s.writer.None? && KeyCommand(t.key) == ToggleRecording
    ensures var r := TickStep(setup, s, t);
            && r.stop.None? && |r.effects| == 1
            && r.state.writer.Some? && r.state.writer.value.frames == []
            && r.state.writer.value.path == RecordingPath(setup.cfg.outputDir, t.stamp)
            && r.state.writer.value.width == t.read.width && r.state.writer.value.height == t.read.height
  {
    KeyDispatch(setup, s, t);
  }

  /** Stopping a recording with 'r' still writes that tick's frame first: the
      recording finished is the old one plus the frame composed in this tick. */
  lemma ToggleOffWritesLastFrame(setup: Setup, s: SysState, t: Tick)
    requires t.Frame? && ReadResult(s.cam, t.read).ok && s.writer.Some? && KeyCommand(t.key) == ToggleRecording
    ensures var r := TickStep(setup, s, t);
            var c := Compose(setup, s.meter, Captured(t.read), t.inference, t.clock);
            var w := s.writer.value;
            && r.stop.None? && r.state.writer.None?
            && |r.effects| == 2 && r.effects[1] == CloseWriter(w.(frames := w.frames + [c.frame]))
  {
    KeyDispatch(setup, s, t);
  }

  /** A recording run: every tick reads a frame and presses no command key. Each
      such tick writes exactly one frame; when the interrupt ends the run,
      cleanup finishes the recording with one more frame per tick. */
  lemma {:induction false} RecordingGrowsByOnePerTick(setup: Setup, s: SysState, script: seq<Tick>)
    requires s.writer.Some? && s.cam.isOpened && s.cam.cap.Some?
    requires forall k :: 0 <= k < |script| ==> script[k].Frame? && script[k].read.Grabbed? && KeyCommand(script[k].key) == NoCommand
    ensures var r := Loop(setup, s, script);
            && r.exit == Interrupted
            && r.state.writer.Some? && r.state.writer.value.path == s.writer.value.path
            && |r.state.writer.value.frames| == |s.writer.value.frames| + |script|
            && |r.effects| >= 3 && r.effects[|r.effects| - 3] == CloseWriter(r.state.writer.value)
    decreases |script|
  {
    LoopEndsWithCleanup(setup, s, script);
    if script != [] {
      var t := script[0];
      var r := TickStep(setup, s, t);
      assert ReadResult(s.cam, t.read).ok;
      KeyDispatch(setup, s, t);
      TickDrawOrder(setup, s, t);
      assert r.stop.None? && r.state.cam == s.cam;
      forall k | 0 <= k < |script[1..]|
        ensures script[1..][k].Frame? && script[1..][k].read.Grabbed? && KeyCommand(script[1..][k].key) == NoCommand
      {
        assert script[1..][k] == script[k + 1];
      }
      RecordingGrowsByOnePerTick(setup, r.state, script[1..]);
    }
  }

  class ObjectDetectionSystem {
    const camera: CameraHandler
    const detector: ObjectDetector
    const cfg: Config
    const render: Rendering
    var isRunning: bool
    var writer: Option<Writer>
    var effects: seq<Effect>

    function SetupOf(): Setup
    {
      Setup(cfg, render, detector.hasModel, detector.classNames)
    }

    function State(): SysState
      reads this, camera, detector
    {
      SysState(camera.State(), detector.Meter(), writer, isRunning)
    }

    /** Opens the camera once and sets up the detector (model loading is not
        modelled); nothing is recording and the loop is not running. */
    constructor (cameraId: int, open: OpenOutcome, modelPath: string, hasModel: bool,
                 classNames: map<int, string>, now: real, cfg: Config, render: Rendering)
      ensures fresh(camera) && fresh(detector)
      ensures State() == SysState(Initialized(Unopened, open).state, FpsMeter(0, 0.0, now), None, false)
      ensures SetupOf() == Setup(cfg, render, hasModel, classNames) && effects == []
    {
      camera := new CameraHandler(cameraId, open);
      detector := new ObjectDetector(modelPath, hasModel, classNames, now);
      this.cfg, this.render := cfg, render;
      isRunning, writer, effects := false, None, [];
    }

    /** `_save_frame`: writes the frame to a timestamped snapshot file. */
    method SaveFrame(frame: Image, dets: seq<Detection>, stamp: string)
      modifies this
      ensures effects == old(effects) + [SaveImage(SnapshotPath(cfg.outputDir, stamp), frame.Value())]
      ensures writer == old(writer) && isRunning == old(isRunning)
    {
      var filename := cfg.outputDir + "/detection_" + stamp + ".jpg";
      effects := effects + [SaveImage(filename, frame.Value())];
    }

    method ToggleRecording(frame: Image, stamp: string)
      modifies this
      ensures var t := Toggle(old(writer), frame.Value(), stamp, cfg);
              writer == t.writer && effects == old(effects) + t.effects
      ensures isRunning == old(isRunning)
    {
      if writer.None? {
        var filename := cfg.outputDir + "/recording_" + stamp + ".mp4";
        writer := Some(Writer(filename, cfg.cameraFps, frame.width, frame.height, []));
      } else {
        effects := effects + [CloseWriter(writer.value)];
        writer := None;
      }
    }

    method ShowDetectionInfo(dets: seq<Detection>)
      modifies this
      ensures effects == old(effects) + [PrintDetections(dets)]
      ensures writer == old(writer) && isRunning == old(isRunning)
    {
      effects := effects + [PrintDetections(dets)];
    }

    method Cleanup()
      modifies this, camera
      ensures var r := CleanedUp(old(State()), Interrupted);
              State() == r.state && effects == old(effects) + r.effects
    {
      if writer.Some? {
        effects := effects + [CloseWriter(writer.value)];
      }
      effects := effects + [ReleaseCamera];
      camera.Release();
      effects := effects + [DestroyWindows];
    }

    /** Detection, the FPS caption when enabled, and the object count, on a
        freshly read frame. */
    method Annotate(frame: Image, t: Tick) returns (annotated: Image, detections: seq<Detection>)
      requires t.Frame?
      modifies detector, frame
      ensures annotated == frame || fresh(annotated)
      ensures annotated != frame ==> frame.Value() == old(frame.Value())
      ensures var c := Compose(SetupOf(), old(detector.Meter()), old(frame.Value()), t.inference, t.clock);
              annotated.Value() == c.frame && detections == c.detections && detector.Meter() == c.meter
    {
      ghost var captured := frame.Value();
      ghost var meter := detector.Meter();
      ComposeByDrawing(SetupOf(), meter, captured, t.inference, t.clock);
      annotated, detections := detector.DetectObjects(frame, t.inference, cfg, render);
      ghost var other := annotated != frame;
      if cfg.showFps {
        detector.DrawFps(annotated, t.clock.now, t.clock.later, cfg, render);
      }
      annotated.Draw(CountCaption(|detections|, cfg));
      assert other ==> frame.Value() == captured;
    }

    /** Recording, display and the key command, once the frame is composed. */
    method Present(annotated: Image, detections: seq<Detection>, t: Tick) returns (stop: Option<ExitReason>)
      requires t.Frame?
      modifies this, annotated
      ensures annotated.Value() == Recorded(old(writer), old(annotated.Value())).shown
      ensures var rec := Recorded(old(writer), old(annotated.Value()));
              var r := Dispatched(SetupOf(), old(State()).(writer := rec.writer), rec.shown, detections, t.key, t.stamp);
              State() == r.state && effects == old(effects) + r.effects && stop == r.stop
    {
      if writer.Some? {
        writer := Some(writer.value.(frames := writer.value.frames + [annotated.Value()]));
        annotated.Draw(Circle(Point(annotated.width - 30, 30), 10, Bgr(0, 0, 255), -1));
      }
      effects := effects + [Show(annotated.Value())];
      var key := t.key % 256;
      if key == 'q' as int || key == KeyEsc {
        return Some(UserQuit);
      } else if key == 's' as int {
        SaveFrame(annotated, detections, t.stamp);
      } else if key == 'r' as int {
        ToggleRecording(annotated, t.stamp);
      } else if key == 'i' as int {
        ShowDetectionInfo(detections);
      }
      stop := None;
    }

    /** One pass of the loop body of `run`. */
    method Step(t: Tick) returns (stop: Option<ExitReason>)
      requires t.Frame?
      modifies this, camera, detector
      ensures var r := TickStep(SetupOf(), old(State()), t);
              State() == r.state && effects == old(effects) + r.effects && stop == r.stop
    {
      var ok, frame := camera.ReadFrame(t.read);
      if !ok || frame == null {
        var reconnected := camera.Reconnect(t.reopen);
        if !reconnected {
          return Some(ReconnectFailed);
        }
        return None;
      }
      var annotated, detections := Annotate(frame, t);
      stop := Present(annotated, detections, t);
    }

    /** `run`: the tick loop, ended only by a break (reconnect failure or quit)
        or an exception, and always followed by `cleanup` once entered. */
    method Run(script: seq<Tick>) returns (exit: ExitReason)
      modifies this, camera, detector
      ensures var r := RunOutcome(SetupOf(), old(State()), script);
              State() == r.state && effects == old(effects) + r.effects && exit == r.exit
    {
      if !Available(camera.State()) {
        return CameraUnavailable;
      }
      isRunning := true;
      ghost var setup := SetupOf();
      ghost var whole := Loop(setup, State(), script);
      assert whole == RunOutcome(setup, old(State()), script);
      ghost var done: seq<Effect> := [];
      var i := 0;
      assert script[i..] == script;
      assert whole == Then(done, whole);
      exit := Interrupted;
      while isRunning
        invariant 0 <= i <= |script|
        invariant isRunning
        invariant effects == old(effects) + done
        invariant whole == Then(done, Loop(setup, State(), script[i..]))
        decreases |script| - i
      {
        if i == |script| {
          assert script[i..] == [];
          exit := Interrupted;
          assert whole == Then(done, CleanedUp(State(), exit));
          break;
        }
        var t := script[i];
        if t.Fault? {
          exit := Faulted;
          assert whole == Then(done, CleanedUp(State(), exit));
          break;
        }
        ghost var before := State();
        ghost var r := TickStep(setup, before, t);
        LoopAdvance(setup, before, script, i, done, whole);
        var stop := Step(t);
        assert State() == r.state && stop == r.stop;
        EffectsAppend(old(effects), done, r.effects);
        done := done + r.effects;
        if stop.Some? {
          exit := stop.value;
          assert whole == Then(done, CleanedUp(State(), exit));
          break;
        }
        i := i + 1;
      }
      ghost var last := State();
      CleanupEndsRun(old(effects), done, last, exit, whole);
      Cleanup();
    }
  }
}
