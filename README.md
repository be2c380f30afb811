# Real-time object detection session, modelled in Dafny

This project models the control core of a webcam object-detection program.
That core covers:

- the camera handler, which opens, reads, releases and reconnects a capture device;
- the detector's bookkeeping around the model: detection records, the annotation drawn for them, and the once-per-second FPS counter;
- the detection session: its tick loop, the recording toggle, the key commands, the snapshot and recording file names, and `cleanup`.

The model also proves properties of that core.

Each component has two levels:

- **Value functions.** These spell out what one operation does to the component's state:
  - `Camera.Initialized`, `Camera.ReadResult`, `Camera.Released` and `Camera.Reconnected` for the camera;
  - `Detector.Detect` and `Detector.FpsUpdated` for the detector;
  - `Session.TickStep`, `Session.Loop` and `Session.RunOutcome` for the session.
- **Classes.** `Camera.CameraHandler`, `Detector.ObjectDetector`, `Canvas.Image` and `Session.ObjectDetectionSystem` have fields that their methods update in place. Each method is proved to produce exactly the new state the value function gives.

The lemmas about the value functions state what the program promises:
- a failed read costs exactly one reconnect attempt;
- every way out of the loop passes through cleanup;
- the camera ends released;
- recorded frames carry no recording indicator;
- while recording, one frame is written per tick that reads a frame, and none by a tick whose read fails;
- the key is masked to 8 bits;
- the FPS rate holds steady within its one-second window.

Everything outside the program is an oracle passed in as data. The oracles are:
- the outcome of opening and reading the device;
- the model's inference, as results or an exception;
- the two clock readings of each FPS update;
- the key code;
- the timestamp string;
- float formatting and OpenCV's text-size measurement, given as `Settings.Rendering`.

A frame is a `Canvas.Picture`: an opaque pixel identifier, its shape, and the ordered list of drawing calls made on it. A run of the session is a finite script of ticks. The end of the script stands for the KeyboardInterrupt that ends the loop. A `Fault` tick stands for any other exception escaping the loop body.

Integers are unbounded. Python's `int()` on a float truncates toward zero, and the model writes this out as `Common.Truncate`. The key mask `& 0xFF` is written as `% 256`, which agrees with the mask for every integer, including -1.

In these places the code behaves differently from what a reader might expect, and the model follows the code:

- **No clipping.** The label background is not clipped to the frame. A box near the top edge gets a background that starts above the frame (`Detector.LabelBackgroundNotClipped`).
- **Reconnects.** Each failed read gets exactly one reconnect attempt. When that attempt fails, the loop stops.
- **Indicator.** The frame written to a recording is taken before the recording indicator is drawn. The frame shown, and a snapshot saved in the same tick, include the indicator.
- **Stopping a recording.** The tick whose 'r' stops a recording writes its own frame first. So the file holds one frame per tick that reads a frame, from the tick after the start up to and including the stop tick (`Session.ToggleOffWritesLastFrame`). A tick whose read fails goes to the reconnect and writes nothing.
- **Leftover state.**
  - `cleanup` releases the video writer without clearing the field.
  - `release` keeps the closed handle.
  - `is_running` is never reset.
  - A refused open leaves `is_opened` as it was.

## Model

| member | source | states |
|---|---|---|
| Camera.Initialized | camera_handler.py:40-75 | the open succeeds exactly when the device opens and configures; only then is `is_opened` set; a refused open keeps the old flag; a raising constructor keeps the old handle |
| Camera.CameraHandler.InitializeCamera | camera_handler.py:40-75 | the handler's new fields and return value are those of `Initialized` |
| Camera.CameraHandler.constructor | camera_handler.py:24-38 | the handler starts with no handle and makes one initialisation attempt |
| Camera.ReadResult | camera_handler.py:77-98 | success exactly when the handler believes itself open, has a handle and the read grabs a frame; a frame is returned exactly on success, with nothing drawn on it; without an open handle the answer is (False, None) |
| Camera.CameraHandler.ReadFrame | camera_handler.py:77-98 | returns a fresh frame buffer whose content matches `ReadResult` |
| Camera.Released | camera_handler.py:100-105 | a no-op without a handle; otherwise the handle is closed and `is_opened` cleared |
| Camera.CameraHandler.Release | camera_handler.py:100-105 | the handler's fields become `Released` of the old ones |
| Camera.Reconnected | camera_handler.py:107-117 | equals release followed by one initialisation; succeeds exactly when the device opens |
| Camera.CameraHandler.Reconnect | camera_handler.py:107-117 | the handler's fields and result are those of `Reconnected` |
| Camera.ReleaseIdempotent | camera_handler.py:100-105 | releasing twice is the same as releasing once |
| Camera.ReconnectAfterRelease | camera_handler.py:107-117 | a reconnect after a manual release ends exactly as a plain reconnect and succeeds exactly when the device opens |
| Camera.ConsistencyPreserved | camera_handler.py:40-117 | release, reconnect and initialisation of a handler not believed open keep "believed open implies the handle reports open" |
| Camera.Info | camera_handler.py:119-130 | nothing when not open or without a handle; otherwise the id and backend name, with width, height and fps truncated as `int()` does |
| Camera.AvailableIsOpened | camera_handler.py:132-134 | for a consistent handler, `is_available` is exactly `is_opened` |
| Camera.Available | camera_handler.py:132-134 | `is_available`; `Camera.AvailableIsOpened` reduces it to `is_opened` for a consistent handler, and `Session.RunOutcome` states that the loop runs exactly when it holds |
| Camera.OpenIndices | camera_handler.py:137-155 | the ids that open below the bound, in probe order; `Camera.OpenIndicesSpec` gives its membership and order, and `Camera.ListAvailableCameras` is proved equal to it |
| Camera.OpenIndicesSpec | camera_handler.py:137-155 | the listed ids are exactly the indices below the bound whose device opens, strictly ascending |
| Camera.ListAvailableCameras | camera_handler.py:137-155 | the probe loop returns exactly the ids that open, ascending, in agreement with `OpenIndices` |
| Camera.ListingExample | camera_handler.py:137 | with the default bound 5 and devices 0 and 2 openable, the list is [0, 2] |
| Detector.Detect | detector.py:71-121 | no model, a raising inference or an unknown class id gives back the input frame and no records; otherwise one record per box in iteration order, with the truncated bbox, the confidence, the class id and the looked-up name, on a frame that gains exactly the annotation |
| Detector.ObjectDetector.DetectObjects | detector.py:71-121 | leaves the input frame unchanged; returns it or a fresh copy; the result equals `Detect` |
| Detector.ObjectDetector.constructor | detector.py:26-45 | the detector keeps its model path, model and name table, and starts its counter at zero frames, rate 0, window starting at the clock reading |
| Canvas.Image.Copy | detector.py:115 | the annotation is drawn on a fresh buffer with the same content as the captured frame |
| Common.Truncate | detector.py:101-107 | `int()` of a float: the integer next to it on the side of zero |
| Detector.ObjectDetector.UnknownClass | detector.py:96-104 | the box that raises the KeyError has a class id missing from the name table |
| Detector.Boxes | detector.py:94-99 | the boxes of all results in the order of the two nested loops; `Detector.BoxesAppend` and `Detector.ObjectDetector.UnknownClass` are about it |
| Detector.Records | detector.py:100-112 | one record per box; `Detector.Detect` states each record's fields |
| Detector.BoxesAppend | detector.py:96-99 | the boxes of concatenated results are the concatenated boxes |
| Detector.Label | detector.py:148-152 | the label is the class name, followed by ": " and the two-decimal confidence exactly when confidences are shown |
| Detector.LabelPlacement | detector.py:154-180 | the label background sits on the box's top edge; it is as wide as the text and as tall as the text height, plus the baseline, plus 5; the text origin lies between its top and bottom |
| Detector.LabelBackgroundNotClipped | detector.py:162-169 | a box closer to the top than the label is tall gets a background starting above the frame |
| Detector.DetectionMarks | detector.py:139-180 | the outline, label background and label text for one detection; `Detector.LabelPlacement` and `Detector.Label` state their geometry and text |
| Detector.AnnotationMarks | detector.py:134-182 | the drawing calls of `_draw_annotations`; `Detector.AnnotationMarksAt` and `Detector.AnnotationHasNoCircle` are about it, and `Detector.ObjectDetector.DrawAnnotations` is proved to draw exactly these |
| Detector.AnnotationMarksAt | detector.py:134-182 | three drawing calls per detection, and the k-th triple is detection k's outline, background and text |
| Detector.AnnotationHasNoCircle | detector.py:123-182 | the annotation draws no circle |
| Detector.ObjectDetector.DrawAnnotations | detector.py:123-182 | draws in place, appending exactly the annotation's calls to the frame |
| Detector.FpsUpdated | detector.py:184-194 | each call counts one frame; within the first second of the window nothing else changes; after it, the rate times the elapsed time equals the frames counted, the count restarts, the window restarts at the second clock reading, and the rate is positive and below the count |
| Detector.RateBelowCount | detector.py:189-190 | frames over more than one second give a positive rate below the frame count |
| Detector.FpsStableWithinWindow | detector.py:184-194 | any number of calls within one window only add to the count and leave the rate alone |
| Detector.ObjectDetector.CalculateFps | detector.py:184-194 | the counter fields become `FpsUpdated` of the old ones, and the stored rate is returned |
| Detector.FpsCaption | detector.py:206-217 | the caption is "FPS: " and the one-decimal rate, at (10, 30) in the FPS colour |
| Detector.ObjectDetector.DrawFps | detector.py:196-219 | exactly one counter update, then the caption drawn with the new rate |
| Detector.ObjectDetector.GetModelInfo | detector.py:221-228 | the model path, the name table, its size as the class count, and the configured threshold |
| Session.KeyCommand | main.py:164-174 | quit exactly on 'q' or ESC in the low 8 bits; save, toggle and info exactly on 's', 'r' and 'i' |
| Session.KeyMasked | main.py:164 | bits above the low eight do not change the command; no key (-1) is no command |
| Session.SnapshotPath | main.py:74-75 | the snapshot file name; `Session.FileNamesDistinct` is about it |
| Session.RecordingPath | main.py:85-86 | the recording file name; `Session.FileNamesDistinct` and `Session.Toggle` are about it |
| Session.FileNamesDistinct | main.py:72-92 | a snapshot never takes a recording's file name; different timestamps give different file names of each kind |
| Session.CountCaption | main.py:142-152 | the count caption is "Objects: " and digits that read back as the count, at (10, 60) in the FPS colour |
| Session.Toggle | main.py:81-98 | without a writer, opens one on the timestamped recording file at the configured rate, sized to the frame, with no frames; with one, closes it and clears the field |
| Session.ToggleTwice | main.py:81-98 | two toggles from idle return to idle, having finished one empty recording |
| Session.ObjectDetectionSystem.ToggleRecording | main.py:81-98 | the writer and the effects change as `Toggle` says |
| Session.ObjectDetectionSystem.SaveFrame | main.py:72-79 | saves the frame under the timestamped snapshot name; nothing else changes |
| Session.ObjectDetectionSystem.ShowDetectionInfo | main.py:100-112 | adds one report of the current detections |
| Session.Overlays | main.py:138-152 | the FPS caption when enabled, then the count; `Session.ShippedOverlays` and `Session.OverlaysNoCircle` are about it |
| Session.Compose | main.py:135-152 | detection, counter update and captions of one tick; `Session.ComposeByDrawing`, `Session.ComposeDrawOrder` and `Session.TickDrawOrder` are about it, and `Session.ObjectDetectionSystem.Annotate` is proved equal to it |
| Session.ComposeByDrawing | main.py:135-152 | composing is detection, then the FPS caption drawn with the updated rate when enabled, then the count caption |
| Session.OverlaysNoCircle | main.py:135-152 | neither the annotation nor the captions draw a circle |
| Session.Indicator | main.py:157-158 | the filled red dot 30 pixels in from the top right; `Session.TickDrawOrder` places it last on the shown frame |
| Session.Recorded | main.py:154-158 | the frame written while recording, then the indicator; `Session.TickDrawOrder` and `Session.TickKeepsInvariants` are about it |
| Session.Dispatched | main.py:160-174 | the key handling after display; `Session.KeyDispatch` states each command's effects and state |
| Session.TickStep | main.py:125-174 | one loop pass; `Session.ReadFailureReconnects`, `Session.KeyDispatch`, `Session.TickDrawOrder`, `Session.TickKeepsInvariants`, `Session.TickKeepsHandle` and `Session.TickKeepsRunning` are about it, and `Session.ObjectDetectionSystem.Step` is proved equal to it |
| Session.Loop | main.py:123-183 | the loop from a state over the rest of the ticks; `Session.LoopEndsWithCleanup`, `Session.LoopReleasesCamera`, `Session.LoopRecordsCleanly`, `Session.ReadFailureReconnects` and `Session.RecordingGrowsByOnePerTick` are about it |
| Session.CleanedUp | main.py:185-193 | `cleanup` as a value; `Session.CleanupEnds` and `Session.CleanupReleases` are about it, and `Session.ObjectDetectionSystem.Cleanup` is proved equal to it |
| Common.Decimal | main.py:143 | `str(n)` of a count; `Common.Decimal`'s own contract gives at least one digit, digits only and no leading zero, and `Common.DecimalRoundTrip` reads it back |
| Session.TickDrawOrder | main.py:135-161 | the frame of a tick carries the annotation, then the FPS caption when enabled, then the count; the written frame has no indicator; the shown frame adds the indicator after these while recording |
| Session.ComposeDrawOrder | main.py:135-152 | composing on a fresh frame draws the annotation, then the overlays, and no circle |
| Session.KeyDispatch | main.py:160-174 | the frame is shown first; quit stops with `UserQuit`; save, info and toggle each add exactly their own action after it (the toggle's effects are exactly `Toggle`'s); other keys add nothing; the camera, `is_running` and the composed FPS counter are the only other state, unchanged by the key |
| Session.ToggleOnStartsEmpty | main.py:171-172 | starting a recording with 'r' shows the frame and nothing else, and opens an empty writer at the recording path with the frame's shape |
| Session.ToggleOffWritesLastFrame | main.py:154-172 | stopping a recording with 'r' writes that tick's frame before the writer is released |
| Session.TickKeepsHandle | main.py:126-133 | a tick never takes away a device handle the handler already has |
| Session.ShippedOverlays | config.py:25-34 | with the shipped configuration, the FPS caption and then the count are drawn, both in the yellow FPS colour |
| Session.TickKeepsRunning | main.py:124-174 | no tick changes `is_running` |
| Session.TickKeepsInvariants | main.py:124-174 | a tick keeps the camera consistent, keeps the writer's frames free of the indicator, and finishes only such recordings |
| Session.ObjectDetectionSystem.constructor | main.py:21-44 | one camera open attempt, a detector with a fresh counter, no writer, not running |
| Session.ObjectDetectionSystem.Annotate | main.py:135-152 | detection, FPS caption when enabled, and count caption, with the result `Compose` gives; when the annotation is on a copy, the captured frame is left as it was |
| Session.ObjectDetectionSystem.Present | main.py:154-174 | write while recording, then the indicator drawn in place into the annotated frame, display and the key command, as `Recorded` and `Dispatched` give; the annotated buffer ends as the shown frame |
| Session.ObjectDetectionSystem.Step | main.py:125-174 | one loop pass changes the fields and effects as `TickStep` says |
| Session.ReadFailureReconnects | main.py:126-133 | a failed read costs one reconnect: failure stops the loop through cleanup with `ReconnectFailed`; success skips to the next tick from the reconnected camera |
| Session.ReconnectThenRead | main.py:126-133 | after a successful reconnect, a read that grabs a frame succeeds |
| Session.LoopEndsWithCleanup | main.py:123-183 | every way out of the loop ends with cleanup's effects, and `is_running` stays set |
| Session.LoopReleasesCamera | main.py:123-183 | a loop that starts with a consistent camera ends with the camera consistent and not believed open, any handle it holds closed, and a handle present at the start still present |
| Session.LoopRecordsCleanly | main.py:154-158 | no recording finished during the loop, and no frame left in the writer, carries the indicator |
| Session.RecordingGrowsByOnePerTick | main.py:154-156 | while recording with no command keys, each tick that reads a frame writes exactly one frame; on interrupt, cleanup finishes that same recording |
| Session.CleanupEnds | main.py:185-193 | cleanup's effects end with the camera release and window teardown, after the writer release when recording |
| Session.CleanupReleases | main.py:185-193 | cleanup leaves a consistent camera released |
| Session.ObjectDetectionSystem.Cleanup | main.py:185-193 | the fields and effects change as `CleanedUp` says |
| Session.RunOutcome | main.py:114-183 | an unavailable camera means no loop, no cleanup and no change to `is_running`; otherwise `is_running` is set and the run ends with cleanup |
| Session.RunReleasesAndRecordsCleanly | main.py:114-193 | a run from a consistent, idle state that enters the loop ends with the device handle present and closed and the camera not believed open, and no finished recording carries the indicator |
| Session.ConstructedConsistent | camera_handler.py:24-75 | a freshly constructed camera handler is consistent, as the run lemmas require of their start |
| Session.ObjectDetectionSystem.Run | main.py:114-183 | the while loop, its breaks and the final cleanup change the fields and effects as `RunOutcome` says, with the same exit |
| Common.DecimalRoundTrip | main.py:143 | the decimal digits of a count read back as the count |

## Left out

- Pixels: drawing calls are recorded as a list, and the pixels they produce are not computed.
- Model loading and inference: YOLO loading, its fallback download, and the GPU message are not modelled. Inference is an oracle returning boxes or raising. The detector is given whether it has a model and its name table.
- Inference thresholds: the confidence and IoU thresholds passed to the model are not modelled. The model's own filtering is part of the oracle.
- Device I/O: OpenCV capture is an oracle, and so are the property writes and reads during initialisation. The one-second pause inside `reconnect` has no observable effect here.
- File and window output: `imwrite`, `VideoWriter.write`, `imshow`, `destroyAllWindows` and `Config.create_directories` are effects in a list. Nothing is written to disk or shown.
- The clock and the date: `time.time()` and `datetime.now().strftime` are parameters.
- Float formatting: `{:.2f}`, `{:.1f}` and `{:.2%}` are not computed. The first two are given functions in `Settings.Rendering`.
- `cv2.getTextSize` is a given function.
- Printing: all printing is left out. This covers `_display_system_info`, the console report of `_show_detection_info`, the progress and error messages, argument parsing and `main`. `_show_detection_info` is modelled as a single effect carrying its detection list.
- Detector.ObjectDetector.constructor: takes the model path as given; the fallback `model_path or config.MODEL_PATH` to the configured default path is not modelled.
- Session.ObjectDetectionSystem.constructor: the console banner and `get_camera_info` output are not modelled.
- Exceptions: the KeyboardInterrupt is modelled as the end of the tick script. Any other exception from the loop body is one `Fault` tick, so where inside a tick it was raised is not modelled. An exception raised by inference is covered separately, by `Inference` and `Detect`, since the code catches it there.
- Capture handles: each `cv2.VideoCapture` call opens a fresh handle. The model keeps only whether the current handle reports open. The probe handles of `list_available_cameras` are given by their open outcome alone.
- Camera.ReadResult: the pixels and shape of a grabbed frame come from the oracle. No check ties them to the negotiated resolution.
- Session.RecordingGrowsByOnePerTick: covers runs ended by interrupt with no command key pressed. A run with toggles is covered tick by tick by `KeyDispatch` and `ToggleOffWritesLastFrame` rather than by one lemma over the whole scenario.
