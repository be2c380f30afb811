/** The detector's bookkeeping around the model: detection records built from
    the model's boxes, the annotation drawn for them, and the once-per-window
    FPS counter. The model's inference is an oracle that either returns results
    (each a sequence of boxes) or raises. */
module Detector {
  import opened Common
  import opened Canvas
  import opened Settings

  /** One box as the model reports it: corners, confidence and class, all floats. */
  datatype RawBox = RawBox(x1: real, y1: real, x2: real, y2: real, conf: real, cls: real)

  /** What one call of the model gives: its results, or an exception. */
  datatype Inference = Results(results: seq<seq<RawBox>>) | InferenceRaised

  datatype Bbox = Bbox(x1: int, y1: int, x2: int, y2: int)

  /** The dictionary built per box: integer bbox, confidence, class id and name. */
  datatype Detection = Detection(bbox: Bbox, confidence: real, classId: int, className: string)

  /** What `detect_objects` returns: the (annotated) frame and the records. */
  datatype Detected = Detected(frame: Picture, detections: seq<Detection>)

  function ClassIdOf(b: RawBox): int
  {
    Truncate(b.cls)
  }

  function Record(b: RawBox, className: string): Detection
  {
    Detection(Bbox(Truncate(b.x1), Truncate(b.y1), Truncate(b.x2), Truncate(b.y2)), b.conf, ClassIdOf(b), className)
  }

  /** The boxes of all results, in the order the two nested loops visit them. */
  function Boxes(results: seq<seq<RawBox>>): seq<RawBox>
  {
    if results == [] then [] else Boxes(results[..|results| - 1]) + results[|results| - 1]
  }

  lemma {:induction false} BoxesAppend(a: seq<seq<RawBox>>, b: seq<seq<RawBox>>)
    ensures Boxes(a + b) == Boxes(a) + Boxes(b)
  {
    if b == [] {
      assert a + b == a;
    } else {
      var c := a + b;
      assert c[..|c| - 1] == a + b[..|b| - 1];
      assert c[|c| - 1] == b[|b| - 1];
      BoxesAppend(a, b[..|b| - 1]);
    }
  }

  /** Every box's class id is a key of the model's name table. */
  predicate Known(boxes: seq<RawBox>, names: map<int, string>)
  {
    forall k :: 0 <= k < |boxes| ==> ClassIdOf(boxes[k]) in names
  }

  /** One record per box, in order. */
  function Records(boxes: seq<RawBox>, names: map<int, string>): seq<Detection>
    requires Known(boxes, names)
  {
    seq(|boxes|, k requires 0 <= k < |boxes| => Record(boxes[k], names[ClassIdOf(boxes[k])]))
  }

  /** The label drawn for a detection. */
  function Label(d: Detection, cfg: Config, render: Rendering): (s: string)
    ensures |s| >= |d.className| && s[..|d.className|] == d.className
    ensures !cfg.showConfidence ==> s == d.className
    ensures cfg.showConfidence ==> s[|d.className|..] == ": " + render.fixed2(d.confidence)
  {
    if cfg.showConfidence then d.className + ": " + render.fixed2(d.confidence) else d.className
  }

  /** Where a label goes: its filled background from `top` to `bottom`, and the
      text origin (the left end of the text's baseline). */
  datatype LabelBox = LabelBox(top: Point, bottom: Point, origin: Point)

  /** The label background sits on the box's top edge, as wide as the text and
      as tall as text height plus baseline plus 5 pixels of padding; the text
      origin is `height` below the background's top. Nothing is clipped to the frame. */
  function LabelPlacement(x1: int, y1: int, size: TextSize): (p: LabelBox)
    ensures p.top.x == x1 && p.origin.x == x1 && p.bottom == Point(x1 + size.width, y1)
    ensures p.bottom.y - p.top.y == size.height + size.baseline + 5
    ensures p.origin.y == p.top.y + size.height
    ensures size.height >= 0 && size.baseline >= -5 ==> p.top.y <= p.origin.y <= p.bottom.y
  {
    LabelBox(Point(x1, y1 - size.height - size.baseline - 5), Point(x1 + size.width, y1), Point(x1, y1 - size.baseline - 5))
  }

  /** A box whose top edge is closer to the frame's top than the label is tall
      gets a label background that starts above the frame. */
  lemma LabelBackgroundNotClipped(x1: int, y1: int, size: TextSize)
    requires 0 <= y1 < size.height + size.baseline + 5
    ensures LabelPlacement(x1, y1, size).top.y < 0
  {
  }

  /** The three drawing calls for one detection: box outline, label background, label text. */
  function DetectionMarks(d: Detection, cfg: Config, render: Rendering): seq<Mark>
  {
    var caption := Label(d, cfg, render);
    var place := LabelPlacement(d.bbox.x1, d.bbox.y1, render.textSize(caption));
    [ Rectangle(Point(d.bbox.x1, d.bbox.y1), Point(d.bbox.x2, d.bbox.y2), cfg.boxColor, cfg.boxThickness),
      Rectangle(place.top, place.bottom, cfg.textBgColor, -1),
      Text(caption, place.origin, cfg.textColor) ]
  }

  /** The drawing calls of `_draw_annotations`, detection by detection. */
  function AnnotationMarks(dets: seq<Detection>, cfg: Config, render: Rendering): seq<Mark>
  {
    if dets == [] then []
    else AnnotationMarks(dets[..|dets| - 1], cfg, render) + DetectionMarks(dets[|dets| - 1], cfg, render)
  }

  /** Three drawing calls per detection, and the k-th triple is detection k's. */
  lemma {:induction false} AnnotationMarksAt(dets: seq<Detection>, cfg: Config, render: Rendering, k: nat)
    requires k < |dets|
    ensures |AnnotationMarks(dets, cfg, render)| == 3 * |dets|
    ensures AnnotationMarks(dets, cfg, render)[3 * k .. 3 * k + 3] == DetectionMarks(dets[k], cfg, render)
  {
    var init := dets[..|dets| - 1];
    if k < |dets| - 1 {
      AnnotationMarksAt(init, cfg, render, k);
      assert init[k] == dets[k];
    } else if |dets| > 1 {
      AnnotationMarksAt(init, cfg, render, 0);
    }
  }

  /** No circle is among the annotation's drawing calls. */
  lemma {:induction false} AnnotationHasNoCircle(dets: seq<Detection>, cfg: Config, render: Rendering)
    ensures forall k :: 0 <= k < |AnnotationMarks(dets, cfg, render)| ==> !IsCircle(AnnotationMarks(dets, cfg, render)[k])
  {
    if dets != [] {
      AnnotationHasNoCircle(dets[..|dets| - 1], cfg, render);
    }
  }

  /** `detect_objects`: with no model, when inference raises, or when a class id
      is not in the name table (the KeyError is caught), the input frame comes
      back unchanged with no records. Otherwise there is one record per box in
      iteration order, and the frame comes back with the annotation drawn on it. */
  function Detect(hasModel: bool, names: map<int, string>, frame: Picture, inf: Inference, cfg: Config, render: Rendering): (r: Detected)
    ensures !hasModel || inf.InferenceRaised? ==> r == Detected(frame, [])
    ensures hasModel && inf.Results? && !Known(Boxes(inf.results), names) ==> r == Detected(frame, [])
    ensures hasModel && inf.Results? && Known(Boxes(inf.results), names) ==>
      |r.detections| == |Boxes(inf.results)|
      && (forall k :: 0 <= k < |r.detections| ==>
            r.detections[k].classId == ClassIdOf(Boxes(inf.results)[k])
            && r.detections[k].className == names[ClassIdOf(Boxes(inf.results)[k])]
            && r.detections[k].bbox.x1 == Truncate(Boxes(inf.results)[k].x1)
            && r.detections[k].bbox.y1 == Truncate(Boxes(inf.results)[k].y1)
            && r.detections[k].bbox.x2 == Truncate(Boxes(inf.results)[k].x2)
            && r.detections[k].bbox.y2 == Truncate(Boxes(inf.results)[k].y2)
            && r.detections[k].confidence == Boxes(inf.results)[k].conf)
      && r.frame == frame.(marks := frame.marks + AnnotationMarks(r.detections, cfg, render))
    ensures r.frame.pixels == frame.pixels && r.frame.width == frame.width && r.frame.height == frame.height
    ensures |r.frame.marks| == |frame.marks| + 3 * |r.detections| && r.frame.marks[..|frame.marks|] == frame.marks
  {
    if !hasModel then Detected(frame, [])
    else match inf
      case InferenceRaised => Detected(frame, [])
      case Results(rs) =>
        if !Known(Boxes(rs), names) then Detected(frame, [])
        else
          var ds := Records(Boxes(rs), names);
          AnnotationLength(ds, cfg, render);
          Detected(frame.(marks := frame.marks + AnnotationMarks(ds, cfg, render)), ds)
  }

  /** The length clause of `AnnotationMarksAt` without an index, so that `Detect`
      can use it on an empty list too. */
  lemma AnnotationLength(dets: seq<Detection>, cfg: Config, render: Rendering)
    ensures |AnnotationMarks(dets, cfg, render)| == 3 * |dets|
  {
    if dets != [] {
      AnnotationMarksAt(dets, cfg, render, 0);
    }
  }

  /** The counter's fields `frame_count`, `fps` and `start_time` (seconds). */
  datatype FpsMeter = FpsMeter(frameCount: int, fps: real, startTime: real)

  /** `calculate_fps`, given the two clock readings it takes: `now` for the
      elapsed time and `later` for the new window start. Every call counts one
      frame; only a call more than one second into the window changes the rate,
      which is then the frames counted over the time elapsed. */
  function FpsUpdated(m: FpsMeter, now: real, later: real): (r: FpsMeter)
    ensures now - m.startTime <= 1.0 ==> r == m.(frameCount := m.frameCount + 1)
    ensures now - m.startTime > 1.0 ==>
      r.frameCount == 0 && r.startTime == later && r.fps * (now - m.startTime) == (m.frameCount + 1) as real
    ensures now - m.startTime > 1.0 && m.frameCount >= 0 ==> 0.0 < r.fps < (m.frameCount + 1) as real
  {
    var count := m.frameCount + 1;
    var elapsed := now - m.startTime;
    if elapsed > 1.0 then
      var fps := count as real / elapsed;
      RateBelowCount(count, elapsed);
      FpsMeter(0, fps, later)
    else
      m.(frameCount := count)
  }

  lemma RateBelowCount(count: int, elapsed: real)
    requires elapsed > 1.0
    ensures count > 0 ==> 0.0 < count as real / elapsed < count as real
  {
    if count > 0 {
      var q := count as real / elapsed;
      assert q * elapsed == count as real;
      assert q > 0.0;
      assert q * elapsed > q * 1.0;
    }
  }

  /** The two clock readings of one `calculate_fps` call. */
  datatype Clock = Clock(now: real, later: real)

  /** A run of `calculate_fps` calls. */
  function FpsUpdates(m: FpsMeter, clocks: seq<Clock>): FpsMeter
    decreases |clocks|
  {
    if clocks == [] then m else FpsUpdates(FpsUpdated(m, clocks[0].now, clocks[0].later), clocks[1..])
  }

  /** Within one measurement window the rate does not change however often it
      is asked for: the calls are only counted. */
  lemma {:induction false} FpsStableWithinWindow(m: FpsMeter, clocks: seq<Clock>)
    requires forall k :: 0 <= k < |clocks| ==> clocks[k].now - m.startTime <= 1.0
    ensures FpsUpdates(m, clocks) == m.(frameCount := m.frameCount + |clocks|)
    decreases |clocks|
  {
    if clocks != [] {
      var next := FpsUpdated(m, clocks[0].now, clocks[0].later);
      assert next == m.(frameCount := m.frameCount + 1);
      forall k | 0 <= k < |clocks[1..]|
        ensures clocks[1..][k].now - next.startTime <= 1.0
      {
        assert clocks[1..][k] == clocks[k + 1];
      }
      FpsStableWithinWindow(next, clocks[1..]);
    }
  }

  /** The text `draw_fps` puts at (10, 30). */
  function FpsCaption(fps: real, cfg: Config, render: Rendering): (m: Mark)
    ensures m.Text? && m.origin == Point(10, 30) && m.color == cfg.fpsColor
    ensures m.text == "FPS: " + render.fixed1(fps)
  {
    Text("FPS: " + render.fixed1(fps), Point(10, 30), cfg.fpsColor)
  }

  /** The dictionary `get_model_info` returns. */
  datatype ModelInfo = ModelInfo(modelPath: string, numClasses: nat, classNames: map<int, string>, confidenceThreshold: real)

  class ObjectDetector {
    const modelPath: string
    const hasModel: bool
    const classNames: map<int, string>
    var fps: real
    var frameCount: int
    var startTime: real

    function Meter(): FpsMeter
      reads this
    {
      FpsMeter(frameCount, fps, startTime)
    }

    /** Loading the model is not modelled: whether there is one and its name
        table are given. `now` is the clock reading taken at construction. */
    constructor (modelPath: string, hasModel: bool, classNames: map<int, string>, now: real)
      ensures this.modelPath == modelPath && this.hasModel == hasModel && this.classNames == classNames
      ensures Meter() == FpsMeter(0, 0.0, now)
    {
      this.modelPath, this.hasModel, this.classNames := modelPath, hasModel, classNames;
      fps, frameCount, startTime := 0.0, 0, now;
    }

    /** `get_model_info`: a pure read of the detector. */
    function GetModelInfo(cfg: Config): (info: ModelInfo)
      ensures info.numClasses == |info.classNames| && info.classNames == classNames
      ensures info.modelPath == modelPath && info.confidenceThreshold == cfg.confidenceThreshold
    {
      ModelInfo(modelPath, |classNames|, classNames, cfg.confidenceThreshold)
    }

    method DetectObjects(frame: Image, inf: Inference, cfg: Config, render: Rendering)
      returns (annotated: Image, detections: seq<Detection>)
      ensures unchanged(frame)
      ensures annotated == frame || fresh(annotated)
      ensures Detected(annotated.Value(), detections) == Detect(hasModel, classNames, frame.Value(), inf, cfg, render)
    {
      if !hasModel {
        return frame, [];
      }
      if inf.InferenceRaised? {
        return frame, [];
      }
      var results := inf.results;
      ghost var seen: seq<RawBox> := [];
      detections := [];
      var i := 0;
      while i < |results|
        invariant 0 <= i <= |results|
        invariant seen == Boxes(results[..i])
        invariant Known(seen, classNames) && detections == Records(seen, classNames)
      {
        var boxes := results[i];
        var j := 0;
        while j < |boxes|
          invariant 0 <= j <= |boxes|
          invariant Known(seen + boxes[..j], classNames)
          invariant detections == Records(seen + boxes[..j], classNames)
        {
          var box := boxes[j];
          var classId := Truncate(box.cls);
          if classId !in classNames {
            UnknownClass(results, i, j);
            return frame, [];
          }
          assert seen + boxes[..j + 1] == (seen + boxes[..j]) + [box];
          detections := detections + [Record(box, classNames[classId])];
          j := j + 1;
        }
        assert boxes[..j] == boxes;
        assert results[..i + 1] == results[..i] + [boxes];
        seen := seen + boxes;
        i := i + 1;
      }
      assert results[..i] == results;
      annotated := frame.Copy();
      DrawAnnotations(annotated, detections, cfg, render);
    }

    /** The KeyError for box j of result i means some box has an unknown class. */
    lemma UnknownClass(results: seq<seq<RawBox>>, i: nat, j: nat)
      requires i < |results| && j < |results[i]|
      requires ClassIdOf(results[i][j]) !in classNames
      ensures !Known(Boxes(results), classNames)
    {
      var pre, rest := results[..i], results[i + 1..];
      assert results == pre + [results[i]] + rest;
      BoxesAppend(pre + [results[i]], rest);
      BoxesAppend(pre, [results[i]]);
      assert Boxes([results[i]]) == results[i];
      var all := Boxes(results);
      assert all[|Boxes(pre)| + j] == results[i][j];
    }

    /** `_draw_annotations`: draws onto the given frame in place, one detection at a time. */
    method DrawAnnotations(frame: Image, dets: seq<Detection>, cfg: Config, render: Rendering)
      modifies frame
      ensures frame.Value() == old(frame.Value()).(marks := old(frame.marks) + AnnotationMarks(dets, cfg, render))
    {
      var k := 0;
      while k < |dets|
        invariant 0 <= k <= |dets|
        invariant frame.Value() == old(frame.Value()).(marks := old(frame.marks) + AnnotationMarks(dets[..k], cfg, render))
      {
        var det := dets[k];
        var caption := Label(det, cfg, render);
        var size := render.textSize(caption);
        frame.Draw(Rectangle(Point(det.bbox.x1, det.bbox.y1), Point(det.bbox.x2, det.bbox.y2), cfg.boxColor, cfg.boxThickness));
        var place := LabelPlacement(det.bbox.x1, det.bbox.y1, size);
        frame.Draw(Rectangle(place.top, place.bottom, cfg.textBgColor, -1));
        frame.Draw(Text(caption, place.origin, cfg.textColor));
        assert dets[..k + 1][..k] == dets[..k];
        k := k + 1;
      }
      assert dets[..k] == dets;
    }

    method CalculateFps(now: real, later: real) returns (rate: real)
      modifies this
      ensures Meter() == FpsUpdated(old(Meter()), now, later)
      ensures rate == fps
    {
      frameCount := frameCount + 1;
      var elapsed := now - startTime;
      if elapsed > 1.0 {
        fps := frameCount as real / elapsed;
        frameCount := 0;
        startTime := later;
      }
      rate := fps;
    }

    /** `draw_fps`: exactly one counter update, then the caption. */
    method DrawFps(frame: Image, now: real, later: real, cfg: Config, render: Rendering)
      modifies this, frame
      ensures Meter() == FpsUpdated(old(Meter()), now, later)
      ensures frame.Value() == old(frame.Value()).Draw(FpsCaption(fps, cfg, render))
    {
      var rate := CalculateFps(now, later);
      frame.Draw(Text("FPS: " + render.fixed1(rate), Point(10, 30), cfg.fpsColor));
    }
  }
}
