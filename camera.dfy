/** The camera handler: a device handle (`cap`) and the handler's own belief
    that it is open (`is_opened`), changed by opening, releasing and
    reconnecting. The device is an oracle: each operation that would call
    OpenCV takes the outcome of that call as a parameter. */
module Camera {
  import opened Common
  import opened Canvas

  /** A cv2.VideoCapture handle; `reportsOpen` is what its isOpened() answers.
      Only opening and release change it. */
  datatype Capture = Capture(reportsOpen: bool)

  /** The handler's fields `cap` (None until the first construction of a
      capture succeeds) and `is_opened`. */
  datatype CamState = CamState(cap: Option<Capture>, isOpened: bool)

  const Unopened := CamState(None, false)

  /** How one attempt to open the device ends: opened and configured; the
      constructed capture does not report open; the VideoCapture constructor
      raised; or setting or reading the properties of an open capture raised. */
  datatype OpenOutcome = Opened | Refused | ConstructRaised | ConfigureRaised

  /** How one cap.read() ends; a grabbed frame is its pixels and its shape. */
  datatype ReadOutcome = Grabbed(pixels: int, width: int, height: int) | NotGrabbed | ReadRaised

  /** A frame as captured: nothing is drawn on it yet. */
  function Captured(o: ReadOutcome): Picture
    requires o.Grabbed?
  {
    Picture(o.pixels, o.width, o.height, [])
  }

  /** The new state and the boolean `_initialize_camera` returns. */
  datatype Opening = Opening(state: CamState, ok: bool)

  /** The pair `read_frame` returns. */
  datatype Reading = Reading(ok: bool, frame: Option<Picture>)

  /** What cap.get reports for width, height and fps (floats), and the backend name. */
  datatype DeviceProps = DeviceProps(width: real, height: real, fps: real, backend: string)

  /** The dictionary `get_camera_info` returns when the camera is open. */
  datatype CameraInfo = CameraInfo(cameraId: int, width: int, height: int, fps: int, backend: string)

  /** The handler never believes a device open whose handle is closed. */
  predicate Consistent(s: CamState)
  {
    s.isOpened ==> s.cap.Some? && s.cap.value.reportsOpen
  }

  /** `_initialize_camera`: only a full success sets `is_opened`; a refused open
      leaves it alone; an exception clears it. */
  function Initialized(s: CamState, o: OpenOutcome): (r: Opening)
    ensures r.ok <==> o == Opened
    ensures r.state.isOpened <==> r.ok || (o == Refused && s.isOpened)
    ensures o == ConstructRaised ==> r.state.cap == s.cap
    ensures o != ConstructRaised ==> r.state.cap == Some(Capture(o != Refused))
  {
    match o
    case Opened => Opening(CamState(Some(Capture(true)), true), true)
    case Refused => Opening(CamState(Some(Capture(false)), s.isOpened), false)
    case ConstructRaised => Opening(CamState(s.cap, false), false)
    case ConfigureRaised => Opening(CamState(Some(Capture(true)), false), false)
  }

  /** `read_frame`: without an open handle the device is not asked, and the
      answer is (False, None) whatever it would have said. */
  function ReadResult(s: CamState, o: ReadOutcome): (r: Reading)
    ensures r.ok <==> r.frame.Some?
    ensures r.ok <==> s.isOpened && s.cap.Some? && o.Grabbed?
    ensures r.ok ==> r.frame.value == Captured(o) && r.frame.value.marks == []
    ensures !(s.isOpened && s.cap.Some?) ==> r == Reading(false, None)
  {
    if !s.isOpened || s.cap.None? then Reading(false, None)
    else match o
      case Grabbed(_, _, _) => Reading(true, Some(Captured(o)))
      case NotGrabbed => Reading(false, None)
      case ReadRaised => Reading(false, None)
  }

  /** `release`: a no-op without a handle; otherwise the handle is closed and
      kept, and the handler no longer believes it open. */
  function Released(s: CamState): (r: CamState)
    ensures s.cap.None? ==> r == s
    ensures s.cap.Some? ==> r.cap.Some? && !r.cap.value.reportsOpen && !r.isOpened
  {
    if s.cap.None? then s else CamState(Some(Capture(false)), false)
  }

  /** `reconnect`: release, then one initialisation attempt. */
  function Reconnected(s: CamState, o: OpenOutcome): (r: Opening)
    ensures r == Initialized(Released(s), o)
    ensures r.ok <==> o == Opened
  {
    Initialized(Released(s), o)
  }

  /** `is_available`: the handler believes it open, has a handle, and the
      handle reports open. */
  predicate Available(s: CamState)
  {
    s.isOpened && s.cap.Some? && s.cap.value.reportsOpen
  }

  /** `get_camera_info`: nothing unless the camera is open; the properties are
      truncated to integers as int() does. */
  function Info(s: CamState, cameraId: int, props: DeviceProps): (r: Option<CameraInfo>)
    ensures r.None? <==> !s.isOpened || s.cap.None?
    ensures r.Some? ==> r.value.cameraId == cameraId && r.value.backend == props.backend
    ensures r.Some? ==> r.value.width == Truncate(props.width) && r.value.height == Truncate(props.height)
    ensures r.Some? ==> r.value.fps == Truncate(props.fps)
  {
    if !s.isOpened || s.cap.None? then None
    else Some(CameraInfo(cameraId, Truncate(props.width), Truncate(props.height), Truncate(props.fps), props.backend))
  }

  /** Every way the handler's state changes keeps it consistent, given that
      initialisation only ever runs on a handler that does not believe itself
      open (at construction and after the release inside `reconnect`). */
  lemma ConsistencyPreserved(s: CamState, o: OpenOutcome)
    requires Consistent(s)
    ensures Consistent(Released(s)) && !Released(s).isOpened
    ensures Consistent(Reconnected(s, o).state)
    ensures !s.isOpened ==> Consistent(Initialized(s, o).state)
  {
  }

  /** For a consistent handler `is_available` is just `is_opened`. */
  lemma AvailableIsOpened(s: CamState)
    requires Consistent(s)
    ensures Available(s) <==> s.isOpened
  {
  }

  /** Releasing twice is the same as releasing once. */
  lemma ReleaseIdempotent(s: CamState)
    ensures Released(Released(s)) == Released(s)
  {
  }

  /** A reconnect after a manual release succeeds exactly when the device opens,
      and ends in the same state as a plain reconnect. */
  lemma ReconnectAfterRelease(s: CamState, o: OpenOutcome)
    ensures Reconnected(Released(s), o) == Reconnected(s, o)
    ensures Reconnected(Released(s), o).ok <==> o == Opened
  {
  }

  class CameraHandler {
    const cameraId: int
    var cap: Option<Capture>
    var isOpened: bool

    function State(): CamState
      reads this
    {
      CamState(cap, isOpened)
    }

    /** The handler starts without a handle and tries to open the device once. */
    constructor (cameraId: int, o: OpenOutcome)
      ensures this.cameraId == cameraId
      ensures State() == Initialized(Unopened, o).state
    {
      this.cameraId := cameraId;
      cap, isOpened := None, false;
      new;
      var ok := InitializeCamera(o);
    }

    method InitializeCamera(o: OpenOutcome) returns (ok: bool)
      modifies this
      ensures Opening(State(), ok) == Initialized(old(State()), o)
    {
      if o == ConstructRaised {
        isOpened := false;
        return false;
      }
      cap := Some(Capture(o != Refused));
      if o == Refused {
        return false;
      }
      if o == ConfigureRaised {
        isOpened := false;
        return false;
      }
      isOpened := true;
      ok := true;
    }

    method ReadFrame(o: ReadOutcome) returns (ok: bool, frame: Image?)
      ensures frame != null ==> fresh(frame)
      ensures Reading(ok, if frame == null then None else Some(frame.Value())) == ReadResult(State(), o)
    {
      if !isOpened || cap.None? {
        return false, null;
      }
      match o
      case Grabbed(_, _, _) =>
        frame := new Image(Captured(o));
        ok := true;
      case NotGrabbed =>
        ok, frame := false, null;
      case ReadRaised =>
        ok, frame := false, null;
    }

    method Release()
      modifies this
      ensures State() == Released(old(State()))
    {
      if cap.Some? {
        cap := Some(cap.value.(reportsOpen := false));
        isOpened := false;
      }
    }

    method Reconnect(o: OpenOutcome) returns (ok: bool)
      modifies this
      ensures Opening(State(), ok) == Reconnected(old(State()), o)
    {
      Release();
      ok := InitializeCamera(o);
    }
  }

  /** The default probe bound of `list_available_cameras`. */
  const DefaultMaxCameras := 5

  /** The indices in [0, n) that open, ascending. */
  function OpenIndices(n: int, opens: int -> bool): seq<int>
    decreases n
  {
    if n <= 0 then [] else OpenIndices(n - 1, opens) + (if opens(n - 1) then [n - 1] else [])
  }

  lemma {:induction false} OpenIndicesSpec(n: int, opens: int -> bool)
    ensures forall i :: i in OpenIndices(n, opens) <==> 0 <= i < n && opens(i)
    ensures forall j, k :: 0 <= j < k < |OpenIndices(n, opens)| ==> OpenIndices(n, opens)[j] < OpenIndices(n, opens)[k]
  {
    if n > 0 {
      OpenIndicesSpec(n - 1, opens);
      var prev := OpenIndices(n - 1, opens);
      forall k | 0 <= k < |prev|
        ensures prev[k] < n - 1
      {
        assert prev[k] in prev;
      }
    }
  }

  /** `list_available_cameras`: probe 0 .. maxCameras-1 in order, keep the ones that open. */
  method ListAvailableCameras(maxCameras: int, opens: int -> bool) returns (ids: seq<int>)
    ensures ids == OpenIndices(maxCameras, opens)
    ensures forall i :: i in ids <==> 0 <= i < maxCameras && opens(i)
    ensures forall j, k :: 0 <= j < k < |ids| ==> ids[j] < ids[k]
  {
    ids := [];
    var i := 0;
    while i < maxCameras
      invariant 0 <= i <= if maxCameras < 0 then 0 else maxCameras
      invariant ids == OpenIndices(i, opens)
    {
      if opens(i) {
        ids := ids + [i];
      }
      i := i + 1;
    }
    OpenIndicesSpec(maxCameras, opens);
  }

  /** With devices 0 and 2 openable and 1 not, the default probe finds [0, 2]. */
  lemma ListingExample()
    ensures OpenIndices(DefaultMaxCameras, i => i == 0 || i == 2) == [0, 2]
  {
    var opens := i => i == 0 || i == 2;
    assert OpenIndices(1, opens) == [0];
    assert OpenIndices(2, opens) == [0];
    assert OpenIndices(3, opens) == [0, 2];
    assert OpenIndices(4, opens) == [0, 2];
  }
}
