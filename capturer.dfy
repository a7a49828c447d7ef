/** The capture controller: lifecycle and open-retry state machine, the post
    guard of the camera thread, the pool of preview buffers and the frame
    delivery gate. Everything here runs on the one camera thread, so the
    capturer is a single-threaded object whose methods are the code's
    entry points and camera-thread tasks. */
module Capture {
  import opened Wrappers
  import opened JavaArith
  import Orientation
  import Zoom
  import Decimation
  import OpenRetry

  /** Depth of the preview buffer queue. */
  const NumberOfCaptureBuffers: nat := 3

  /** A request for a capture format, as passed to `startCapture` and
      `changeCaptureFormat`. */
  datatype Request = Request(width: int, height: int, framerate: int)

  datatype FramerateRange = FramerateRange(min: int, max: int)

  /** A format the camera supports, chosen as the closest to a request. */
  datatype CaptureFormat = CaptureFormat(width: nat, height: nat, framerate: FramerateRange)

  /** Bytes of one NV21 preview frame (12 bits per pixel). */
  function FrameSize(f: CaptureFormat): nat
  {
    f.width * f.height * 12 / 8
  }

  /** `Camera.CameraInfo` of the camera opened last. */
  datatype CameraInfo = CameraInfo(facing: Orientation.Facing, orientation: int)

  /** What `Camera.open` followed by `getCameraInfo` does, taken as one
      step: a failure of either leaves no camera open. */
  datatype OpenOutcome =
    | OpenFailed
    | Opened(facing: Orientation.Facing, sensorOrientation: int, maxZoom: int)

  /** What the driver and the camera thread's handler do while one task
      runs: the result of opening the camera, whether configuring and
      starting the preview succeeds, the format closest to the request, and
      whether the handler accepts a posted task. */
  datatype Outcomes = Outcomes(open: OpenOutcome, configureOk: bool, negotiated: CaptureFormat, postAccepted: bool)

  /** The runnables posted to the camera thread. */
  datatype Task =
    | StartTask(request: Request)          // from startCapture
    | RetryTask(request: Request)          // a retry of Camera.open, posted with a delay
    | SwitchTask(notify: bool)             // from switchCamera; notify: a switch handler was given
    | ChangeFormatTask(request: Request)   // from changeCaptureFormat
    | StopTask                             // from stopCapture

  /** The two frame observers of raw buffers. */
  datatype Observer = AR | Primary

  /** The messages of `onCameraError` and `onCameraSwitchError`. */
  datatype ErrorMessage =
    | NoSurfaceTexture     // "No SurfaceTexture created."
    | CouldNotPost         // "Could not post task to camera thread."
    | CannotStart          // "Camera can not be started."
    | StopTimeout          // "Camera stop timeout"
    | NoCameraToSwitchTo   // "No camera to switch to."
    | SwitchPending        // "Pending camera switch already in progress."
    | CameraIsStopped      // "Camera is stopped."

  /** The exceptions the entry points throw. */
  datatype Exception =
    | ContextNotSet        // IllegalArgumentException: applicationContext not set.
    | ObserverNotSet       // IllegalArgumentException: frameObserver not set.
    | AlreadyInitialized   // IllegalStateException: Already initialized
    | StartUninitialized   // IllegalStateException: startCapture called in uninitialized state
    | UnexpectedCamera     // RuntimeException: Unexpected camera in callback!
    | NullPointer          // NullPointerException
    | NoCamerasAvailable   // RuntimeException: No cameras available
    | CameraLookupFailed   // whatever `Camera1Enumerator.getCameraIndex` throws for an unknown name

  /** Callbacks to the frame observers, the camera events handler and the
      switch handler, in the order they are made. */
  datatype Event =
    | CapturerStarted(success: bool)
    | CapturerStopped
    | ByteBufferFrame(observer: Observer, data: array<bv8>, width: nat, height: nat, rotation: int, timestampNs: int)
    | TextureFrame(width: nat, height: nat, textureId: int, flipped: bool, rotation: int, timestampNs: int)
    | TextureFrameReturned
    | CameraOpening(cameraId: nat)
    | CameraError(message: ErrorMessage)
    | CameraClosed
    | FirstFrameAvailable
    | SwitchDone(front: bool)
    | SwitchError(message: ErrorMessage)

  /** The camera name given to the constructor: none (null or empty), or a
      name with what `Camera1Enumerator.getCameraIndex` answers for it, None
      when the lookup throws. */
  datatype CameraName = Unnamed | Named(lookup: Option<nat>)

  /** How a public entry point ends: normally or by throwing. */
  datatype Call = Returned | Threw(exception: Exception)

  /** What a frame callback did with a frame. */
  datatype FrameOutcome =
    | CameraStopped          // the capturer is not running; the frame is ignored
    | StaleBuffer            // the buffer is not in the pool; it is not re-queued
    | Dropped                // decimated: re-queued without delivery
    | Delivered              // handed to the observers
    | Crashed(exception: Exception)

  /** Neither an opening nor a first-frame event. */
  predicate Neutral(e: Event)
  {
    !e.CameraOpening? && !e.FirstFrameAvailable?
  }

  /** How many first-frame events the log holds after its last opening event. */
  function FirstFramesSinceOpening(log: seq<Event>): nat
    decreases |log|
  {
    if log == [] then 0
    else match log[|log| - 1]
      case CameraOpening(_) => 0
      case FirstFrameAvailable => FirstFramesSinceOpening(log[..|log| - 1]) + 1
      case _ => FirstFramesSinceOpening(log[..|log| - 1])
  }

  /** Appending events that are neither openings nor first frames keeps the count. */
  lemma {:induction false} AppendNeutral(log: seq<Event>, more: seq<Event>)
    requires forall i :: 0 <= i < |more| ==> Neutral(more[i])
    ensures FirstFramesSinceOpening(log + more) == FirstFramesSinceOpening(log)
    decreases |more|
  {
    if more == [] {
      assert log + more == log;
    } else {
      var front := more[..|more| - 1];
      var all := log + more;
      assert all[..|all| - 1] == log + front;
      assert Neutral(all[|all| - 1]) by { assert all[|all| - 1] == more[|more| - 1]; }
      assert FirstFramesSinceOpening(all) == FirstFramesSinceOpening(log + front);
      AppendNeutral(log, front);
    }
  }

  /** An opening event resets the count; a first-frame event adds one. */
  lemma AppendCounted(log: seq<Event>, e: Event)
    ensures e.CameraOpening? ==> FirstFramesSinceOpening(log + [e]) == 0
    ensures e.FirstFrameAvailable? ==> FirstFramesSinceOpening(log + [e]) == FirstFramesSinceOpening(log) + 1
  {
    assert (log + [e])[..|log + [e]| - 1] == log;
  }

  /** `x % n` for `x` no larger than `n`. */
  lemma ModuloOfAtMost(x: nat, n: nat)
    requires 0 < n && x <= n
    ensures x % n == if x < n then x else 0
  {
    if x == n {
      assert x % n == (0 + 1 * n) % n;
    }
  }

  function Without<T>(s: seq<T>, k: nat): (r: seq<T>)
    requires k < |s|
    ensures |r| == |s| - 1
  {
    s[..k] + s[k + 1..]
  }

  /** The static counter `vFps`, shared by every capturer in the process. */
  class FrameCounter {
    var vFps: int32

    constructor ()
      ensures vFps == 0
    {
      vFps := 0;
    }
  }

  /** An open camera. Its identity is what `onPreviewFrame` compares its
      callback argument with; its zoom is the one parameter modelled. */
  class Camera {
    const cameraId: nat
    const facing: Orientation.Facing
    const sensorOrientation: int
    const maxZoom: int
    var zoom: int

    constructor Open(cameraId: nat, facing: Orientation.Facing, sensorOrientation: int, maxZoom: int)
      ensures this.cameraId == cameraId && this.facing == facing
      ensures this.sensorOrientation == sensorOrientation && this.maxZoom == maxZoom
      ensures zoom == 0
    {
      this.cameraId := cameraId;
      this.facing := facing;
      this.sensorOrientation := sensorOrientation;
      this.maxZoom := maxZoom;
      zoom := 0;
    }
  }

  /** The boolean fields of a capturer, kept together in one record. */
  datatype Flags = Flags(
    initialized: bool,         // an application context and a frame observer were given
    hasSurfaceHelper: bool,    // a surface texture helper was given; its handler is the camera thread's
    isCameraRunning: bool,
    pendingCameraSwitch: bool,
    firstFrameReported: bool,
    isReduceFps: bool,
    isUsedARCamera: bool,
    hasARObserver: bool,
    listening: bool)           // the surface texture helper delivers texture frames to this capturer

  /** A snapshot of every mutable field of a capturer, for stating whole-state
      postconditions. */
  datatype Fields = Fields(
    flags: Flags,
    camera: Camera?,
    info: Option<CameraInfo>,
    id: nat,
    requested: Request,
    captureFormat: Option<CaptureFormat>,
    queuedBuffers: set<array<bv8>>,
    handedToCamera: seq<array<bv8>>,
    openCameraAttempts: nat,
    pending: seq<Task>,
    events: seq<Event>)

  /** Exactly three distinct buffers of the format's frame size, each handed
      to the camera once. */
  ghost predicate FreshPool(queued: set<array<bv8>>, handed: seq<array<bv8>>, f: CaptureFormat)
  {
    |queued| == NumberOfCaptureBuffers &&
    |handed| == NumberOfCaptureBuffers &&
    (forall i, j :: 0 <= i < j < |handed| ==> handed[i] != handed[j]) &&
    (forall b :: b in queued ==> b in handed) &&
    (forall i :: 0 <= i < |handed| ==> handed[i] in queued) &&
    (forall b :: b in queued ==> b.Length == FrameSize(f))
  }

  type PositiveNat = n: nat | n > 0 witness 1

  class Capturer {
    /** `Camera.getNumberOfCameras()`. */
    const numberOfCameras: PositiveNat
    /** Whether a camera events handler was given. */
    const hasEventsHandler: bool
    const isCapturingToTexture: bool
    const counter: FrameCounter

    /** The boolean fields. */
    var flags: Flags
    var camera: Camera?
    var info: Option<CameraInfo>
    var id: nat
    /** The format last requested, kept for camera switches. */
    var requested: Request
    var captureFormat: Option<CaptureFormat>
    /** The buffers of the pool. */
    var queuedBuffers: set<array<bv8>>
    /** The buffers handed to the camera with `addCallbackBuffer` since its
        callback queue was last cleared. */
    var handedToCamera: seq<array<bv8>>
    var openCameraAttempts: nat
    /** The tasks posted to the camera thread that have not run yet. */
    var pending: seq<Task>
    /** The callbacks made so far. */
    var events: seq<Event>

    ghost function State(): Fields
      reads this
    {
      Fields(flags,
             camera, info, id, requested, captureFormat, queuedBuffers, handedToCamera, openCameraAttempts,
             pending, events)
    }

    /** What every entry point and task preserves. */
    /** The lifecycle flags: a surface helper needs initialization, running
        needs a surface helper, and nothing is posted once stopped. */
    ghost predicate LifecycleInv(initialized: bool, hasSurfaceHelper: bool, running: bool, pending: seq<Task>)
    {
      (hasSurfaceHelper ==> initialized) &&
      (running ==> hasSurfaceHelper) &&
      (pending != [] ==> running)
    }

    /** An open camera belongs to a running capturer and its info is the
        camera's; a format needs an open camera. */
    ghost predicate SessionInv(running: bool, camera: Camera?, info: Option<CameraInfo>, captureFormat: Option<CaptureFormat>)
    {
      (camera != null ==> running && info == Some(CameraInfo(camera.facing, camera.sensorOrientation))) &&
      (camera == null ==> captureFormat == None)
    }

    /** The pool: empty without a format or in texture mode, otherwise three
        buffers of the frame size; the camera only holds pool buffers. */
    ghost predicate PoolInv(captureFormat: Option<CaptureFormat>, queuedBuffers: set<array<bv8>>, handedToCamera: seq<array<bv8>>)
    {
      (captureFormat == None ==> queuedBuffers == {}) &&
      (isCapturingToTexture ==> queuedBuffers == {}) &&
      (captureFormat.Some? && !isCapturingToTexture ==>
         |queuedBuffers| == NumberOfCaptureBuffers &&
         forall b :: b in queuedBuffers ==> b.Length == FrameSize(captureFormat.value)) &&
      (forall i :: 0 <= i < |handedToCamera| ==> handedToCamera[i] in queuedBuffers)
    }

    /** Texture frames are listened to only in texture mode with an open,
        previewing camera. */
    ghost predicate ListeningInv(listening: bool, camera: Camera?, captureFormat: Option<CaptureFormat>)
    {
      listening ==> camera != null && captureFormat.Some? && isCapturingToTexture
    }

    /** At most one first-frame event per opening of the camera. */
    ghost predicate FirstFrameInv(events: seq<Event>, firstFrameReported: bool)
    {
      hasEventsHandler ==> FirstFramesSinceOpening(events) == if firstFrameReported then 1 else 0
    }

    ghost predicate Inv(s: Fields)
    {
      LifecycleInv(s.flags.initialized, s.flags.hasSurfaceHelper, s.flags.isCameraRunning, s.pending) &&
      SessionInv(s.flags.isCameraRunning, s.camera, s.info, s.captureFormat) &&
      PoolInv(s.captureFormat, s.queuedBuffers, s.handedToCamera) &&
      ListeningInv(s.flags.listening, s.camera, s.captureFormat) &&
      FirstFrameInv(s.events, s.flags.firstFrameReported)
    }

    ghost predicate Valid()
      reads this
    {
      Inv(State())
    }

    /** A callback to the events handler, made only when one was given. */
    function Notify(e: Event): seq<Event>
    {
      if hasEventsHandler then [e] else []
    }

    /** The post guard: a task is accepted only with a handler, while running,
        and when the handler itself accepts it. */
    ghost predicate Posts(s: Fields, accepted: bool)
    {
      s.flags.hasSurfaceHelper && s.flags.isCameraRunning && accepted
    }

    /** stopCaptureOnCameraThread: the camera, the pool and the format are
        dropped; with `stopHandler` the capturer stops running and every
        pending task is purged. */
    ghost function StopResult(s: Fields, stopHandler: bool): Fields
    {
      s.(flags := s.flags.(listening := false, isCameraRunning := if stopHandler then false else s.flags.isCameraRunning),
         pending := if stopHandler then [] else s.pending,
         camera := null,
         queuedBuffers := {},
         handedToCamera := [],
         captureFormat := None,
         events := s.events + Notify(CameraClosed))
    }

    /** The catch block of startCaptureOnCameraThread. */
    ghost function FailedStart(s: Fields): Fields
    {
      var t := StopResult(s, true);
      t.(events := t.events + [CapturerStarted(false)] + Notify(CameraError(CannotStart)))
    }

    /** startPreviewOnCameraThread rebuilds the pool: in byte-buffer mode,
        with an open camera, when the negotiated format is new. */
    ghost predicate RebuildsPool(s: Fields, negotiated: CaptureFormat)
    {
      s.flags.isCameraRunning && s.camera != null && s.captureFormat != Some(negotiated) && !isCapturingToTexture
    }

    /** startPreviewOnCameraThread, given the buffers it allocates: records
        the request; a negotiated format equal to the current one changes
        nothing else; otherwise the format is replaced and, in byte-buffer
        mode, the pool is rebuilt. */
    ghost function PreviewResult(s: Fields, r: Request, negotiated: CaptureFormat,
                                 pool: set<array<bv8>>, handed: seq<array<bv8>>): Fields
    {
      if !s.flags.isCameraRunning || s.camera == null then s
      else if s.captureFormat == Some(negotiated) then s.(requested := r)
      else if isCapturingToTexture then s.(requested := r, captureFormat := Some(negotiated))
      else s.(requested := r, captureFormat := Some(negotiated), queuedBuffers := pool, handedToCamera := handed)
    }

    /** The state once the camera is about to be opened. */
    ghost function Opening(s: Fields): Fields
    {
      s.(flags := s.flags.(firstFrameReported := false), events := s.events + Notify(CameraOpening(s.id)))
    }

    /** After a failed `Camera.open`: count the attempt, then either post a
        retry or give up as a failed start. */
    ghost function OpenFailedResult(s: Fields, r: Request, accepted: bool): Fields
    {
      var failed := s.(openCameraAttempts := s.openCameraAttempts + 1);
      if OpenRetry.RetriesAfterFailure(s.openCameraAttempts) then
        failed.(pending := s.pending + if Posts(s, accepted) then [RetryTask(r)] else [])
      else FailedStart(failed)
    }

    /** After a successful `Camera.open` that returned `cam`: configure it
        and start the preview; a failed configuration releases the camera. */
    ghost function OpenedResult(s: Fields, r: Request, o: Outcomes, cam: Camera?,
                                pool: set<array<bv8>>, handed: seq<array<bv8>>): Fields
      requires o.open.Opened?
    {
      var info := Some(CameraInfo(o.open.facing, o.open.sensorOrientation));
      if !o.configureOk then FailedStart(s.(info := info))
      else
        var previewing := PreviewResult(s.(camera := cam, info := info), r, o.negotiated, pool, handed);
        previewing.(events := previewing.events + [CapturerStarted(true)],
                    flags := previewing.flags.(listening := isCapturingToTexture || previewing.flags.listening))
    }

    /** startCaptureOnCameraThread, including the retry it may post. */
    ghost function StartCaptureResult(s: Fields, r: Request, o: Outcomes, cam: Camera?,
                                      pool: set<array<bv8>>, handed: seq<array<bv8>>): Fields
    {
      if !s.flags.isCameraRunning || s.camera != null then s
      else if o.open.OpenFailed? then OpenFailedResult(Opening(s), r, o.postAccepted)
      else OpenedResult(Opening(s), r, o, cam, pool, handed)
    }

    /** startCaptureOnCameraThread ends with an open, previewing camera. */
    ghost predicate Opens(s: Fields, o: Outcomes)
    {
      s.flags.isCameraRunning && s.camera == null && o.open.Opened? && o.configureOk
    }

    /** The camera a successful open returns. */
    ghost predicate IsOpenedCamera(c: Camera?, id: nat, o: Outcomes)
      requires o.open.Opened?
    {
      c != null && c.cameraId == id && c.facing == o.open.facing &&
      c.sensorOrientation == o.open.sensorOrientation && c.maxZoom == o.open.maxZoom
    }

    /** The camera the code switches to. */
    function NextId(id: nat): nat
    {
      (id + 1) % numberOfCameras
    }

    /** switchCameraOnCameraThread: tears the session down without stopping
        the handler, moves to the next camera and starts it with the last
        requested format. */
    ghost function SwitchResult(s: Fields, o: Outcomes, cam: Camera?,
                                pool: set<array<bv8>>, handed: seq<array<bv8>>): Fields
    {
      if !s.flags.isCameraRunning then s
      else StartCaptureResult(StopResult(s, false).(id := NextId(s.id)), s.requested, o, cam, pool, handed)
    }

    /** The frames handed to the observers for a delivered preview frame: the
        AR observer when one is set, the primary observer while the AR
        camera is in use. */
    ghost function ObserverFrames(s: Fields, data: array<bv8>, displayRotation: int, nowMs: nat): seq<Event>
      requires s.captureFormat.Some? && s.info.Some?
    {
      var f := s.captureFormat.value;
      var rotation := Orientation.FrameOrientation(s.info.value.orientation, s.info.value.facing, displayRotation);
      var timestampNs := nowMs * 1_000_000;
      (if s.flags.hasARObserver then [ByteBufferFrame(AR, data, f.width, f.height, rotation, timestampNs)] else []) +
      (if s.flags.isUsedARCamera then [ByteBufferFrame(Primary, data, f.width, f.height, rotation, timestampNs)] else [])
    }

    /** The callbacks made for a delivered preview frame, the first-frame
        report first. */
    ghost function FrameEvents(s: Fields, data: array<bv8>, displayRotation: int, nowMs: nat): seq<Event>
      requires s.captureFormat.Some? && s.info.Some?
    {
      (if hasEventsHandler && !s.flags.firstFrameReported then [FirstFrameAvailable] else []) +
      ObserverFrames(s, data, displayRotation, nowMs)
    }

    /** onPreviewFrame for a frame that is delivered: the buffer goes back to
        the camera after the callbacks. */
    ghost function DeliveredFrame(s: Fields, data: array<bv8>, displayRotation: int, nowMs: nat): Fields
      requires s.captureFormat.Some? && s.info.Some?
    {
      s.(flags := s.flags.(firstFrameReported := s.flags.firstFrameReported || hasEventsHandler),
         events := s.events + FrameEvents(s, data, displayRotation, nowMs),
         handedToCamera := s.handedToCamera + [data])
    }

    /** Whether onPreviewFrame counts the frame in `vFps`: it passed the
        guards and reduce-FPS is on. */
    ghost predicate CountsFrame(s: Fields, data: array<bv8>, callbackCamera: Camera?)
    {
      s.flags.isCameraRunning && data in s.queuedBuffers && callbackCamera == s.camera && s.flags.isReduceFps
    }

    /** How onPreviewFrame ends for a frame in `data` from `callbackCamera`
        when the shared counter holds `vFps`: ignored while stopped, ignored
        for a buffer outside the pool, a crash for a foreign camera, dropped
        when decimation takes it, else delivered. */
    ghost function FrameGateOutcome(s: Fields, data: array<bv8>, callbackCamera: Camera?, vFps: int32): FrameOutcome
    {
      if !s.flags.isCameraRunning then CameraStopped
      else if data !in s.queuedBuffers then StaleBuffer
      else if callbackCamera != s.camera then Crashed(UnexpectedCamera)
      else if s.flags.isReduceFps && Decimation.DropsAt(Inc32(vFps)) then Dropped
      else Delivered
    }

    /** The capturer after onPreviewFrame: a dropped frame's buffer goes back
        to the camera, a delivered one is reported as well, and otherwise
        nothing changes. */
    ghost function FrameGateResult(s: Fields, data: array<bv8>, callbackCamera: Camera?, vFps: int32,
                                   displayRotation: int, nowMs: nat): Fields
      requires Inv(s)
    {
      match FrameGateOutcome(s, data, callbackCamera, vFps)
      case Dropped => s.(handedToCamera := s.handedToCamera + [data])
      case Delivered => DeliveredFrame(s, data, displayRotation, nowMs)
      case _ => s
    }

    /** How onTextureFrameAvailable ends. */
    ghost function TextureOutcome(s: Fields): FrameOutcome
    {
      if !s.flags.isCameraRunning then CameraStopped
      else if s.info.None? || s.camera == null || s.captureFormat.None? then Crashed(NullPointer)
      else Delivered
    }

    /** The first-frame part of onTextureFrameAvailable. */
    ghost function TextureFirstFrame(s: Fields): Fields
    {
      s.(flags := s.flags.(firstFrameReported := s.flags.firstFrameReported || hasEventsHandler),
         events := s.events + if hasEventsHandler && !s.flags.firstFrameReported then [FirstFrameAvailable] else [])
    }

    /** onTextureFrameAvailable: a stopped capturer returns the frame to the
        helper; a running one reports the first frame once, then (unless a
        field it reads is null) hands the texture to the observer with the
        frame's orientation, flipped for a front-facing camera. */
    ghost function TextureResult(s: Fields, textureId: int, timestampNs: int, displayRotation: int): Fields
    {
      if !s.flags.isCameraRunning then s.(events := s.events + [TextureFrameReturned])
      else
        var reported := TextureFirstFrame(s);
        if s.info.None? || s.camera == null || s.captureFormat.None? then reported
        else reported.(events := reported.events +
            [TextureFrame(s.captureFormat.value.width, s.captureFormat.value.height, textureId,
                          s.info.value.facing == Orientation.Front,
                          Orientation.FrameOrientation(s.info.value.orientation, s.info.value.facing, displayRotation),
                          timestampNs)])
    }

    // Each transition keeps the invariant.

    lemma NeutralEventsKeepInv(s: Fields, more: seq<Event>)
      requires Inv(s) && forall i :: 0 <= i < |more| ==> Neutral(more[i])
      ensures Inv(s.(events := s.events + more))
    {
      AppendNeutral(s.events, more);
    }

    lemma StopKeepsInv(s: Fields, stopHandler: bool)
      requires Inv(s) && (stopHandler ==> s.flags.hasSurfaceHelper)
      ensures Inv(StopResult(s, stopHandler))
    {
      AppendNeutral(s.events, Notify(CameraClosed));
    }

    lemma OpenFailedKeepsInv(s: Fields, r: Request, accepted: bool)
      requires Inv(s) && s.flags.isCameraRunning
      ensures Inv(OpenFailedResult(s, r, accepted))
    {
      if !OpenRetry.RetriesAfterFailure(s.openCameraAttempts) {
        FailedStartKeepsInv(s.(openCameraAttempts := s.openCameraAttempts + 1));
      }
    }

    lemma FailedStartKeepsInv(s: Fields)
      requires Inv(s) && s.flags.hasSurfaceHelper
      ensures Inv(FailedStart(s))
    {
      StopKeepsInv(s, true);
      var t := StopResult(s, true);
      var more := [CapturerStarted(false)] + Notify(CameraError(CannotStart));
      NeutralEventsKeepInv(t, more);
      assert FailedStart(s) == t.(events := t.events + more);
    }

    lemma OpeningKeepsInv(s: Fields)
      requires Inv(s) && s.flags.isCameraRunning && s.camera == null
      ensures Inv(Opening(s))
    {
      if hasEventsHandler {
        AppendCounted(s.events, CameraOpening(s.id));
      }
    }

    lemma PreviewKeepsInv(s: Fields, r: Request, negotiated: CaptureFormat,
                          pool: set<array<bv8>>, handed: seq<array<bv8>>)
      requires Inv(s) && (RebuildsPool(s, negotiated) ==> FreshPool(pool, handed, negotiated))
      ensures Inv(PreviewResult(s, r, negotiated, pool, handed))
    {
      if RebuildsPool(s, negotiated) {
        assert forall i :: 0 <= i < |handed| ==> handed[i] in pool;
      }
    }

    lemma OpenedKeepsInv(s: Fields, r: Request, o: Outcomes, cam: Camera?,
                         pool: set<array<bv8>>, handed: seq<array<bv8>>)
      requires Inv(s) && s.flags.isCameraRunning && s.camera == null && o.open.Opened?
      requires o.configureOk ==> IsOpenedCamera(cam, s.id, o)
      requires o.configureOk && !isCapturingToTexture ==> FreshPool(pool, handed, o.negotiated)
      ensures Inv(OpenedResult(s, r, o, cam, pool, handed))
    {
      var info := Some(CameraInfo(o.open.facing, o.open.sensorOrientation));
      if !o.configureOk {
        FailedStartKeepsInv(s.(info := info));
      } else {
        var session := s.(camera := cam, info := info);
        PreviewKeepsInv(session, r, o.negotiated, pool, handed);
        var previewing := PreviewResult(session, r, o.negotiated, pool, handed);
        AppendNeutral(previewing.events, [CapturerStarted(true)]);
      }
    }

    /** Installing the camera `Camera.open` returned, with its info. */
    lemma InstallCameraKeepsInv(s: Fields, cam: Camera?, o: Outcomes)
      requires Inv(s) && s.flags.isCameraRunning && s.camera == null && o.open.Opened? && IsOpenedCamera(cam, s.id, o)
      ensures Inv(s.(camera := cam, info := Some(CameraInfo(o.open.facing, o.open.sensorOrientation))))
    {
    }

    lemma StartCaptureKeepsInv(s: Fields, r: Request, o: Outcomes, cam: Camera?,
                               pool: set<array<bv8>>, handed: seq<array<bv8>>)
      requires Inv(s)
      requires Opens(s, o) ==> IsOpenedCamera(cam, s.id, o)
      requires Opens(s, o) && !isCapturingToTexture ==> FreshPool(pool, handed, o.negotiated)
      ensures Inv(StartCaptureResult(s, r, o, cam, pool, handed))
    {
      if s.flags.isCameraRunning && s.camera == null {
        OpeningKeepsInv(s);
        var s1 := Opening(s);
        if o.open.OpenFailed? {
          OpenFailedKeepsInv(s1, r, o.postAccepted);
          assert StartCaptureResult(s, r, o, cam, pool, handed) == OpenFailedResult(s1, r, o.postAccepted);
        } else {
          OpenedKeepsInv(s1, r, o, cam, pool, handed);
          assert StartCaptureResult(s, r, o, cam, pool, handed) == OpenedResult(s1, r, o, cam, pool, handed);
        }
      }
    }

    lemma SwitchKeepsInv(s: Fields, o: Outcomes, cam: Camera?,
                         pool: set<array<bv8>>, handed: seq<array<bv8>>)
      requires Inv(s)
      requires s.flags.isCameraRunning && o.open.Opened? && o.configureOk ==> IsOpenedCamera(cam, NextId(s.id), o)
      requires s.flags.isCameraRunning && o.open.Opened? && o.configureOk && !isCapturingToTexture ==> FreshPool(pool, handed, o.negotiated)
      ensures Inv(SwitchResult(s, o, cam, pool, handed))
    {
      if s.flags.isCameraRunning {
        StopKeepsInv(s, false);
        StartCaptureKeepsInv(StopResult(s, false).(id := NextId(s.id)), s.requested, o, cam, pool, handed);
      }
    }

    lemma StartRequestKeepsInv(s: Fields, r: Request, accepted: bool)
      requires Inv(s)
      ensures Inv(StartRequestResult(s, r, accepted))
    {
      if !s.flags.hasSurfaceHelper {
        NeutralEventsKeepInv(s, [CapturerStarted(false)] + Notify(CameraError(NoSurfaceTexture)));
      } else if !s.flags.isCameraRunning && !accepted {
        NeutralEventsKeepInv(s, [CapturerStarted(false)] + Notify(CameraError(CouldNotPost)));
      } else if !s.flags.isCameraRunning {
        MarkRunningKeepsInv(s, r);
      }
    }

    /** A stopped capturer has no camera, so marking it running with the
        start task posted keeps the invariant. */
    lemma MarkRunningKeepsInv(s: Fields, r: Request)
      requires Inv(s) && s.flags.hasSurfaceHelper && !s.flags.isCameraRunning
      ensures Inv(s.(flags := s.flags.(isCameraRunning := true), pending := s.pending + [StartTask(r)]))
    {
    }

    lemma SwitchRequestKeepsInv(s: Fields, notify: bool, accepted: bool)
      requires Inv(s)
      ensures Inv(SwitchRequestResult(s, notify, accepted))
    {
      if numberOfCameras < 2 {
        NeutralEventsKeepInv(s, if notify then [SwitchError(NoCameraToSwitchTo)] else []);
      } else if s.flags.pendingCameraSwitch {
        NeutralEventsKeepInv(s, if notify then [SwitchError(SwitchPending)] else []);
      } else {
        var posted := Posts(s, accepted);
        var marked := s.(flags := s.flags.(pendingCameraSwitch := true),
                         pending := s.pending + (if posted then [SwitchTask(notify)] else []));
        NeutralEventsKeepInv(marked, if !posted && notify then [SwitchError(CameraIsStopped)] else []);
      }
    }

    lemma SwitchDoneKeepsInv(s: Fields, notify: bool)
      requires Inv(s)
      ensures Inv(SwitchDoneResult(s, notify))
    {
      var cleared := s.(flags := s.flags.(pendingCameraSwitch := false));
      if notify && s.info.Some? {
        AppendNeutral(cleared.events, [SwitchDone(s.info.value.facing == Orientation.Front)]);
      } else {
        assert cleared.events + [] == cleared.events;
      }
    }

    lemma DeliveredFrameKeepsInv(s: Fields, data: array<bv8>, displayRotation: int, nowMs: nat)
      requires Inv(s) && data in s.queuedBuffers && s.captureFormat.Some? && s.info.Some?
      ensures Inv(DeliveredFrame(s, data, displayRotation, nowMs))
    {
      var observed := ObserverFrames(s, data, displayRotation, nowMs);
      if hasEventsHandler && !s.flags.firstFrameReported {
        AppendCounted(s.events, FirstFrameAvailable);
        AppendNeutral(s.events + [FirstFrameAvailable], observed);
        assert s.events + FrameEvents(s, data, displayRotation, nowMs) == s.events + [FirstFrameAvailable] + observed;
      } else {
        AppendNeutral(s.events, observed);
        assert FrameEvents(s, data, displayRotation, nowMs) == observed;
      }
    }

    lemma FrameGateKeepsInv(s: Fields, data: array<bv8>, callbackCamera: Camera?, vFps: int32,
                            displayRotation: int, nowMs: nat)
      requires Inv(s)
      ensures Inv(FrameGateResult(s, data, callbackCamera, vFps, displayRotation, nowMs))
    {
      if FrameGateOutcome(s, data, callbackCamera, vFps) == Delivered {
        DeliveredFrameKeepsInv(s, data, displayRotation, nowMs);
      }
    }

    lemma TextureKeepsInv(s: Fields, textureId: int, timestampNs: int, displayRotation: int)
      requires Inv(s)
      ensures Inv(TextureResult(s, textureId, timestampNs, displayRotation))
    {
      if !s.flags.isCameraRunning {
        NeutralEventsKeepInv(s, [TextureFrameReturned]);
      } else {
        var reported := TextureFirstFrame(s);
        if hasEventsHandler && !s.flags.firstFrameReported {
          AppendCounted(s.events, FirstFrameAvailable);
        } else {
          assert reported.events == s.events;
        }
        if !(s.info.None? || s.camera == null || s.captureFormat.None?) {
          NeutralEventsKeepInv(reported, [TextureFrame(s.captureFormat.value.width, s.captureFormat.value.height, textureId,
            s.info.value.facing == Orientation.Front,
            Orientation.FrameOrientation(s.info.value.orientation, s.info.value.facing, displayRotation), timestampNs)]);
        }
      }
    }

    // What the transitions promise.

    /** A failed open is counted; below the ceiling a retry is posted (when
        the handler accepts it) and the capturer keeps running, and at the
        ceiling the start fails: the capturer stops with nothing pending
        and reports the failure. */
    lemma FailedOpenRetriesOrGivesUp(s: Fields, r: Request, o: Outcomes, cam: Camera?,
                                     pool: set<array<bv8>>, handed: seq<array<bv8>>)
      requires Inv(s) && s.flags.isCameraRunning && s.camera == null && o.open.OpenFailed?
      ensures var t := StartCaptureResult(s, r, o, cam, pool, handed);
        t.camera == null && t.queuedBuffers == {} &&
        (t.flags.isCameraRunning <==> OpenRetry.RetriesAfterFailure(s.openCameraAttempts)) &&
        (t.flags.isCameraRunning ==>
           t.openCameraAttempts == s.openCameraAttempts + 1 &&
           t.pending == s.pending + (if s.flags.hasSurfaceHelper && o.postAccepted then [RetryTask(r)] else []) &&
           t.events == s.events + Notify(CameraOpening(s.id))) &&
        (!t.flags.isCameraRunning ==>
           t.pending == [] &&
           t.events == s.events + Notify(CameraOpening(s.id)) + Notify(CameraClosed) +
                       [CapturerStarted(false)] + Notify(CameraError(CannotStart)))
    {
    }

    /** Taking a task off the queue, as every task does before it runs,
        keeps the invariant. */
    lemma TakingTaskKeepsInv(s: Fields, k: nat)
      requires Inv(s) && k < |s.pending|
      ensures Inv(s.(pending := Without(s.pending, k)))
    {
      if Without(s.pending, k) != [] {
        assert s.pending != [];
      }
    }

    /** Whether each of the driver's answers is a successful open. */
    function OpenResults(answers: seq<OpenOutcome>): (results: seq<bool>)
      ensures |results| == |answers|
      ensures answers != [] ==> results == [answers[0].Opened?] + OpenResults(answers[1..])
      decreases |answers|
    {
      if answers == [] then [] else [answers[0].Opened?] + OpenResults(answers[1..])
    }

    /** The opens of one start when nothing else runs in between: each
        attempt is startCaptureOnCameraThread with the driver's next answer
        in `answers`, and while answers remain, the retry a failure posted is
        taken from the queue and run next, as RunRetryTask does. Yields the
        state after the last attempt and the number of opens made. */
    ghost function Attempts(s: Fields, r: Request, answers: seq<OpenOutcome>, o: Outcomes,
                            cam: Camera?, pool: set<array<bv8>>, handed: seq<array<bv8>>): (Fields, nat)
      decreases |answers|
    {
      if answers == [] || !s.flags.isCameraRunning || s.camera != null then (s, 0)
      else
        var t := StartCaptureResult(s, r, o.(open := answers[0]), cam, pool, handed);
        if |answers| > 1 && answers[0].OpenFailed? && t.flags.isCameraRunning &&
           t.pending != [] && t.pending[|t.pending| - 1] == RetryTask(r) then
          var next := Attempts(t.(pending := t.pending[..|t.pending| - 1]), r, answers[1..], o, cam, pool, handed);
          (next.0, next.1 + 1)
        else (t, 1)
    }

    /** A configured open leaves the capturer running with the camera the
        driver returned. */
    lemma ConfiguredOpenKeepsCamera(s: Fields, r: Request, o: Outcomes,
                                    cam: Camera?, pool: set<array<bv8>>, handed: seq<array<bv8>>)
      requires s.flags.isCameraRunning && s.camera == null && o.open.Opened? && o.configureOk
      ensures StartCaptureResult(s, r, o, cam, pool, handed).flags.isCameraRunning
      ensures StartCaptureResult(s, r, o, cam, pool, handed).camera == cam
    {
      var s1 := Opening(s);
      assert StartCaptureResult(s, r, o, cam, pool, handed) == OpenedResult(s1, r, o, cam, pool, handed);
      var session := s1.(camera := cam, info := Some(CameraInfo(o.open.facing, o.open.sensorOrientation)));
      assert PreviewResult(session, r, o.negotiated, pool, handed).flags == session.flags;
      assert PreviewResult(session, r, o.negotiated, pool, handed).camera == cam;
    }

    /** An attempt that opens the camera ends the chain. */
    lemma AttemptOpens(s: Fields, r: Request, answers: seq<OpenOutcome>, o: Outcomes,
                       cam: Camera?, pool: set<array<bv8>>, handed: seq<array<bv8>>)
      requires s.flags.isCameraRunning && s.camera == null && answers != [] && answers[0].Opened?
      ensures Attempts(s, r, answers, o, cam, pool, handed).1 == 1
      ensures o.configureOk ==> Attempts(s, r, answers, o, cam, pool, handed).0.flags.isCameraRunning
      ensures o.configureOk ==> Attempts(s, r, answers, o, cam, pool, handed).0.camera == cam
    {
      var o1 := o.(open := answers[0]);
      var t := StartCaptureResult(s, r, o1, cam, pool, handed);
      assert Attempts(s, r, answers, o, cam, pool, handed) == (t, 1);
      if o.configureOk {
        ConfiguredOpenKeepsCamera(s, r, o1, cam, pool, handed);
      }
    }

    /** A failed attempt at the ceiling ends the chain with a stopped
        capturer. */
    lemma AttemptGivesUp(s: Fields, r: Request, answers: seq<OpenOutcome>, o: Outcomes,
                         cam: Camera?, pool: set<array<bv8>>, handed: seq<array<bv8>>)
      requires Inv(s) && s.flags.isCameraRunning && s.camera == null && answers != [] && answers[0].OpenFailed?
      requires !OpenRetry.RetriesAfterFailure(s.openCameraAttempts)
      ensures Attempts(s, r, answers, o, cam, pool, handed).1 == 1
      ensures !Attempts(s, r, answers, o, cam, pool, handed).0.flags.isCameraRunning
      ensures Attempts(s, r, answers, o, cam, pool, handed).0.camera == null
      ensures Attempts(s, r, answers, o, cam, pool, handed).0.pending == []
    {
      FailedOpenRetriesOrGivesUp(s, r, o.(open := answers[0]), cam, pool, handed);
    }

    /** A failed attempt below the ceiling queues its retry. */
    lemma AttemptQueuesRetry(s: Fields, r: Request, answers: seq<OpenOutcome>, o: Outcomes,
                             cam: Camera?, pool: set<array<bv8>>, handed: seq<array<bv8>>)
      requires Inv(s) && s.flags.isCameraRunning && s.camera == null && answers != [] && answers[0].OpenFailed?
      requires OpenRetry.RetriesAfterFailure(s.openCameraAttempts) && o.postAccepted
      ensures var t := StartCaptureResult(s, r, o.(open := answers[0]), cam, pool, handed);
              t.flags.isCameraRunning && t.camera == null && t.openCameraAttempts == s.openCameraAttempts + 1
      ensures StartCaptureResult(s, r, o.(open := answers[0]), cam, pool, handed).pending == s.pending + [RetryTask(r)]
      ensures Inv(StartCaptureResult(s, r, o.(open := answers[0]), cam, pool, handed))
      ensures |answers| == 1 ==>
              Attempts(s, r, answers, o, cam, pool, handed) == (StartCaptureResult(s, r, o.(open := answers[0]), cam, pool, handed), 1)
    {
      var o1 := o.(open := answers[0]);
      FailedOpenRetriesOrGivesUp(s, r, o1, cam, pool, handed);
      StartCaptureKeepsInv(s, r, o1, cam, pool, handed);
    }

    /** The state in which the next attempt of a chain runs: after a failed
        open, with its retry taken from the queue. */
    ghost function Retried(s: Fields, r: Request, answer: OpenOutcome, o: Outcomes,
                           cam: Camera?, pool: set<array<bv8>>, handed: seq<array<bv8>>): Fields
    {
      var t := StartCaptureResult(s, r, o.(open := answer), cam, pool, handed);
      if t.pending == [] then t else t.(pending := t.pending[..|t.pending| - 1])
    }

    /** A failed attempt below the ceiling with answers left runs the retry
        it queued next, from a state that again satisfies the chain's
        preconditions and has the queue it started with. */
    lemma AttemptRetries(s: Fields, r: Request, answers: seq<OpenOutcome>, o: Outcomes,
                         cam: Camera?, pool: set<array<bv8>>, handed: seq<array<bv8>>)
      requires Inv(s) && s.flags.isCameraRunning && s.camera == null && |answers| > 1 && answers[0].OpenFailed?
      requires OpenRetry.RetriesAfterFailure(s.openCameraAttempts) && o.postAccepted
      ensures var u := Retried(s, r, answers[0], o, cam, pool, handed);
              Inv(u) && u.flags.isCameraRunning && u.camera == null && u.openCameraAttempts == s.openCameraAttempts + 1
      ensures Retried(s, r, answers[0], o, cam, pool, handed).pending == s.pending
      ensures var u := Retried(s, r, answers[0], o, cam, pool, handed);
              Attempts(s, r, answers, o, cam, pool, handed) ==
              (Attempts(u, r, answers[1..], o, cam, pool, handed).0, Attempts(u, r, answers[1..], o, cam, pool, handed).1 + 1)
    {
      AttemptQueuesRetry(s, r, answers, o, cam, pool, handed);
      var t := StartCaptureResult(s, r, o.(open := answers[0]), cam, pool, handed);
      assert t.pending[|t.pending| - 1] == RetryTask(r);
      assert t.pending[..|t.pending| - 1] == s.pending;
      TakingTaskKeepsInv(t, |t.pending| - 1);
      assert Without(t.pending, |t.pending| - 1) == t.pending[..|t.pending| - 1];
    }

    /** The capturer follows the retry policy in how often it opens: from a
        running capturer with no camera and counter below the ceiling, it
        makes as many opens as OpenChain counts for the driver's answers. */
    lemma {:induction false} AttemptsCountOpens(s: Fields, r: Request, answers: seq<OpenOutcome>, o: Outcomes,
                             cam: Camera?, pool: set<array<bv8>>, handed: seq<array<bv8>>)
      requires Inv(s) && s.flags.isCameraRunning && s.camera == null && o.postAccepted
      requires s.openCameraAttempts < OpenRetry.MaxOpenCameraAttempts
      ensures Attempts(s, r, answers, o, cam, pool, handed).1 == OpenRetry.OpenChain(s.openCameraAttempts, OpenResults(answers)).opens
      decreases |answers|
    {
      if answers == [] {
        return;
      }
      var results := OpenResults(answers);
      if answers[0].Opened? {
        assert OpenRetry.OpenChain(s.openCameraAttempts, results) == OpenRetry.Opened(1);
        AttemptOpens(s, r, answers, o, cam, pool, handed);
      } else if !OpenRetry.RetriesAfterFailure(s.openCameraAttempts) {
        assert OpenRetry.OpenChain(s.openCameraAttempts, results) == OpenRetry.GaveUp(1);
        AttemptGivesUp(s, r, answers, o, cam, pool, handed);
      } else if |answers| == 1 {
        assert OpenRetry.OpenChain(s.openCameraAttempts, results) == OpenRetry.Waiting(1);
        AttemptQueuesRetry(s, r, answers, o, cam, pool, handed);
      } else {
        AttemptRetries(s, r, answers, o, cam, pool, handed);
        var u := Retried(s, r, answers[0], o, cam, pool, handed);
        assert results[1..] == OpenResults(answers[1..]);
        OpenRetry.ChainAfterFailure(s.openCameraAttempts, results);
        AttemptsCountOpens(u, r, answers[1..], o, cam, pool, handed);
      }
    }

    /** When the chain OpenChain makes of the driver's answers gives up, the
        capturer ends stopped, with no camera and nothing pending. */
    lemma {:induction false} AttemptsGiveUpStopped(s: Fields, r: Request, answers: seq<OpenOutcome>, o: Outcomes,
                             cam: Camera?, pool: set<array<bv8>>, handed: seq<array<bv8>>)
      requires Inv(s) && s.flags.isCameraRunning && s.camera == null && o.postAccepted
      requires s.openCameraAttempts < OpenRetry.MaxOpenCameraAttempts
      ensures OpenRetry.OpenChain(s.openCameraAttempts, OpenResults(answers)).GaveUp? ==>
              var t := Attempts(s, r, answers, o, cam, pool, handed).0;
              !t.flags.isCameraRunning && t.camera == null && t.pending == []
      decreases |answers|
    {
      if answers == [] {
        return;
      }
      var results := OpenResults(answers);
      if answers[0].Opened? {
        assert OpenRetry.OpenChain(s.openCameraAttempts, results) == OpenRetry.Opened(1);
        AttemptOpens(s, r, answers, o, cam, pool, handed);
      } else if !OpenRetry.RetriesAfterFailure(s.openCameraAttempts) {
        assert OpenRetry.OpenChain(s.openCameraAttempts, results) == OpenRetry.GaveUp(1);
        AttemptGivesUp(s, r, answers, o, cam, pool, handed);
      } else if |answers| == 1 {
        assert OpenRetry.OpenChain(s.openCameraAttempts, results) == OpenRetry.Waiting(1);
        AttemptQueuesRetry(s, r, answers, o, cam, pool, handed);
      } else {
        AttemptRetries(s, r, answers, o, cam, pool, handed);
        var u := Retried(s, r, answers[0], o, cam, pool, handed);
        assert results[1..] == OpenResults(answers[1..]);
        OpenRetry.ChainAfterFailure(s.openCameraAttempts, results);
        AttemptsGiveUpStopped(u, r, answers[1..], o, cam, pool, handed);
      }
    }

    /** When the chain OpenChain makes of the driver's answers opens the
        camera and the camera can be configured, the capturer ends running
        with the camera the driver returned. */
    lemma {:induction false} AttemptsOpenRunning(s: Fields, r: Request, answers: seq<OpenOutcome>, o: Outcomes,
                             cam: Camera?, pool: set<array<bv8>>, handed: seq<array<bv8>>)
      requires Inv(s) && s.flags.isCameraRunning && s.camera == null && o.postAccepted
      requires s.openCameraAttempts < OpenRetry.MaxOpenCameraAttempts
      ensures OpenRetry.OpenChain(s.openCameraAttempts, OpenResults(answers)).Opened? && o.configureOk ==>
              var t := Attempts(s, r, answers, o, cam, pool, handed).0;
              t.flags.isCameraRunning && t.camera == cam
      decreases |answers|
    {
      if answers == [] {
        return;
      }
      var results := OpenResults(answers);
      if answers[0].Opened? {
        assert OpenRetry.OpenChain(s.openCameraAttempts, results) == OpenRetry.Opened(1);
        AttemptOpens(s, r, answers, o, cam, pool, handed);
      } else if !OpenRetry.RetriesAfterFailure(s.openCameraAttempts) {
        assert OpenRetry.OpenChain(s.openCameraAttempts, results) == OpenRetry.GaveUp(1);
        AttemptGivesUp(s, r, answers, o, cam, pool, handed);
      } else if |answers| == 1 {
        assert OpenRetry.OpenChain(s.openCameraAttempts, results) == OpenRetry.Waiting(1);
        AttemptQueuesRetry(s, r, answers, o, cam, pool, handed);
      } else {
        AttemptRetries(s, r, answers, o, cam, pool, handed);
        var u := Retried(s, r, answers[0], o, cam, pool, handed);
        assert results[1..] == OpenResults(answers[1..]);
        OpenRetry.ChainAfterFailure(s.openCameraAttempts, results);
        AttemptsOpenRunning(u, r, answers[1..], o, cam, pool, handed);
      }
    }

    /** When the driver's answers run out after a failure, the capturer ends
        running with no camera and one retry queued after the tasks it
        started with. */
    lemma {:induction false} AttemptsWaitQueued(s: Fields, r: Request, answers: seq<OpenOutcome>, o: Outcomes,
                             cam: Camera?, pool: set<array<bv8>>, handed: seq<array<bv8>>)
      requires Inv(s) && s.flags.isCameraRunning && s.camera == null && o.postAccepted
      requires s.openCameraAttempts < OpenRetry.MaxOpenCameraAttempts
      ensures OpenRetry.OpenChain(s.openCameraAttempts, OpenResults(answers)).Waiting? && answers != [] ==>
              var t := Attempts(s, r, answers, o, cam, pool, handed).0;
              t.flags.isCameraRunning && t.camera == null && t.pending == s.pending + [RetryTask(r)]
      decreases |answers|
    {
      if answers == [] {
        return;
      }
      var results := OpenResults(answers);
      if answers[0].Opened? {
        assert OpenRetry.OpenChain(s.openCameraAttempts, results) == OpenRetry.Opened(1);
        AttemptOpens(s, r, answers, o, cam, pool, handed);
      } else if !OpenRetry.RetriesAfterFailure(s.openCameraAttempts) {
        assert OpenRetry.OpenChain(s.openCameraAttempts, results) == OpenRetry.GaveUp(1);
        AttemptGivesUp(s, r, answers, o, cam, pool, handed);
      } else if |answers| == 1 {
        assert OpenRetry.OpenChain(s.openCameraAttempts, results) == OpenRetry.Waiting(1);
        AttemptQueuesRetry(s, r, answers, o, cam, pool, handed);
      } else {
        AttemptRetries(s, r, answers, o, cam, pool, handed);
        var u := Retried(s, r, answers[0], o, cam, pool, handed);
        assert results[1..] == OpenResults(answers[1..]);
        OpenRetry.ChainAfterFailure(s.openCameraAttempts, results);
        AttemptsWaitQueued(u, r, answers[1..], o, cam, pool, handed);
      }
    }

    /** The `i`th result is whether the `i`th answer opened the camera. */
    lemma {:induction false} OpenResultsAt(answers: seq<OpenOutcome>, i: nat)
      requires i < |answers|
      ensures OpenResults(answers)[i] == answers[i].Opened?
      decreases i
    {
      if i > 0 {
        OpenResultsAt(answers[1..], i - 1);
      }
    }

    /** A start task resets the counter, so when every retry post is
        accepted it opens the camera at most three times, whatever the
        driver answers. */
    lemma StartOpensAtMostThrice(s: Fields, r: Request, answers: seq<OpenOutcome>, o: Outcomes,
                                 cam: Camera?, pool: set<array<bv8>>, handed: seq<array<bv8>>)
      requires Inv(s) && s.flags.isCameraRunning && s.camera == null && o.postAccepted
      ensures Attempts(s.(openCameraAttempts := 0), r, answers, o, cam, pool, handed).1 <= OpenRetry.MaxOpenCameraAttempts
    {
      AttemptsCountOpens(s.(openCameraAttempts := 0), r, answers, o, cam, pool, handed);
      OpenRetry.OpensBounded(0, OpenResults(answers));
    }

    /** Three failed opens after a start task leave the capturer stopped
        with no camera and nothing pending. */
    lemma ThreeFailedOpensStop(s: Fields, r: Request, answers: seq<OpenOutcome>, o: Outcomes,
                               cam: Camera?, pool: set<array<bv8>>, handed: seq<array<bv8>>)
      requires Inv(s) && s.flags.isCameraRunning && s.camera == null && o.postAccepted
      requires |answers| >= 3 && answers[0].OpenFailed? && answers[1].OpenFailed? && answers[2].OpenFailed?
      ensures var t := Attempts(s.(openCameraAttempts := 0), r, answers, o, cam, pool, handed).0;
              !t.flags.isCameraRunning && t.camera == null && t.pending == []
    {
      OpenResultsAt(answers, 0);
      OpenResultsAt(answers, 1);
      OpenResultsAt(answers, 2);
      OpenRetry.GivesUpIffAllFail(0, OpenResults(answers));
      AttemptsGiveUpStopped(s.(openCameraAttempts := 0), r, answers, o, cam, pool, handed);
    }

    /** When the camera can be configured, three failed opens are the only
        way a start ends with the capturer stopped. */
    lemma StartStopsOnlyAfterThreeFailures(s: Fields, r: Request, answers: seq<OpenOutcome>, o: Outcomes,
                                           cam: Camera?, pool: set<array<bv8>>, handed: seq<array<bv8>>)
      requires Inv(s) && s.flags.isCameraRunning && s.camera == null && o.postAccepted && o.configureOk
      ensures !Attempts(s.(openCameraAttempts := 0), r, answers, o, cam, pool, handed).0.flags.isCameraRunning ==>
              |answers| >= 3 && answers[0].OpenFailed? && answers[1].OpenFailed? && answers[2].OpenFailed?
    {
      var s0 := s.(openCameraAttempts := 0);
      var e := OpenRetry.OpenChain(0, OpenResults(answers));
      if answers == [] {
        assert Attempts(s0, r, answers, o, cam, pool, handed).0 == s0;
      } else if e.Opened? {
        AttemptsOpenRunning(s0, r, answers, o, cam, pool, handed);
      } else if e.Waiting? {
        AttemptsWaitQueued(s0, r, answers, o, cam, pool, handed);
      } else {
        OpenRetry.GivesUpIffAllFail(0, OpenResults(answers));
        OpenResultsAt(answers, 0);
        OpenResultsAt(answers, 1);
        OpenResultsAt(answers, 2);
      }
    }

    /** The teardown: no camera, no pool, no format, no texture listening;
        a full stop also ends the running state and purges every pending task
        (retries included), after which the post guard refuses every post. */
    lemma StopTearsDown(s: Fields, stopHandler: bool, accepted: bool)
      ensures var t := StopResult(s, stopHandler);
        t.camera == null && t.queuedBuffers == {} && t.handedToCamera == [] && t.captureFormat == None &&
        !t.flags.listening && t.events == s.events + Notify(CameraClosed) &&
        (stopHandler ==> !t.flags.isCameraRunning && t.pending == [] && !Posts(t, accepted)) &&
        (!stopHandler ==> t.flags.isCameraRunning == s.flags.isCameraRunning && t.pending == s.pending && t.id == s.id)
    {
    }

    /** A second preview with the same negotiated format changes nothing but
        the recorded request, whatever buffers it would have allocated. */
    lemma PreviewSameFormatIsIdempotent(s: Fields, r: Request, r': Request, negotiated: CaptureFormat,
                                        pool: set<array<bv8>>, handed: seq<array<bv8>>,
                                        pool': set<array<bv8>>, handed': seq<array<bv8>>)
      ensures var t := PreviewResult(s, r, negotiated, pool, handed);
              PreviewResult(t, r', negotiated, pool', handed') == t.(requested := if t.flags.isCameraRunning && t.camera != null then r' else t.requested)
    {
    }

    /** With an open camera the negotiated format becomes the capture format,
        and the pool changes exactly when it is rebuilt. */
    lemma PreviewInstallsFormat(s: Fields, r: Request, negotiated: CaptureFormat,
                                pool: set<array<bv8>>, handed: seq<array<bv8>>)
      requires s.flags.isCameraRunning && s.camera != null
      ensures var t := PreviewResult(s, r, negotiated, pool, handed);
              t.captureFormat == Some(negotiated) && t.requested == r && t.camera == s.camera &&
              (RebuildsPool(s, negotiated) ==> t.queuedBuffers == pool && t.handedToCamera == handed) &&
              (!RebuildsPool(s, negotiated) ==> t.queuedBuffers == s.queuedBuffers && t.handedToCamera == s.handedToCamera)
    {
    }

    /** The camera index after `k` switches. */
    function SwitchedId(id: nat, k: nat): nat
      decreases k
    {
      if k == 0 then id else SwitchedId(NextId(id), k - 1)
    }

    /** One switch moves to the following index, wrapping after the last. */
    lemma NextIdSteps(id: nat)
      requires id < numberOfCameras
      ensures NextId(id) == if id + 1 < numberOfCameras then id + 1 else 0
    {
      ModuloOfAtMost(id + 1, numberOfCameras);
    }

    /** Up to a full turn, `k` switches advance the index by `k` around the
        ring of cameras. */
    lemma {:induction false} SwitchedIdIsRoundRobin(id: nat, k: nat)
      requires id < numberOfCameras && k <= numberOfCameras
      ensures SwitchedId(id, k) == if id + k < numberOfCameras then id + k else id + k - numberOfCameras
      decreases k
    {
      if k > 0 {
        NextIdSteps(id);
        SwitchedIdIsRoundRobin(NextId(id), k - 1);
      }
    }

    /** Every camera is visited: as many switches as there are cameras come
        back to the first, and no fewer do. */
    lemma SwitchesCycle(id: nat)
      requires id < numberOfCameras
      ensures SwitchedId(id, numberOfCameras) == id
      ensures forall k :: 0 < k < numberOfCameras ==> SwitchedId(id, k) != id
    {
      SwitchedIdIsRoundRobin(id, numberOfCameras);
      forall k | 0 < k < numberOfCameras
        ensures SwitchedId(id, k) != id
      {
        SwitchedIdIsRoundRobin(id, k);
      }
    }

    /** A switch that runs moves to the next camera, restarts with the last
        requested format, and leaves the attempt counter as it was before
        the open. */
    lemma SwitchRestartsNextCamera(s: Fields, o: Outcomes, cam: Camera?,
                                   pool: set<array<bv8>>, handed: seq<array<bv8>>)
      requires s.flags.isCameraRunning
      ensures var t := SwitchResult(s, o, cam, pool, handed);
              t.id == NextId(s.id) && t.requested == s.requested &&
              (o.open.Opened? ==> t.openCameraAttempts == s.openCameraAttempts) &&
              (o.open.OpenFailed? ==> t.openCameraAttempts == s.openCameraAttempts + 1)
    {
    }

    /** At most one first-frame event per opening of the camera. */
    lemma AtMostOneFirstFrame(s: Fields)
      requires Inv(s) && hasEventsHandler
      ensures FirstFramesSinceOpening(s.events) <= 1
      ensures s.flags.firstFrameReported <==> FirstFramesSinceOpening(s.events) == 1
    {
    }

    /** A delivered frame reports the first frame exactly when none was
        reported since the camera opened. */
    lemma DeliveredFrameReportsFirstOnce(s: Fields, data: array<bv8>, displayRotation: int, nowMs: nat)
      requires Inv(s) && hasEventsHandler && data in s.queuedBuffers && s.captureFormat.Some? && s.info.Some?
      ensures var t := DeliveredFrame(s, data, displayRotation, nowMs);
              FirstFramesSinceOpening(t.events) == 1 &&
              (FirstFrameAvailable in FrameEvents(s, data, displayRotation, nowMs) <==> !s.flags.firstFrameReported)
    {
      DeliveredFrameKeepsInv(s, data, displayRotation, nowMs);
    }

    /** The frame gate's bookkeeping: a frame from a stopped capturer or in a
        buffer outside the pool changes nothing (its buffer is not re-queued);
        a frame that passes the guards has its buffer handed back to the
        camera; a dropped frame is reported to no one. Only a delivered frame
        can report the first frame. */
    lemma FrameGateRequeues(s: Fields, data: array<bv8>, callbackCamera: Camera?, vFps: int32,
                            displayRotation: int, nowMs: nat)
      requires Inv(s)
      ensures var outcome := FrameGateOutcome(s, data, callbackCamera, vFps);
              var t := FrameGateResult(s, data, callbackCamera, vFps, displayRotation, nowMs);
              (outcome.Dropped? || outcome.Delivered? <==>
                 s.flags.isCameraRunning && data in s.queuedBuffers && callbackCamera == s.camera) &&
              (outcome.Dropped? <==> CountsFrame(s, data, callbackCamera) && Decimation.DropsAt(Inc32(vFps))) &&
              (outcome.Dropped? || outcome.Delivered? ==> t.handedToCamera == s.handedToCamera + [data]) &&
              (!outcome.Dropped? && !outcome.Delivered? ==> t == s) &&
              (!outcome.Delivered? ==> t.events == s.events && t.flags == s.flags)
    {
    }

    /** The frame gate changes neither the session nor the pool, so a run of
        frames keeps passing the same guards. */
    lemma FrameGateKeepsSession(s: Fields, data: array<bv8>, callbackCamera: Camera?, vFps: int32,
                                displayRotation: int, nowMs: nat)
      requires Inv(s)
      ensures var t := FrameGateResult(s, data, callbackCamera, vFps, displayRotation, nowMs);
              Inv(t) && t.flags.isCameraRunning == s.flags.isCameraRunning && t.flags.isReduceFps == s.flags.isReduceFps &&
              t.camera == s.camera && t.queuedBuffers == s.queuedBuffers
    {
      FrameGateKeepsInv(s, data, callbackCamera, vFps, displayRotation, nowMs);
    }

    /** How many of `frames`, each a callback of the current camera, the gate
        delivers when the shared counter starts at `vFps`. */
    ghost function GateDelivered(s: Fields, frames: seq<array<bv8>>, vFps: int32, displayRotation: int, nowMs: nat): nat
      requires Inv(s)
      decreases |frames|
    {
      if frames == [] then 0
      else
        var t := FrameGateResult(s, frames[0], s.camera, vFps, displayRotation, nowMs);
        var next := if CountsFrame(s, frames[0], s.camera) then Inc32(vFps) else vFps;
        FrameGateKeepsSession(s, frames[0], s.camera, vFps, displayRotation, nowMs);
        (if FrameGateOutcome(s, frames[0], s.camera, vFps).Delivered? then 1 else 0) +
        GateDelivered(t, frames[1..], next, displayRotation, nowMs)
    }

    /** With reduce-FPS on, a run of accepted frames is delivered exactly as
        the decimation counter says; so of 2N consecutive accepted frames
        exactly N reach the observers. */
    lemma {:induction false} GateDecimates(s: Fields, frames: seq<array<bv8>>, vFps: int32, displayRotation: int, nowMs: nat)
      requires Inv(s) && s.flags.isCameraRunning && s.flags.isReduceFps
      requires forall i :: 0 <= i < |frames| ==> frames[i] in s.queuedBuffers
      ensures GateDelivered(s, frames, vFps, displayRotation, nowMs) == Decimation.Delivered(vFps, |frames|)
      ensures |frames| % 2 == 0 ==> GateDelivered(s, frames, vFps, displayRotation, nowMs) == |frames| / 2
      decreases |frames|
    {
      if frames != [] {
        FrameGateKeepsSession(s, frames[0], s.camera, vFps, displayRotation, nowMs);
        var t := FrameGateResult(s, frames[0], s.camera, vFps, displayRotation, nowMs);
        assert forall i :: 0 <= i < |frames[1..]| ==> frames[1..][i] in t.queuedBuffers by {
          forall i | 0 <= i < |frames[1..]| ensures frames[1..][i] in t.queuedBuffers {
            assert frames[1..][i] == frames[i + 1];
          }
        }
        GateDecimates(t, frames[1..], Inc32(vFps), displayRotation, nowMs);
      }
      if |frames| % 2 == 0 {
        Decimation.HalfDelivered(vFps, |frames| / 2);
      }
    }

    /** onTextureFrameAvailable: a stopped capturer only returns the frame; a
        running one has reported the first frame since opening exactly once
        afterwards, and reports it on this frame exactly when it had not. */
    lemma TextureReportsFirstOnce(s: Fields, textureId: int, timestampNs: int, displayRotation: int)
      requires Inv(s)
      ensures var t := TextureResult(s, textureId, timestampNs, displayRotation);
              (!s.flags.isCameraRunning ==> t == s.(events := s.events + [TextureFrameReturned])) &&
              (s.flags.isCameraRunning && hasEventsHandler ==>
                 t.flags.firstFrameReported && FirstFramesSinceOpening(t.events) == 1 &&
                 (|t.events| > |s.events| && t.events[|s.events|] == FirstFrameAvailable <==> !s.flags.firstFrameReported))
    {
      TextureKeepsInv(s, textureId, timestampNs, displayRotation);
    }

    /** startCapture once initialized with a surface helper: while running it
        is a no-op; otherwise the capturer runs with the start task posted
        exactly when the post is accepted, and a refused post leaves it
        stopped and reports the failed start. */
    lemma StartRequestOutcomes(s: Fields, r: Request, accepted: bool)
      requires s.flags.hasSurfaceHelper
      ensures var t := StartRequestResult(s, r, accepted);
              (s.flags.isCameraRunning ==> t == s) &&
              (!s.flags.isCameraRunning ==>
                 (t.flags.isCameraRunning <==> accepted) &&
                 (accepted ==> t.pending == s.pending + [StartTask(r)] && t.events == s.events) &&
                 (!accepted ==> t.pending == s.pending && t.events[|s.events|] == CapturerStarted(false)))
    {
    }

    lemma OpenFailedKeepsPendingSwitch(s: Fields, r: Request, accepted: bool)
      ensures OpenFailedResult(s, r, accepted).flags.pendingCameraSwitch == s.flags.pendingCameraSwitch
    {
    }

    lemma OpenedKeepsPendingSwitch(s: Fields, r: Request, o: Outcomes, cam: Camera?,
                                   pool: set<array<bv8>>, handed: seq<array<bv8>>)
      requires o.open.Opened?
      ensures OpenedResult(s, r, o, cam, pool, handed).flags.pendingCameraSwitch == s.flags.pendingCameraSwitch
    {
      var info := Some(CameraInfo(o.open.facing, o.open.sensorOrientation));
      if o.configureOk {
        var session := s.(camera := cam, info := info);
        assert PreviewResult(session, r, o.negotiated, pool, handed).flags == s.flags;
      }
    }

    /** The start task keeps the pending-switch flag, whichever way the open
        goes. */
    lemma StartCaptureKeepsPendingSwitch(s: Fields, r: Request, o: Outcomes, cam: Camera?,
                                         pool: set<array<bv8>>, handed: seq<array<bv8>>)
      ensures StartCaptureResult(s, r, o, cam, pool, handed).flags.pendingCameraSwitch == s.flags.pendingCameraSwitch
    {
      if s.flags.isCameraRunning && s.camera == null {
        var s1 := Opening(s);
        if o.open.OpenFailed? {
          OpenFailedKeepsPendingSwitch(s1, r, o.postAccepted);
          assert StartCaptureResult(s, r, o, cam, pool, handed) == OpenFailedResult(s1, r, o.postAccepted);
        } else {
          OpenedKeepsPendingSwitch(s1, r, o, cam, pool, handed);
          assert StartCaptureResult(s, r, o, cam, pool, handed) == OpenedResult(s1, r, o, cam, pool, handed);
        }
      }
    }

    /** The camera-thread tasks other than the switch task's end keep the
        pending-switch flag. */
    lemma TasksKeepPendingSwitch(s: Fields, r: Request, o: Outcomes, cam: Camera?,
                                 pool: set<array<bv8>>, handed: seq<array<bv8>>, stopHandler: bool)
      ensures StopResult(s, stopHandler).flags.pendingCameraSwitch == s.flags.pendingCameraSwitch
      ensures StartCaptureResult(s, r, o, cam, pool, handed).flags.pendingCameraSwitch == s.flags.pendingCameraSwitch
      ensures SwitchResult(s, o, cam, pool, handed).flags.pendingCameraSwitch == s.flags.pendingCameraSwitch
      ensures PreviewResult(s, r, o.negotiated, pool, handed).flags == s.flags
    {
      StartCaptureKeepsPendingSwitch(s, r, o, cam, pool, handed);
      if s.flags.isCameraRunning {
        var stopped := StopResult(s, false).(id := NextId(s.id));
        StartCaptureKeepsPendingSwitch(stopped, s.requested, o, cam, pool, handed);
        assert SwitchResult(s, o, cam, pool, handed) == StartCaptureResult(stopped, s.requested, o, cam, pool, handed);
      }
    }

    /** Of the entry points, startCapture keeps the pending-switch flag, a
        switch request only ever sets it, and the switch task clears it. */
    lemma PendingSwitchClearedOnlyByTask(s: Fields, r: Request, accepted: bool, notify: bool)
      ensures StartRequestResult(s, r, accepted).flags.pendingCameraSwitch == s.flags.pendingCameraSwitch
      ensures s.flags.pendingCameraSwitch || numberOfCameras >= 2 ==> SwitchRequestResult(s, notify, accepted).flags.pendingCameraSwitch
      ensures numberOfCameras < 2 ==> SwitchRequestResult(s, notify, accepted).flags == s.flags
      ensures !SwitchDoneResult(s, notify).flags.pendingCameraSwitch
    {
    }

    /** Frame callbacks change only the first-frame flag among the flags. */
    lemma FrameCallbacksKeepFlags(s: Fields, data: array<bv8>, callbackCamera: Camera?, vFps: int32,
                                  textureId: int, timestampNs: int, displayRotation: int, nowMs: nat)
      requires Inv(s)
      ensures FrameGateResult(s, data, callbackCamera, vFps, displayRotation, nowMs).flags ==
              s.flags.(firstFrameReported := FrameGateResult(s, data, callbackCamera, vFps, displayRotation, nowMs).flags.firstFrameReported)
      ensures TextureResult(s, textureId, timestampNs, displayRotation).flags ==
              s.flags.(firstFrameReported := TextureResult(s, textureId, timestampNs, displayRotation).flags.firstFrameReported)
    {
      FrameGateRequeues(s, data, callbackCamera, vFps, displayRotation, nowMs);
      if FrameGateOutcome(s, data, callbackCamera, vFps).Delivered? {
        assert FrameGateResult(s, data, callbackCamera, vFps, displayRotation, nowMs)
            == DeliveredFrame(s, data, displayRotation, nowMs);
      }
      if s.flags.isCameraRunning {
        assert TextureResult(s, textureId, timestampNs, displayRotation).flags == TextureFirstFrame(s).flags;
      }
    }

    /** The frames setByteBufferFrameCaptured hands on in state `s`: one, to
        the primary observer, while the AR camera is not in use. */
    ghost function ExternalFrames(s: Fields, data: array<bv8>, width: nat, height: nat, rotation: int, timestampNs: int): seq<Event>
    {
      if s.flags.isUsedARCamera then [] else [ByteBufferFrame(Primary, data, width, height, rotation, timestampNs)]
    }

    /** Some callback in `es` hands a frame to the primary observer. */
    ghost predicate HasPrimaryFrame(es: seq<Event>)
    {
      exists i :: 0 <= i < |es| && es[i].ByteBufferFrame? && es[i].observer == Primary
    }

    /** In every state the primary observer has exactly one source: the
        camera's preview frames while the AR camera is in use, frames
        forwarded by setByteBufferFrameCaptured otherwise. */
    lemma PrimaryObserverHasOneSource(s: Fields, data: array<bv8>, displayRotation: int, nowMs: nat,
                                      external: array<bv8>, width: nat, height: nat, rotation: int, timestampNs: int)
      requires s.captureFormat.Some? && s.info.Some?
      ensures HasPrimaryFrame(ObserverFrames(s, data, displayRotation, nowMs)) <==> s.flags.isUsedARCamera
      ensures HasPrimaryFrame(ExternalFrames(s, external, width, height, rotation, timestampNs)) <==> !s.flags.isUsedARCamera
    {
      var es := ObserverFrames(s, data, displayRotation, nowMs);
      if s.flags.isUsedARCamera {
        assert es[|es| - 1].observer == Primary;
      } else {
        assert ExternalFrames(s, external, width, height, rotation, timestampNs)[0].observer == Primary;
      }
    }

    /** A switch whose post is refused leaves the flag set with no task to
        clear it, so every later request is rejected as already pending. */
    lemma RefusedSwitchBlocksLaterSwitches(s: Fields, notify: bool, accepted: bool, notify': bool, accepted': bool)
      requires numberOfCameras >= 2 && !s.flags.pendingCameraSwitch && !Posts(s, accepted)
      ensures var t := SwitchRequestResult(s, notify, accepted);
              t.flags.pendingCameraSwitch && t.pending == s.pending &&
              SwitchRequestResult(t, notify', accepted') ==
                t.(events := t.events + if notify' then [SwitchError(SwitchPending)] else [])
    {
    }

    /** A capturer as the constructor leaves it: nothing is initialized,
        running, open, pooled, pending or reported, and the AR camera is in
        use. */
    static ghost function InitialState(cameraId: nat): Fields
    {
      Fields(Flags(false, false, false, false, false, false, true, false, false),
             null, None, cameraId, Request(0, 0, 0), None, {}, [], 0, [], [])
    }

    /** The field assignments of the constructor, once its checks have
        passed: the camera count is positive and the id is known. */
    constructor (numberOfCameras: PositiveNat, cameraId: nat, hasEventsHandler: bool,
                 captureToTexture: bool, counter: FrameCounter)
      ensures Valid()
      ensures this.numberOfCameras == numberOfCameras && this.hasEventsHandler == hasEventsHandler
      ensures isCapturingToTexture == captureToTexture && this.counter == counter
      ensures State() == InitialState(cameraId)
    {
      this.numberOfCameras := numberOfCameras;
      this.hasEventsHandler := hasEventsHandler;
      isCapturingToTexture := captureToTexture;
      this.counter := counter;
      id := cameraId;
      flags := Flags(false, false, false, false, false, false, true, false, false);
      camera, info := null, None;
      requested := Request(0, 0, 0);
      captureFormat := None;
      queuedBuffers, handedToCamera := {}, [];
      openCameraAttempts := 0;
      pending, events := [], [];
    }

    /** The public constructor: a device without cameras throws, so does a
        name the enumerator cannot look up, and a missing or empty name
        selects camera 0. */
    static method Construct(numberOfCameras: nat, name: CameraName, hasEventsHandler: bool,
                            captureToTexture: bool, counter: FrameCounter) returns (c: Capturer?, call: Call)
      ensures call == (if numberOfCameras == 0 then Threw(NoCamerasAvailable)
                       else if name.Named? && name.lookup.None? then Threw(CameraLookupFailed)
                       else Returned)
      ensures c == null <==> call.Threw?
      ensures c != null ==> fresh(c) && c.Valid() && c.numberOfCameras == numberOfCameras
      ensures c != null ==> c.hasEventsHandler == hasEventsHandler && c.isCapturingToTexture == captureToTexture
      ensures c != null ==> c.counter == counter
      ensures c != null ==> c.State() == InitialState(if name.Named? then name.lookup.value else 0)
    {
      if numberOfCameras == 0 {
        return null, Threw(NoCamerasAvailable);
      }
      var cameraId := 0;
      if name.Named? {
        if name.lookup.None? {
          return null, Threw(CameraLookupFailed);
        }
        cameraId := name.lookup.value;
      }
      c := new Capturer(numberOfCameras, cameraId, hasEventsHandler, captureToTexture, counter);
      call := Returned;
    }

    /** `create`: the constructor's exceptions become a missing capturer. */
    static method Create(numberOfCameras: nat, name: CameraName, hasEventsHandler: bool,
                         captureToTexture: bool, counter: FrameCounter) returns (c: Capturer?)
      ensures c == null <==> numberOfCameras == 0 || (name.Named? && name.lookup.None?)
      ensures c != null ==> fresh(c) && c.Valid() && c.numberOfCameras == numberOfCameras
      ensures c != null ==> c.hasEventsHandler == hasEventsHandler && c.isCapturingToTexture == captureToTexture
      ensures c != null ==> c.counter == counter
      ensures c != null ==> c.State() == InitialState(if name.Named? then name.lookup.value else 0)
    {
      var call;
      c, call := Construct(numberOfCameras, name, hasEventsHandler, captureToTexture, counter);
    }

    /** setARCameraObserver. */
    method SetARCameraObserver(present: bool)
      requires Valid()
      modifies this`flags
      ensures Valid()
      ensures flags == old(flags).(hasARObserver := present)
    {
      flags := flags.(hasARObserver := present);
    }

    /** setUsedARCamera. */
    method SetUsedARCamera(used: bool)
      requires Valid()
      modifies this`flags
      ensures Valid()
      ensures flags == old(flags).(isUsedARCamera := used)
    {
      flags := flags.(isUsedARCamera := used);
    }

    /** setReduceFps. */
    method SetReduceFps(reduce: bool)
      requires Valid()
      modifies this`flags
      ensures Valid()
      ensures flags == old(flags).(isReduceFps := reduce)
    {
      flags := flags.(isReduceFps := reduce);
    }

    /** maybePostDelayedOnCameraThread; the delay itself is not modelled. */
    method MaybePostOnCameraThread(t: Task, accepted: bool) returns (posted: bool)
      modifies this`pending
      ensures posted == Posts(old(State()), accepted)
      ensures pending == old(pending) + if posted then [t] else []
    {
      posted := flags.hasSurfaceHelper && flags.isCameraRunning && accepted;
      if posted {
        pending := pending + [t];
      }
    }

    /** initialize: an application context and a frame observer are required,
        and only once. */
    method Initialize(contextGiven: bool, observerGiven: bool, surfaceHelperGiven: bool) returns (c: Call)
      requires Valid()
      modifies this
      ensures Valid()
      ensures !contextGiven ==> c == Threw(ContextNotSet)
      ensures contextGiven && !observerGiven ==> c == Threw(ObserverNotSet)
      ensures contextGiven && observerGiven && old(flags.initialized) ==> c == Threw(AlreadyInitialized)
      ensures c.Threw? ==> State() == old(State())
      ensures c.Returned? <==> contextGiven && observerGiven && !old(flags.initialized)
      ensures c.Returned? ==> State() == old(State()).(flags := old(State()).flags.(initialized := true, hasSurfaceHelper := surfaceHelperGiven))
    {
      if !contextGiven {
        return Threw(ContextNotSet);
      }
      if !observerGiven {
        return Threw(ObserverNotSet);
      }
      if flags.initialized {
        return Threw(AlreadyInitialized);
      }
      flags := flags.(initialized := true, hasSurfaceHelper := surfaceHelperGiven);
      c := Returned;
    }

    /** startCapture: refuses before initialization, reports failure without
        a surface helper, does nothing while running, and otherwise posts the
        start task; a refused post resets the running flag and reports the
        failure. */
    method StartCapture(r: Request, accepted: bool) returns (c: Call)
      requires Valid()
      modifies this
      ensures Valid()
      ensures !old(flags.initialized) ==> c == Threw(StartUninitialized) && State() == old(State())
      ensures old(flags.initialized) ==> c == Returned && State() == StartRequestResult(old(State()), r, accepted)
    {
      if !flags.initialized {
        return Threw(StartUninitialized);
      }
      c := Returned;
      ghost var s0 := State();
      StartRequestKeepsInv(s0, r, accepted);
      if !flags.hasSurfaceHelper {
        events := events + [CapturerStarted(false)] + Notify(CameraError(NoSurfaceTexture));
        assert State() == StartRequestResult(s0, r, accepted);
        return;
      }
      if flags.isCameraRunning {
        return;
      }
      flags := flags.(isCameraRunning := true);
      var posted := MaybePostOnCameraThread(StartTask(r), accepted);
      if !posted {
        flags := flags.(isCameraRunning := false);
        events := events + [CapturerStarted(false)] + Notify(CameraError(CouldNotPost));
      }
      assert State() == StartRequestResult(s0, r, accepted);
    }

    /** stopCaptureOnCameraThread. */
    method StopCaptureOnCameraThread(stopHandler: bool)
      requires Valid() && (stopHandler ==> flags.hasSurfaceHelper)
      modifies this
      ensures Valid()
      ensures State() == StopResult(old(State()), stopHandler)
      ensures camera == null && queuedBuffers == {} && captureFormat == None
      ensures stopHandler ==> !flags.isCameraRunning && pending == []
    {
      ghost var s0 := State();
      StopKeepsInv(s0, stopHandler);
      flags := flags.(listening := false, isCameraRunning := if stopHandler then false else flags.isCameraRunning);
      if stopHandler {
        pending := [];
      }
      handedToCamera := [];
      queuedBuffers := {};
      captureFormat := None;
      camera := null;
      events := events + Notify(CameraClosed);
      assert State() == StopResult(s0, stopHandler);
    }

    /** The catch block of startCaptureOnCameraThread: release the camera and
        report that the start failed. */
    method RecoverFromFailedStart()
      requires Valid() && flags.hasSurfaceHelper
      modifies this
      ensures Valid()
      ensures State() == FailedStart(old(State()))
    {
      ghost var s0 := State();
      FailedStartKeepsInv(s0);
      StopCaptureOnCameraThread(true);
      events := events + [CapturerStarted(false)] + Notify(CameraError(CannotStart));
      assert State() == FailedStart(s0);
    }

    /** The loop of startPreviewOnCameraThread that fills the pool with new
        buffers of the frame size, handing each to the camera. */
    static method AllocatePool(f: CaptureFormat) returns (pool: set<array<bv8>>, handed: seq<array<bv8>>)
      ensures FreshPool(pool, handed, f) && forall b :: b in pool ==> fresh(b)
    {
      pool, handed := {}, [];
      var frameSize := FrameSize(f);
      for i := 0 to NumberOfCaptureBuffers
        invariant |pool| == i && |handed| == i
        invariant forall j, l :: 0 <= j < l < i ==> handed[j] != handed[l]
        invariant forall b :: b in pool ==> b in handed
        invariant forall j :: 0 <= j < i ==> handed[j] in pool
        invariant forall b :: b in pool ==> fresh(b) && b.Length == frameSize
      {
        var buffer := new bv8[frameSize];
        pool := pool + {buffer};
        handed := handed + [buffer];
      }
    }

    /** startPreviewOnCameraThread with the format the driver negotiated. */
    method StartPreviewOnCameraThread(r: Request, negotiated: CaptureFormat)
      requires Valid()
      modifies this
      ensures Valid()
      ensures State() == PreviewResult(old(State()), r, negotiated, queuedBuffers, handedToCamera)
      ensures RebuildsPool(old(State()), negotiated) ==>
        FreshPool(queuedBuffers, handedToCamera, negotiated) && forall b :: b in queuedBuffers ==> fresh(b)
      ensures !RebuildsPool(old(State()), negotiated) ==> queuedBuffers == old(queuedBuffers)
    {
      if !flags.isCameraRunning || camera == null {
        return;
      }
      ghost var s0 := State();
      requested := r;
      if captureFormat == Some(negotiated) {
        assert State() == s0.(requested := r);
        return;
      }
      captureFormat := Some(negotiated);
      if !isCapturingToTexture {
        // stopPreview and setPreviewCallbackWithBuffer(null) empty the
        // camera's queue; the pool is cleared and refilled, and each new
        // buffer is handed to the camera
        queuedBuffers, handedToCamera := AllocatePool(negotiated);
      }
      assert State() == PreviewResult(s0, r, negotiated, queuedBuffers, handedToCamera);
      PreviewKeepsInv(s0, r, negotiated, queuedBuffers, handedToCamera);
    }

    /** startCaptureOnCameraThread: opens the current camera, retrying a
        failed open after a delay until the ceiling, and starts the preview. */
    method StartCaptureOnCameraThread(r: Request, o: Outcomes)
      requires Valid()
      modifies this
      ensures Valid()
      ensures State() == StartCaptureResult(old(State()), r, o, camera, queuedBuffers, handedToCamera)
      ensures Opens(old(State()), o) ==> IsOpenedCamera(camera, old(id), o) && fresh(camera) && camera.zoom == 0
      ensures Opens(old(State()), o) && !isCapturingToTexture ==>
        FreshPool(queuedBuffers, handedToCamera, o.negotiated) && forall b :: b in queuedBuffers ==> fresh(b)
    {
      if !flags.isCameraRunning || camera != null {
        return;
      }
      ghost var s0 := State();
      OpeningKeepsInv(s0);
      flags := flags.(firstFrameReported := false);
      events := events + Notify(CameraOpening(id));
      assert State() == Opening(s0);
      if o.open.OpenFailed? {
        RetryOrGiveUp(r, o.postAccepted);
      } else {
        ConfigureOpenedCamera(r, o);
      }
    }

    /** The failed-open branch of startCaptureOnCameraThread. */
    method RetryOrGiveUp(r: Request, accepted: bool)
      requires Valid() && flags.isCameraRunning && camera == null
      modifies this
      ensures Valid()
      ensures State() == OpenFailedResult(old(State()), r, accepted)
    {
      ghost var s0 := State();
      openCameraAttempts := openCameraAttempts + 1;
      if openCameraAttempts < OpenRetry.MaxOpenCameraAttempts {
        var _ := MaybePostOnCameraThread(RetryTask(r), accepted);
        assert State() == OpenFailedResult(s0, r, accepted);
      } else {
        assert State() == s0.(openCameraAttempts := s0.openCameraAttempts + 1);
        RecoverFromFailedStart();
      }
    }

    /** The opened-camera branch of startCaptureOnCameraThread. */
    method ConfigureOpenedCamera(r: Request, o: Outcomes)
      requires Valid() && flags.isCameraRunning && camera == null && o.open.Opened?
      modifies this
      ensures Valid()
      ensures State() == OpenedResult(old(State()), r, o, camera, queuedBuffers, handedToCamera)
      ensures o.configureOk ==> IsOpenedCamera(camera, old(id), o) && fresh(camera) && camera.zoom == 0
      ensures o.configureOk && !isCapturingToTexture ==>
        FreshPool(queuedBuffers, handedToCamera, o.negotiated) && forall b :: b in queuedBuffers ==> fresh(b)
    {
      ghost var s0 := State();
      camera := new Camera.Open(id, o.open.facing, o.open.sensorOrientation, o.open.maxZoom);
      info := Some(CameraInfo(o.open.facing, o.open.sensorOrientation));
      ghost var s1 := State();
      assert s1 == s0.(camera := camera, info := info);
      InstallCameraKeepsInv(s0, camera, o);
      if !o.configureOk {
        RecoverFromFailedStart();
        assert State() == FailedStart(s0.(info := s1.info));
        return;
      }
      StartPreviewOnCameraThread(r, o.negotiated);
      ghost var s2 := State();
      assert s2 == PreviewResult(s1, r, o.negotiated, queuedBuffers, handedToCamera);
      events := events + [CapturerStarted(true)];
      if isCapturingToTexture {
        flags := flags.(listening := true);
      }
      OpenedKeepsInv(s0, r, o, camera, queuedBuffers, handedToCamera);
      assert State() == OpenedResult(s0, r, o, camera, queuedBuffers, handedToCamera);
    }

    /** switchCameraOnCameraThread. */
    method SwitchCameraOnCameraThread(o: Outcomes)
      requires Valid()
      modifies this
      ensures Valid()
      ensures State() == SwitchResult(old(State()), o, camera, queuedBuffers, handedToCamera)
      ensures old(flags.isCameraRunning) && o.open.Opened? && o.configureOk ==>
        IsOpenedCamera(camera, NextId(old(id)), o) && fresh(camera) && camera.zoom == 0
      ensures old(flags.isCameraRunning) && o.open.Opened? && o.configureOk && !isCapturingToTexture ==>
        FreshPool(queuedBuffers, handedToCamera, o.negotiated) && forall b :: b in queuedBuffers ==> fresh(b)
    {
      if !flags.isCameraRunning {
        return;
      }
      ghost var s0 := State();
      StopCaptureOnCameraThread(false);
      id := NextId(id);
      assert State() == StopResult(s0, false).(id := NextId(s0.id));
      StartCaptureOnCameraThread(requested, o);
    }

    /** The start task: resets the attempt counter and starts. */
    method RunStartTask(k: nat, o: Outcomes)
      requires Valid() && k < |pending| && pending[k].StartTask?
      modifies this
      ensures Valid()
      ensures State() == StartCaptureResult(old(State()).(pending := Without(old(pending), k), openCameraAttempts := 0),
                                            old(pending[k]).request, o, camera, queuedBuffers, handedToCamera)
      ensures Opens(old(State()), o) ==> IsOpenedCamera(camera, old(id), o) && fresh(camera) && camera.zoom == 0
      ensures Opens(old(State()), o) && !isCapturingToTexture ==>
        FreshPool(queuedBuffers, handedToCamera, o.negotiated) && forall b :: b in queuedBuffers ==> fresh(b)
    {
      ghost var s0 := State();
      var t := pending[k];
      pending := Without(pending, k);
      openCameraAttempts := 0;
      assert State() == s0.(pending := Without(s0.pending, k), openCameraAttempts := 0);
      StartCaptureOnCameraThread(t.request, o);
    }

    /** A delayed retry of the open. */
    method RunRetryTask(k: nat, o: Outcomes)
      requires Valid() && k < |pending| && pending[k].RetryTask?
      modifies this
      ensures Valid()
      ensures State() == StartCaptureResult(old(State()).(pending := Without(old(pending), k)),
                                            old(pending[k]).request, o, camera, queuedBuffers, handedToCamera)
      ensures Opens(old(State()), o) ==> IsOpenedCamera(camera, old(id), o) && fresh(camera) && camera.zoom == 0
      ensures Opens(old(State()), o) && !isCapturingToTexture ==>
        FreshPool(queuedBuffers, handedToCamera, o.negotiated) && forall b :: b in queuedBuffers ==> fresh(b)
    {
      ghost var s0 := State();
      var t := pending[k];
      pending := Without(pending, k);
      assert State() == s0.(pending := Without(s0.pending, k));
      StartCaptureOnCameraThread(t.request, o);
    }

    /** startCapture once initialized: without a surface helper the start
        fails at once; while running nothing happens; otherwise the
        capturer is marked running and the start task is posted, and a
        refused post undoes the mark and reports the failure. */
    ghost function StartRequestResult(s: Fields, r: Request, accepted: bool): Fields
    {
      if !s.flags.hasSurfaceHelper then s.(events := s.events + [CapturerStarted(false)] + Notify(CameraError(NoSurfaceTexture)))
      else if s.flags.isCameraRunning then s
      else if accepted then s.(flags := s.flags.(isCameraRunning := true), pending := s.pending + [StartTask(r)])
      else s.(events := s.events + [CapturerStarted(false)] + Notify(CameraError(CouldNotPost)))
    }

    /** switchCamera, on the calling thread. */
    ghost function SwitchRequestResult(s: Fields, notify: bool, accepted: bool): Fields
    {
      if numberOfCameras < 2 then s.(events := s.events + if notify then [SwitchError(NoCameraToSwitchTo)] else [])
      else if s.flags.pendingCameraSwitch then s.(events := s.events + if notify then [SwitchError(SwitchPending)] else [])
      else
        var posted := Posts(s, accepted);
        s.(flags := s.flags.(pendingCameraSwitch := true),
           pending := s.pending + (if posted then [SwitchTask(notify)] else []),
           events := s.events + if !posted && notify then [SwitchError(CameraIsStopped)] else [])
    }

    /** The end of the switch task: the pending flag is cleared and the
        switch handler, when given, learns whether the camera now faces the
        front. */
    ghost function SwitchDoneResult(s: Fields, notify: bool): Fields
    {
      s.(flags := s.flags.(pendingCameraSwitch := false),
         events := s.events + if notify && s.info.Some? then [SwitchDone(s.info.value.facing == Orientation.Front)] else [])
    }

    /** The switch task: switches, then clears the pending flag and notifies. */
    method RunSwitchTask(k: nat, o: Outcomes) returns (c: Call)
      requires Valid() && k < |pending| && pending[k].SwitchTask?
      modifies this
      ensures Valid()
      ensures var switched := SwitchResult(old(State()).(pending := Without(old(pending), k)), o, camera, queuedBuffers, handedToCamera);
              c == (if old(pending[k]).notify && switched.info.None? then Threw(NullPointer) else Returned) &&
              State() == SwitchDoneResult(switched, old(pending[k]).notify)
      ensures old(flags.isCameraRunning) && o.open.Opened? && o.configureOk ==>
        IsOpenedCamera(camera, NextId(old(id)), o) && fresh(camera) && camera.zoom == 0
      ensures old(flags.isCameraRunning) && o.open.Opened? && o.configureOk && !isCapturingToTexture ==>
        FreshPool(queuedBuffers, handedToCamera, o.negotiated) && forall b :: b in queuedBuffers ==> fresh(b)
    {
      ghost var s0 := State();
      var t := pending[k];
      pending := Without(pending, k);
      assert State() == s0.(pending := Without(s0.pending, k));
      SwitchCameraOnCameraThread(o);
      c := FinishSwitch(t.notify);
    }

    /** The statements of the switch task after switchCameraOnCameraThread;
        `info.facing` is dereferenced only when a switch handler was given. */
    method FinishSwitch(notify: bool) returns (c: Call)
      requires Valid()
      modifies this
      ensures Valid()
      ensures c == (if notify && old(info).None? then Threw(NullPointer) else Returned)
      ensures State() == SwitchDoneResult(old(State()), notify)
    {
      ghost var s0 := State();
      c := Returned;
      var done := [];
      if notify {
        if info.None? {
          c := Threw(NullPointer);
        } else {
          done := [SwitchDone(info.value.facing == Orientation.Front)];
        }
      }
      SwitchDoneKeepsInv(s0, notify);
      flags := flags.(pendingCameraSwitch := false);
      events := events + done;
      assert State() == SwitchDoneResult(s0, notify);
    }

    /** The task posted by changeCaptureFormat. */
    method RunChangeFormatTask(k: nat, negotiated: CaptureFormat)
      requires Valid() && k < |pending| && pending[k].ChangeFormatTask?
      modifies this
      ensures Valid()
      ensures State() == PreviewResult(old(State()).(pending := Without(old(pending), k)),
                                       old(pending[k]).request, negotiated, queuedBuffers, handedToCamera)
      ensures RebuildsPool(old(State()), negotiated) ==>
        FreshPool(queuedBuffers, handedToCamera, negotiated) && forall b :: b in queuedBuffers ==> fresh(b)
      ensures !RebuildsPool(old(State()), negotiated) ==> queuedBuffers == old(queuedBuffers)
    {
      ghost var s0 := State();
      var t := pending[k];
      pending := Without(pending, k);
      assert State() == s0.(pending := Without(s0.pending, k));
      StartPreviewOnCameraThread(t.request, negotiated);
    }

    /** The task posted by stopCapture. */
    method RunStopTask(k: nat)
      requires Valid() && k < |pending| && pending[k].StopTask?
      modifies this
      ensures Valid()
      ensures State() == StopResult(old(State()).(pending := Without(old(pending), k)), true)
    {
      ghost var s0 := State();
      pending := Without(pending, k);
      assert State() == s0.(pending := Without(s0.pending, k));
      StopCaptureOnCameraThread(true);
    }

    /** switchCamera: rejects the request with fewer than two cameras or while
        a switch is pending; otherwise marks a switch pending and posts it.
        The flag is not cleared when the post is refused. */
    method SwitchCamera(notify: bool, accepted: bool)
      requires Valid()
      modifies this
      ensures Valid()
      ensures numberOfCameras < 2 ==>
        State() == old(State()).(events := old(events) + if notify then [SwitchError(NoCameraToSwitchTo)] else [])
      ensures numberOfCameras >= 2 && old(flags.pendingCameraSwitch) ==>
        State() == old(State()).(events := old(events) +
                                 if notify then [SwitchError(SwitchPending)] else [])
      ensures numberOfCameras >= 2 && !old(flags.pendingCameraSwitch) ==>
        var posted := Posts(old(State()), accepted);
        State() == old(State()).(flags := old(State()).flags.(pendingCameraSwitch := true),
                                 pending := old(pending) + (if posted then [SwitchTask(notify)] else []),
                                 events := old(events) + if !posted && notify then [SwitchError(CameraIsStopped)] else [])
    {
      ghost var s0 := State();
      SwitchRequestKeepsInv(s0, notify, accepted);
      var more := [];
      if numberOfCameras < 2 {
        if notify {
          more := [SwitchError(NoCameraToSwitchTo)];
        }
      } else if flags.pendingCameraSwitch {
        if notify {
          more := [SwitchError(SwitchPending)];
        }
      } else {
        flags := flags.(pendingCameraSwitch := true);
        var posted := MaybePostOnCameraThread(SwitchTask(notify), accepted);
        if !posted && notify {
          more := [SwitchError(CameraIsStopped)];
        }
      }
      events := events + more;
      assert State() == SwitchRequestResult(s0, notify, accepted);
    }

    /** changeCaptureFormat: posts the reconfiguration. */
    method ChangeCaptureFormat(r: Request, accepted: bool)
      requires Valid()
      modifies this
      ensures Valid()
      ensures State() == old(State()).(pending := old(pending) + if Posts(old(State()), accepted) then [ChangeFormatTask(r)] else [])
    {
      ghost var s0 := State();
      var _ := MaybePostOnCameraThread(ChangeFormatTask(r), accepted);
      assert State() == s0.(pending := s0.pending + if Posts(s0, accepted) then [ChangeFormatTask(r)] else []);
    }

    /** stopCapture: on a stopped capturer it returns without posting and
        without telling the observer. Otherwise it waits for the stop task;
        when that ran in time the session is torn down, and when the wait
        timed out the task is still pending and the timeout is reported.
        Either way the observer learns that capture stopped. */
    method StopCapture(accepted: bool, timedOut: bool)
      requires Valid()
      modifies this
      ensures Valid()
      ensures !Posts(old(State()), accepted) ==> State() == old(State())
      ensures Posts(old(State()), accepted) && timedOut ==>
        State() == old(State()).(pending := old(pending) + [StopTask],
                                 events := old(events) + Notify(CameraError(StopTimeout)) + [CapturerStopped])
      ensures Posts(old(State()), accepted) && !timedOut ==>
        var stopped := StopResult(old(State()), true);
        State() == stopped.(events := stopped.events + [CapturerStopped])
    {
      ghost var s0 := State();
      var posted := MaybePostOnCameraThread(StopTask, accepted);
      if !posted {
        return;
      }
      ghost var s1 := State();
      assert s1 == s0.(pending := s0.pending + [StopTask]);
      assert Inv(s1);
      var more;
      if timedOut {
        more := Notify(CameraError(StopTimeout)) + [CapturerStopped];
      } else {
        // the stop task ran before the wait ended
        StopCaptureOnCameraThread(true);
        assert State() == StopResult(s0, true);
        more := [CapturerStopped];
      }
      ghost var s2 := State();
      NeutralEventsKeepInv(s2, more);
      events := events + more;
      assert State() == s2.(events := s2.events + more);
    }

    /** onPreviewFrame: the frame gate for raw buffers. */
    method OnPreviewFrame(data: array<bv8>, callbackCamera: Camera?, displayRotation: int, nowMs: nat)
      returns (outcome: FrameOutcome)
      requires Valid()
      modifies this, counter
      ensures Valid()
      ensures outcome == FrameGateOutcome(old(State()), data, callbackCamera, old(counter.vFps))
      ensures State() == FrameGateResult(old(State()), data, callbackCamera, old(counter.vFps), displayRotation, nowMs)
      ensures counter.vFps == if CountsFrame(old(State()), data, callbackCamera) then Inc32(old(counter.vFps)) else old(counter.vFps)
    {
      ghost var s0 := State();
      ghost var v0 := counter.vFps;
      FrameGateKeepsInv(s0, data, callbackCamera, v0, displayRotation, nowMs);
      if !flags.isCameraRunning {
        return CameraStopped;
      }
      if data !in queuedBuffers {
        return StaleBuffer;
      }
      if camera != callbackCamera {
        return Crashed(UnexpectedCamera);
      }
      if flags.isReduceFps {
        counter.vFps := Inc32(counter.vFps);
        if Decimation.DropsAt(counter.vFps) {
          handedToCamera := handedToCamera + [data];
          assert State() == FrameGateResult(s0, data, callbackCamera, v0, displayRotation, nowMs);
          return Dropped;
        }
      }
      var timestampNs := nowMs * 1_000_000;
      var first := if hasEventsHandler && !flags.firstFrameReported then [FirstFrameAvailable] else [];
      if hasEventsHandler && !flags.firstFrameReported {
        flags := flags.(firstFrameReported := true);
      }
      var f := captureFormat.value;
      var rotation := Orientation.FrameOrientation(info.value.orientation, info.value.facing, displayRotation);
      var observed :=
        (if flags.hasARObserver then [ByteBufferFrame(AR, data, f.width, f.height, rotation, timestampNs)] else []) +
        (if flags.isUsedARCamera then [ByteBufferFrame(Primary, data, f.width, f.height, rotation, timestampNs)] else []);
      assert observed == ObserverFrames(s0, data, displayRotation, nowMs);
      events := events + (first + observed);
      handedToCamera := handedToCamera + [data];
      assert State() == FrameGateResult(s0, data, callbackCamera, v0, displayRotation, nowMs);
      outcome := Delivered;
    }

    /** onTextureFrameAvailable: its guards and the first-frame event. */
    method OnTextureFrameAvailable(textureId: int, timestampNs: int, displayRotation: int) returns (outcome: FrameOutcome)
      requires Valid()
      modifies this
      ensures Valid()
      ensures outcome == TextureOutcome(old(State()))
      ensures State() == TextureResult(old(State()), textureId, timestampNs, displayRotation)
    {
      ghost var s0 := State();
      TextureKeepsInv(s0, textureId, timestampNs, displayRotation);
      if !flags.isCameraRunning {
        events := events + [TextureFrameReturned];
        assert State() == TextureResult(s0, textureId, timestampNs, displayRotation);
        return CameraStopped;
      }
      if hasEventsHandler && !flags.firstFrameReported {
        events := events + [FirstFrameAvailable];
        flags := flags.(firstFrameReported := true);
      }
      // getFrameOrientation reads |info|; the statistics, present exactly
      // while a camera is open, count the frame; the format gives its size
      if info.None? || camera == null || captureFormat.None? {
        assert State() == TextureResult(s0, textureId, timestampNs, displayRotation);
        return Crashed(NullPointer);
      }
      var rotation := Orientation.FrameOrientation(info.value.orientation, info.value.facing, displayRotation);
      var flipped := info.value.facing == Orientation.Front;
      events := events + [TextureFrame(captureFormat.value.width, captureFormat.value.height, textureId, flipped, rotation, timestampNs)];
      assert State() == TextureResult(s0, textureId, timestampNs, displayRotation);
      outcome := Delivered;
    }

    /** setByteBufferFrameCaptured: forwards an externally produced frame to
        the primary observer only when the AR camera is not in use; before
        initialize there is no frame observer to forward to. */
    method SetByteBufferFrameCaptured(data: array<bv8>, width: nat, height: nat, rotation: int, timestampNs: int)
      returns (c: Call)
      requires Valid()
      modifies this`events
      ensures Valid()
      ensures c == (if !flags.isUsedARCamera && !flags.initialized then Threw(NullPointer) else Returned)
      ensures events == old(events) + (if c.Threw? then [] else ExternalFrames(State(), data, width, height, rotation, timestampNs))
    {
      c := Returned;
      if !flags.isUsedARCamera {
        if !flags.initialized {
          c := Threw(NullPointer);
        } else {
          var frame := [ByteBufferFrame(Primary, data, width, height, rotation, timestampNs)];
          NeutralEventsKeepInv(State(), frame);
          events := events + frame;
        }
      }
    }

    /** setZoom: needs an open camera; ignores negative values and clamps to
        the camera's maximum. */
    method SetZoom(value: int) returns (c: Call)
      requires Valid()
      modifies camera
      ensures camera == null ==> c == Threw(NullPointer)
      ensures camera != null ==>
        c == Returned &&
        camera.zoom == match Zoom.ZoomToApply(value, camera.maxZoom) case None => old(camera.zoom) case Some(z) => z
    {
      if camera == null {
        return Threw(NullPointer);
      }
      var z := Zoom.ZoomToApply(value, camera.maxZoom);
      if z.Some? {
        camera.zoom := z.value;
      }
      c := Returned;
    }
  }
}
