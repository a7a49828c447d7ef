# VideoCapturerAndroid — a verified model of the capture controller

This project models the controller core of WebRTC's Android camera capturer,
`VideoCapturerAndroid`, as the `ar_common` module carries it. It covers:

- the capture lifecycle with its bounded open retry;
- the post guard of the camera thread;
- the camera switch and its pending-switch flag;
- format changes with the preview buffer pool;
- the teardown on stop;
- the frame gate for raw buffers and for textures, with reduce-FPS
  decimation, the first-frame report and the AR and primary observers;
- the frame-orientation arithmetic;
- the zoom clamp.

Everything the code mutates runs on one camera thread, so the capturer is
modelled as a single-threaded Dafny `class` (`Capture.Capturer`). Its methods
are the public entry points (`StartCapture`, `SwitchCamera`, `StopCapture`,
…) and the bodies of the runnables posted to the camera thread (`RunStartTask`,
`RunRetryTask`, `RunSwitchTask`, `RunChangeFormatTask`, `RunStopTask`).

Modules:

| module | contents |
|---|---|
| `Wrappers` | `Option` |
| `JavaArith` | Java's `int`, the wrapping `++`, and `%` truncating toward zero |
| `Orientation` | display rotation and frame orientation |
| `Zoom` | the `setZoom` decision |
| `Decimation` | the reduce-FPS counter |
| `OpenRetry` | the retry policy of `Camera.open` as a chain of attempts |
| `Capture` | the capturer, its camera and the shared `vFps` counter |

How the model is built:

- **Fields and state.** The capturer's fields are class fields. Its nine
  boolean fields are grouped in one `flags` record, which keeps
  verification small. `State()` is a snapshot of every mutable field.
- **Result functions.** Each lifecycle, task and frame-callback method ensures `State() == XResult(old(State()), …)`
  against a ghost result function: `StopResult`, `StartCaptureResult`,
  `PreviewResult`, `SwitchResult`, `FrameGateResult`, `TextureResult`,
  `StartRequestResult`, `SwitchRequestResult`, `SwitchDoneResult`. The
  properties the code promises are lemmas about these functions.
- **The retry chain.** `Attempts` runs one start's opens against a list of
  driver answers, taking each queued retry off the queue as `RunRetryTask`
  does. The `Attempts…` lemmas prove that it follows `OpenRetry.OpenChain`:
  the same number of opens, and the same ending.
- **The invariant.** `Inv` holds five parts, and every transition keeps it:
  - lifecycle: a surface helper needs initialization, running needs a
    surface helper, and nothing is pending once stopped;
  - session: an open camera belongs to a running capturer, and a format
    needs a camera;
  - pool: empty without a format or in texture mode, otherwise three buffers
    of the frame size, and the camera's queue holds only pool buffers;
  - texture listening needs a previewing camera in texture mode;
  - exactly one first-frame event since the last opening while
    `firstFrameReported` is set, and none otherwise.
- **Inputs.** The environment is given as inputs:
  - `Camera.open` together with `getCameraInfo` succeeds or fails as one step (`OpenOutcome`); a failure leaves no camera behind;
  - the camera index `Camera1Enumerator` looks up for a name, or its
    failure (`CameraName`);
  - configuring the camera succeeds or throws, chosen by `Outcomes.configureOk`;
  - the negotiated closest format;
  - whether `Handler.postAtTime` accepts a task;
  - whether the wait in `stopCapture` timed out;
  - the display rotation;
  - the clock.
- **The log and the queue.** Callbacks to the frame observer, the AR
  observer, the events handler and the switch handler are appended to the
  `events` log. Posted runnables are kept in `pending`.

Where the code does something a reader might not expect, the model follows
the code:

- **First frame and decimation.** Decimation is checked before the
  first-frame report, so a dropped frame never reports the first frame
  (`FrameGateRequeues`).
- **Retries report the opening again.** Every open attempt, the retries
  included, calls `onCameraOpening` (`FailedOpenRetriesOrGivesUp`).
- **A frame from a foreign camera throws.** `onPreviewFrame` throws out of
  the camera thread for it (`Crashed(UnexpectedCamera)`) and does not report
  through a callback.
- **A switch that fails to open keeps the old camera info.** The switch
  handler is then told the facing of the camera that was open before.
- **A refused switch post leaves the switch pending.** The capturer then
  rejects every later switch (`RefusedSwitchBlocksLaterSwitches`).
- **A switch keeps the attempt counter.** It is not reset, so a switch made
  after two failed opens gets a single attempt
  (`OpenRetry.SwitchInheritsCounter`).
- **Forwarded frames need initialize.** `setByteBufferFrameCaptured` with the
  AR camera not in use dereferences the frame observer, so before
  `initialize` it throws (`SetByteBufferFrameCaptured`).
- **The request is recorded before the same-format check.** So even an
  unchanged format updates the requested size and rate
  (`PreviewSameFormatIsIdempotent`).

## Model

| member | source | states |
|---|---|---|
| Orientation.DeviceOrientation | ar_common/src/main/java/org/webrtc/VideoCapturerAndroid.java:718-738 | the display rotation in degrees is 0, 90, 180 or 270; a known code maps to 90 times the code, any other code to 0 |
| Orientation.FrameOrientation | ar_common/src/main/java/org/webrtc/VideoCapturerAndroid.java:748-758 | for a non-negative sensor orientation the frame orientation lies in [0, 360) and is never 180 |
| Orientation.FrameOrientationIsNormalized | ar_common/src/main/java/org/webrtc/VideoCapturerAndroid.java:748-758 | the frame orientation is the sensor orientation plus the rotation (360 minus the rotation for a back camera), taken mod 360, with 180 reported as 0 |
| Orientation.FrameOrientationQuarterTurns | ar_common/src/main/java/org/webrtc/VideoCapturerAndroid.java:748-758 | for the sensor orientations Android reports, every frame is tagged 0, 90 or 270 |
| Orientation.FacingAgreesAtHalfTurns | ar_common/src/main/java/org/webrtc/VideoCapturerAndroid.java:748-758 | with the display at 0 or 180 degrees, front and back cameras get the same orientation |
| Zoom.ZoomToApply | ar_common/src/main/java/org/webrtc/VideoCapturerAndroid.java:578-591 | a negative value is ignored; otherwise the value is applied when it is at most the maximum, else the maximum is |
| Zoom.ZoomIdempotent | ar_common/src/main/java/org/webrtc/VideoCapturerAndroid.java:578-591 | requesting the applied zoom again applies the same zoom |
| Zoom.ZoomMonotonic | ar_common/src/main/java/org/webrtc/VideoCapturerAndroid.java:578-591 | a larger request never applies a smaller zoom |
| JavaArith.Inc32 | ar_common/src/main/java/org/webrtc/VideoCapturerAndroid.java:783 | `vFps++` agrees with adding one modulo 2^32 (it wraps at the largest int) |
| JavaArith.JavaRem | ar_common/src/main/java/org/webrtc/VideoCapturerAndroid.java:753-756 | Java's `%` with a positive divisor: the remainder is below the divisor in magnitude, has the sign of the dividend, and differs from the dividend by a multiple of the divisor |
| JavaArith.JavaRemOfNonNegative | ar_common/src/main/java/org/webrtc/VideoCapturerAndroid.java:753-756 | for a non-negative dividend Java's `%` is the mathematical remainder |
| JavaArith.JavaRemZeroIsEven | ar_common/src/main/java/org/webrtc/VideoCapturerAndroid.java:784 | `x % 2 == 0` means x is even, negative x included |
| JavaArith.Inc32FlipsParity | ar_common/src/main/java/org/webrtc/VideoCapturerAndroid.java:782-788 | each increment of the counter flips its parity, across the wrap-around too |
| Decimation.Delivered | ar_common/src/main/java/org/webrtc/VideoCapturerAndroid.java:782-788 | no more frames are delivered than were accepted |
| Decimation.PairDeliversOne | ar_common/src/main/java/org/webrtc/VideoCapturerAndroid.java:782-788 | of two consecutive accepted frames exactly one is dropped |
| Decimation.HalfDelivered | ar_common/src/main/java/org/webrtc/VideoCapturerAndroid.java:782-788 | of any 2N consecutive accepted frames exactly N are delivered, from any counter value |
| Decimation.DeliveredSplits | ar_common/src/main/java/org/webrtc/VideoCapturerAndroid.java:760-788 | the counter is static and never reset, so a run of frames splits anywhere: the frames after the split are gated from the counter value `Advance` reached |
| Decimation.OddWindow | ar_common/src/main/java/org/webrtc/VideoCapturerAndroid.java:782-788 | of 2N+1 consecutive accepted frames, N or N+1 are delivered |
| OpenRetry.OpenChain | ar_common/src/main/java/org/webrtc/VideoCapturerAndroid.java:398-414 | a chain of open attempts never makes more opens than the driver answers |
| OpenRetry.OpensBounded | ar_common/src/main/java/org/webrtc/VideoCapturerAndroid.java:359-414 | from a counter below 3 at most 3 minus the counter opens are made, so a start (counter reset to 0) opens at most three times |
| OpenRetry.GivesUpIffAllFail | ar_common/src/main/java/org/webrtc/VideoCapturerAndroid.java:401-436 | the start gives up exactly when all of the remaining attempts fail |
| OpenRetry.OpenedOnFirstSuccess | ar_common/src/main/java/org/webrtc/VideoCapturerAndroid.java:398-414 | an opened chain ends at the first successful open; every earlier attempt failed |
| OpenRetry.ChainAfterFailure | ar_common/src/main/java/org/webrtc/VideoCapturerAndroid.java:400-414 | step lemma, one unfolding of `OpenChain` used by the induction over answers: a failure below the ceiling hands the rest of the answers to the next attempt with the counter one higher; the chain ends the same way, one open later |
| OpenRetry.SucceedsAfterFailures | ar_common/src/main/java/org/webrtc/VideoCapturerAndroid.java:359-414 | while attempts remain, k failed opens followed by a success open the camera on attempt k + 1 |
| OpenRetry.SwitchInheritsCounter | ar_common/src/main/java/org/webrtc/VideoCapturerAndroid.java:703-716 | a chain that starts from counter n gives up after exactly 3 − n failed opens; a switch keeps the counter, so after two failures the next camera gets one attempt |
| Capture.FrameCounter.constructor | ar_common/src/main/java/org/webrtc/VideoCapturerAndroid.java:760 | the shared counter starts at 0 |
| Capture.Camera.Open | ar_common/src/main/java/org/webrtc/VideoCapturerAndroid.java:396-398 | an opened camera has the index, facing and sensor orientation it was opened with, and zoom 0 |
| Capture.Capturer.constructor | ar_common/src/main/java/org/webrtc/VideoCapturerAndroid.java:278-280 | once the checks have passed, the capturer holds the given camera index, events handler and texture mode, and nothing is initialized, running, open, pooled, pending or reported; the AR camera is in use |
| Capture.Capturer.Construct | ar_common/src/main/java/org/webrtc/VideoCapturerAndroid.java:268-281 | a device without cameras throws "No cameras available" and a name the enumerator cannot look up throws its exception, and neither yields a capturer; otherwise a missing or empty name selects camera 0, a known name its index, and the capturer starts in the initial state |
| Capture.Capturer.Create | ar_common/src/main/java/org/webrtc/VideoCapturerAndroid.java:149-157 | the constructor's exceptions become null: there is no capturer exactly when the device has no camera or the name lookup fails; otherwise a new capturer in the initial state that holds the given events handler, texture mode and frame counter |
| Capture.Capturer.SetARCameraObserver | ar_common/src/main/java/org/webrtc/VideoCapturerAndroid.java:105-107 | records whether an AR observer is set and changes no other flag |
| Capture.Capturer.SetUsedARCamera | ar_common/src/main/java/org/webrtc/VideoCapturerAndroid.java:109-111 | records whether the AR camera is in use and changes no other flag |
| Capture.Capturer.SetReduceFps | ar_common/src/main/java/org/webrtc/VideoCapturerAndroid.java:113-115 | records whether reduce-FPS is on and changes no other flag |
| Capture.Capturer.MaybePostOnCameraThread | ar_common/src/main/java/org/webrtc/VideoCapturerAndroid.java:291-299 | a task is queued exactly when there is a handler, the capturer runs and the handler accepts |
| Capture.Capturer.Initialize | ar_common/src/main/java/org/webrtc/VideoCapturerAndroid.java:305-328 | a missing context or observer, or a second initialization, throws and changes nothing; otherwise the capturer is initialized with or without a surface helper |
| Capture.Capturer.StartCapture | ar_common/src/main/java/org/webrtc/VideoCapturerAndroid.java:340-370 | before initialization it throws and changes nothing; afterwards the new state is the start request's result |
| Capture.Capturer.StartRequestOutcomes | ar_common/src/main/java/org/webrtc/VideoCapturerAndroid.java:352-369 | while running startCapture is a no-op; otherwise the start task is posted exactly when the post is accepted, and a refused post leaves the capturer stopped and reports a failed start |
| Capture.Capturer.StartRequestKeepsInv | ar_common/src/main/java/org/webrtc/VideoCapturerAndroid.java:340-370 | startCapture keeps the invariant |
| Capture.Capturer.MarkRunningKeepsInv | ar_common/src/main/java/org/webrtc/VideoCapturerAndroid.java:352-362 | marking a stopped capturer running with its start task posted keeps the invariant |
| Capture.Capturer.StartCaptureOnCameraThread | ar_common/src/main/java/org/webrtc/VideoCapturerAndroid.java:378-438 | the new state is the open attempt's result; a successful start holds a fresh camera of the current index and, in byte-buffer mode, a fresh pool of three buffers |
| Capture.Capturer.RetryOrGiveUp | ar_common/src/main/java/org/webrtc/VideoCapturerAndroid.java:400-436 | a failed open counts the attempt and posts a retry below the ceiling, else releases everything and reports a failed start |
| Capture.Capturer.ConfigureOpenedCamera | ar_common/src/main/java/org/webrtc/VideoCapturerAndroid.java:396-436 | an opened camera is configured and previews, the start is reported, and texture mode listens; a failed configuration tears down and reports a failed start |
| Capture.Capturer.RecoverFromFailedStart | ar_common/src/main/java/org/webrtc/VideoCapturerAndroid.java:429-436 | a failed start stops the handler, releases the camera and reports the failure to the observer and the events handler |
| Capture.Capturer.FailedOpenRetriesOrGivesUp | ar_common/src/main/java/org/webrtc/VideoCapturerAndroid.java:400-436 | a failed open leaves no camera and no pool; the capturer keeps running with a retry posted exactly below the ceiling, and otherwise stops with nothing pending and reports "Camera can not be started." |
| Capture.Capturer.AttemptOpens | ar_common/src/main/java/org/webrtc/VideoCapturerAndroid.java:396-436 | an attempt that opens the camera ends the chain after one open; when the camera can be configured the capturer runs with the camera the driver returned |
| Capture.Capturer.AttemptGivesUp | ar_common/src/main/java/org/webrtc/VideoCapturerAndroid.java:400-436 | a failed open at the ceiling ends the chain after one open with the capturer stopped, without a camera and with nothing pending |
| Capture.Capturer.AttemptQueuesRetry | ar_common/src/main/java/org/webrtc/VideoCapturerAndroid.java:400-414 | a failed open below the ceiling keeps the capturer running without a camera, counts the attempt and queues one retry |
| Capture.Capturer.AttemptRetries | ar_common/src/main/java/org/webrtc/VideoCapturerAndroid.java:400-414 | after a failed open below the ceiling the queued retry runs next, from a state with the queue the attempt started with and the counter one higher |
| Capture.Capturer.AttemptsCountOpens | ar_common/src/main/java/org/webrtc/VideoCapturerAndroid.java:359-436 | the capturer opens the camera as many times as the retry policy's chain counts for the driver's answers |
| Capture.Capturer.AttemptsGiveUpStopped | ar_common/src/main/java/org/webrtc/VideoCapturerAndroid.java:359-436 | when the chain gives up, the capturer ends stopped with no camera and nothing pending |
| Capture.Capturer.AttemptsOpenRunning | ar_common/src/main/java/org/webrtc/VideoCapturerAndroid.java:359-436 | when the chain opens the camera and it can be configured, the capturer ends running with the camera the driver returned |
| Capture.Capturer.AttemptsWaitQueued | ar_common/src/main/java/org/webrtc/VideoCapturerAndroid.java:359-436 | when the driver's answers run out after a failure, the capturer ends running without a camera and with one retry queued |
| Capture.Capturer.StartOpensAtMostThrice | ar_common/src/main/java/org/webrtc/VideoCapturerAndroid.java:355-414 | a start task resets the counter, so when every retry post is accepted it opens the camera at most three times, whatever the driver answers |
| Capture.Capturer.ThreeFailedOpensStop | ar_common/src/main/java/org/webrtc/VideoCapturerAndroid.java:355-436 | three failed opens after a start task leave the capturer stopped with no camera and nothing pending |
| Capture.Capturer.StartStopsOnlyAfterThreeFailures | ar_common/src/main/java/org/webrtc/VideoCapturerAndroid.java:355-436 | when the camera can be configured, a start ends with the capturer stopped only after three failed opens |
| Capture.Capturer.TakingTaskKeepsInv | ar_common/src/main/java/org/webrtc/VideoCapturerAndroid.java:291-299 | taking a task off the queue keeps the invariant |
| Capture.Capturer.OpeningKeepsInv | ar_common/src/main/java/org/webrtc/VideoCapturerAndroid.java:388-395 | resetting `firstFrameReported` and reporting the opening keeps the first-frame count consistent |
| Capture.Capturer.OpenFailedKeepsInv | ar_common/src/main/java/org/webrtc/VideoCapturerAndroid.java:400-414 | a failed open keeps the invariant |
| Capture.Capturer.FailedStartKeepsInv | ar_common/src/main/java/org/webrtc/VideoCapturerAndroid.java:429-436 | a failed start keeps the invariant |
| Capture.Capturer.InstallCameraKeepsInv | ar_common/src/main/java/org/webrtc/VideoCapturerAndroid.java:396-398 | installing the opened camera with its info keeps the invariant |
| Capture.Capturer.OpenedKeepsInv | ar_common/src/main/java/org/webrtc/VideoCapturerAndroid.java:415-436 | configuring an opened camera keeps the invariant |
| Capture.Capturer.StartCaptureKeepsInv | ar_common/src/main/java/org/webrtc/VideoCapturerAndroid.java:378-438 | startCaptureOnCameraThread keeps the invariant |
| Capture.Capturer.AllocatePool | ar_common/src/main/java/org/webrtc/VideoCapturerAndroid.java:524-531 | three distinct fresh buffers of the frame size, each handed to the camera once |
| Capture.Capturer.StartPreviewOnCameraThread | ar_common/src/main/java/org/webrtc/VideoCapturerAndroid.java:446-535 | the new state is the preview result; the pool is fresh when it is rebuilt and unchanged otherwise |
| Capture.Capturer.PreviewKeepsInv | ar_common/src/main/java/org/webrtc/VideoCapturerAndroid.java:446-535 | startPreviewOnCameraThread keeps the invariant |
| Capture.Capturer.PreviewSameFormatIsIdempotent | ar_common/src/main/java/org/webrtc/VideoCapturerAndroid.java:455-480 | a second preview with the same negotiated format changes nothing but the recorded request |
| Capture.Capturer.PreviewInstallsFormat | ar_common/src/main/java/org/webrtc/VideoCapturerAndroid.java:455-533 | with an open camera the negotiated format is installed and the request recorded; the pool is replaced exactly when it is rebuilt |
| Capture.Capturer.StopCaptureOnCameraThread | ar_common/src/main/java/org/webrtc/VideoCapturerAndroid.java:659-701 | the new state is the teardown result: no camera, no pool, no format; a stopped handler ends the running state with nothing pending |
| Capture.Capturer.StopKeepsInv | ar_common/src/main/java/org/webrtc/VideoCapturerAndroid.java:659-701 | the teardown keeps the invariant |
| Capture.Capturer.StopTearsDown | ar_common/src/main/java/org/webrtc/VideoCapturerAndroid.java:669-699 | after the teardown there is no camera, no pool, no format and no listening, and the close is reported; a stopped handler also purges every pending task, after which nothing can be posted |
| Capture.Capturer.StopCapture | ar_common/src/main/java/org/webrtc/VideoCapturerAndroid.java:634-657 | on a stopped capturer nothing is posted or reported; otherwise the stop task runs or, after a timeout, stays pending with the timeout reported, and the observer always learns that capture stopped |
| Capture.Capturer.RunStopTask | ar_common/src/main/java/org/webrtc/VideoCapturerAndroid.java:637-642 | the posted stop task tears down with the handler stopped |
| Capture.Capturer.RunStartTask | ar_common/src/main/java/org/webrtc/VideoCapturerAndroid.java:355-362 | the start task leaves the queue, resets the attempt counter, then starts; a successful open yields a fresh camera of the current index with zoom 0 and, in byte-buffer mode, a fresh pool of three buffers |
| Capture.Capturer.RunRetryTask | ar_common/src/main/java/org/webrtc/VideoCapturerAndroid.java:405-410 | a retry leaves the queue and starts again without resetting the counter; a successful open yields a fresh camera of the current index with zoom 0 and, in byte-buffer mode, a fresh pool |
| Capture.Capturer.ChangeCaptureFormat | ar_common/src/main/java/org/webrtc/VideoCapturerAndroid.java:235-242 | posts the reconfiguration through the post guard and changes nothing else |
| Capture.Capturer.RunChangeFormatTask | ar_common/src/main/java/org/webrtc/VideoCapturerAndroid.java:236-241 | the reconfiguration task leaves the queue and starts the preview with the new request; the pool is fresh when it is rebuilt and unchanged otherwise |
| Capture.Capturer.SwitchCamera | ar_common/src/main/java/org/webrtc/VideoCapturerAndroid.java:181-216 | with fewer than two cameras, or with a switch pending, the request is rejected with its message and only the rejection is reported; otherwise the switch is marked pending and posted, and a refused post reports "Camera is stopped." but leaves the mark |
| Capture.Capturer.SwitchRequestKeepsInv | ar_common/src/main/java/org/webrtc/VideoCapturerAndroid.java:181-216 | switchCamera keeps the invariant |
| Capture.Capturer.RefusedSwitchBlocksLaterSwitches | ar_common/src/main/java/org/webrtc/VideoCapturerAndroid.java:188-215 | a refused switch post leaves the switch pending with no task queued, so a later request is rejected as already pending |
| Capture.Capturer.RunSwitchTask | ar_common/src/main/java/org/webrtc/VideoCapturerAndroid.java:200-213 | the switch task leaves the queue, switches, clears the pending flag and tells the switch handler the new facing (a missing camera info throws); a successful switch yields a fresh camera of the next index and, in byte-buffer mode, a fresh pool |
| Capture.Capturer.FinishSwitch | ar_common/src/main/java/org/webrtc/VideoCapturerAndroid.java:205-211 | clears the pending flag; a switch handler learns whether the camera faces the front |
| Capture.Capturer.SwitchDoneKeepsInv | ar_common/src/main/java/org/webrtc/VideoCapturerAndroid.java:205-211 | the end of the switch task keeps the invariant |
| Capture.Capturer.SwitchCameraOnCameraThread | ar_common/src/main/java/org/webrtc/VideoCapturerAndroid.java:703-716 | a running capturer tears down without stopping the handler, moves to the next camera and starts it; a successful switch opens a fresh camera of the next index with zoom 0 and, in byte-buffer mode, a fresh pool of three buffers |
| Capture.Capturer.SwitchKeepsInv | ar_common/src/main/java/org/webrtc/VideoCapturerAndroid.java:703-716 | switchCameraOnCameraThread keeps the invariant |
| Capture.Capturer.SwitchRestartsNextCamera | ar_common/src/main/java/org/webrtc/VideoCapturerAndroid.java:703-716 | a switch moves to (id + 1) mod the number of cameras, restarts with the last requested format and keeps the attempt counter |
| Capture.Capturer.NextIdSteps | ar_common/src/main/java/org/webrtc/VideoCapturerAndroid.java:712-714 | the next index follows the current one and wraps to 0 after the last |
| Capture.Capturer.SwitchedIdIsRoundRobin | ar_common/src/main/java/org/webrtc/VideoCapturerAndroid.java:712-714 | up to a full turn, k switches advance the index by k around the ring of cameras |
| Capture.Capturer.SwitchesCycle | ar_common/src/main/java/org/webrtc/VideoCapturerAndroid.java:712-714 | as many switches as there are cameras return to the start, and no fewer do |
| Capture.Capturer.OpenFailedKeepsPendingSwitch | ar_common/src/main/java/org/webrtc/VideoCapturerAndroid.java:400-414 | a failed open leaves the pending-switch flag alone |
| Capture.Capturer.OpenedKeepsPendingSwitch | ar_common/src/main/java/org/webrtc/VideoCapturerAndroid.java:415-436 | configuring an opened camera leaves the pending-switch flag alone |
| Capture.Capturer.StartCaptureKeepsPendingSwitch | ar_common/src/main/java/org/webrtc/VideoCapturerAndroid.java:378-438 | starting capture leaves the pending-switch flag alone |
| Capture.Capturer.TasksKeepPendingSwitch | ar_common/src/main/java/org/webrtc/VideoCapturerAndroid.java:378-716 | stopping, starting, switching and previewing keep the pending-switch flag, and the preview touches no flag |
| Capture.Capturer.PendingSwitchClearedOnlyByTask | ar_common/src/main/java/org/webrtc/VideoCapturerAndroid.java:188-215 | startCapture keeps the pending-switch flag, a switch request only sets it, and only the switch task clears it |
| Capture.Capturer.OnPreviewFrame | ar_common/src/main/java/org/webrtc/VideoCapturerAndroid.java:768-808 | the outcome and new state are the frame gate's, and the shared counter advances exactly for a frame that passed the guards with reduce-FPS on |
| Capture.Capturer.FrameGateRequeues | ar_common/src/main/java/org/webrtc/VideoCapturerAndroid.java:770-807 | a frame while stopped or in a stale buffer changes nothing and is not re-queued; a frame past the guards is re-queued; it is dropped exactly when reduce-FPS is on and the counter turns even; only a delivered frame reports anything |
| Capture.Capturer.FrameGateKeepsSession | ar_common/src/main/java/org/webrtc/VideoCapturerAndroid.java:768-808 | the frame gate keeps the invariant and changes neither the running state, the option, the camera nor the pool |
| Capture.Capturer.GateDecimates | ar_common/src/main/java/org/webrtc/VideoCapturerAndroid.java:782-788 | a run of accepted frames through the gate is delivered as the decimation counter says, so of 2N frames exactly N are delivered |
| Capture.Capturer.DeliveredFrameKeepsInv | ar_common/src/main/java/org/webrtc/VideoCapturerAndroid.java:792-807 | delivering a frame keeps the invariant |
| Capture.Capturer.FrameGateKeepsInv | ar_common/src/main/java/org/webrtc/VideoCapturerAndroid.java:768-808 | onPreviewFrame keeps the invariant |
| Capture.Capturer.AtMostOneFirstFrame | ar_common/src/main/java/org/webrtc/VideoCapturerAndroid.java:792-795 | at most one first-frame event since the camera opened, exactly one while `firstFrameReported` is set |
| Capture.Capturer.DeliveredFrameReportsFirstOnce | ar_common/src/main/java/org/webrtc/VideoCapturerAndroid.java:792-795 | a delivered frame reports the first frame exactly when none was reported since opening |
| Capture.Capturer.NeutralEventsKeepInv | ar_common/src/main/java/org/webrtc/VideoCapturerAndroid.java:792-795 | callbacks other than openings and first frames keep the first-frame count |
| Capture.Capturer.OnTextureFrameAvailable | ar_common/src/main/java/org/webrtc/VideoCapturerAndroid.java:811-833 | the outcome and new state are the texture callback's: a stopped capturer returns the frame, a running one reports the first frame once and hands over the texture, flipped for a front camera |
| Capture.Capturer.TextureKeepsInv | ar_common/src/main/java/org/webrtc/VideoCapturerAndroid.java:811-833 | onTextureFrameAvailable keeps the invariant |
| Capture.Capturer.TextureReportsFirstOnce | ar_common/src/main/java/org/webrtc/VideoCapturerAndroid.java:811-821 | a stopped capturer only returns the frame; a running one has reported exactly one first frame since opening afterwards, on this frame exactly when it had not before |
| Capture.Capturer.FrameCallbacksKeepFlags | ar_common/src/main/java/org/webrtc/VideoCapturerAndroid.java:768-833 | the frame callbacks change no flag except `firstFrameReported` |
| Capture.Capturer.SetByteBufferFrameCaptured | ar_common/src/main/java/org/webrtc/VideoCapturerAndroid.java:840-846 | with the AR camera not in use an external frame goes to the primary observer, and before initialize, with no frame observer yet, that throws a NullPointerException; with the AR camera in use nothing happens |
| Capture.Capturer.PrimaryObserverHasOneSource | ar_common/src/main/java/org/webrtc/VideoCapturerAndroid.java:798-846 | the primary observer gets preview frames exactly while the AR camera is in use and external frames exactly while it is not |
| Capture.Capturer.SetZoom | ar_common/src/main/java/org/webrtc/VideoCapturerAndroid.java:578-591 | without a camera it throws; otherwise the camera's zoom becomes the clamped value, and is unchanged for a negative request |

## Left out

- Task order: the camera thread's handler is a queue of pending tasks, and a task at any position may run next. This over-approximates the FIFO order and the 500 ms delay of a retry; the delay itself is not modelled.
- Handler, `postAtTime`, `removeCallbacksAndMessages`, `SystemClock` and the `CountDownLatch` wait are inputs or simple sequence operations. The 7000 ms stop timeout is an input boolean. When the stop task is posted and the wait does not time out, the stop task is modelled as run within the call.
- The Android Camera API (`getParameters`, `setPreviewTexture`, focus mode, video stabilisation, the picture-size workaround, `setDisplayOrientation`) is foreign driver code. Its combined success or failure is the input `configureOk`.
- Closest-format selection in `CameraEnumerationAndroid` and `Camera1Enumerator` is not part of this model. The negotiated format is an input.
- `CaptureFormat.frameSize()` is not part of this model. `FrameSize` assumes the NV21 preview format, at 12 bits per pixel.
- The texture path's `transformMatrix` flip is floating-point matrix work. The model records only a `flipped` flag for front-facing cameras.
- `CameraStatistics` is not modelled. The model treats it as present exactly while a camera is open.
- Logging, `printStackTrace` and `checkIsOnCameraThread` are left out. Every method is taken to run on the right thread.
- The `WindowManager` lookup is left out. The display rotation is a parameter.
- The value of `SystemClock.elapsedRealtime` is left out. The clock reading is a parameter.
- The Camera error callback (`cameraErrorCallback`) and its messages are left out, because they come from the driver.
- The torch and flash methods, `getMaxZoom`, `getCameraZoom`, `isSmoothZoomSupported`, `isZoomSupported`, `useBackCamera`, `getSupportedFormats`, `isScreencast`, the media-recorder stubs and `dispose` are left out. They are driver queries, stubs or logging.
- The locks (`cameraIdLock`, `pendingCameraSwitchLock`) and the atomic running flag are left out, because every interleaving is serialized here.
- Capture.Capturer.StopCaptureOnCameraThread: it requires a surface helper when the handler is stopped. The code would dereference a null handler there, and none of its callers can reach that case.
- Capture.Capturer.RunChangeFormatTask: an exception thrown by the driver inside the reconfiguration (`getParameters`, `setParameters`, `startPreview`) escapes the posted runnable and ends the camera thread; the model assumes the driver calls return.
- Capture.Capturer.constructor: it takes a positive camera count and an index already looked up. The checks that throw before any field is set are `Construct`, which `Create` calls. The camera count is fixed for the capturer's lifetime, although the code asks `Camera.getNumberOfCameras()` again at each use (lines 182, 270, 712).
- Capture.Capturer.Construct: what `Camera1Enumerator.getCameraIndex` answers for a name is an input, None when it throws; its exception's message is not part of this model.
- Orientation.FrameOrientation: its range bound is stated only for a non-negative sensor orientation, the only kind Android reports.
- Orientation.FrameOrientationQuarterTurns: it assumes the sensor orientations Android reports (0, 90, 180 or 270).
- Capture.Capturer.StartCaptureOnCameraThread: `getCameraInfo` (line 399) is taken not to throw after `Camera.open` (line 397) has succeeded. In the code such a throw reaches the retry path with `camera` already set and `info` blank, so a queued retry returns at line 384 and the capturer stays running with a camera that never previews and never reports `onCapturerStarted`; the model's `OpenFailed` leaves `camera` null, and its invariant that an open camera's info agrees with it does not cover that path.
- Capture.Capturer.ConfigureOpenedCamera: a configuration failure (`configureOk` false) is taken to happen before `startPreviewOnCameraThread` records the request (lines 455-457), so the failed path leaves `requested` as it was; the failure stops the capturer, and nothing reads the request afterwards before the next start records it again.
- Capture.Capturer.OnTextureFrameAvailable: a null `info`, `cameraStatistics` or `captureFormat` after the first-frame report is modelled as one `Crashed(NullPointer)` outcome.
