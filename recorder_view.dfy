/** The rules of the recording page, src/components/recording/recorder.tsx: the
    compositor that draws the webcam circle over the screen, the 3-2-1 countdown
    before `startRecording`, the order in which devices are acquired, and the
    microphone and webcam toggles.

    The component's state becomes the fields of `RecorderView`; its one effect
    (the compositor) is re-evaluated by `Render` at the end of every handler, as
    React runs effects after each render. */
module RecorderView {
  import opened Wrappers
  import opened Types
  import opened Constants
  import opened Media
  import opened ScreenRecorder

  // ---------------------------------------------------------------- overlay geometry

  /** Gap in pixels between the webcam circle's bounding square and the canvas edges. */
  const OverlayPadding: int := 20

  datatype Point = Point(x: int, y: int)

  predicate IsLeft(pos: WebcamPosition) { pos == TopLeft || pos == BottomLeft }

  predicate IsTop(pos: WebcamPosition) { pos == TopLeft || pos == TopRight }

  /** Top-left corner of the webcam circle's bounding square on a `w` x `h` canvas:
      it keeps the padding from the two edges that meet at the chosen corner. */
  function OverlayOrigin(pos: WebcamPosition, w: int, h: int): (p: Point)
    ensures IsLeft(pos) ==> p.x == OverlayPadding
    ensures !IsLeft(pos) ==> p.x + WebcamDefaultSize + OverlayPadding == w
    ensures IsTop(pos) ==> p.y == OverlayPadding
    ensures !IsTop(pos) ==> p.y + WebcamDefaultSize + OverlayPadding == h
  {
    match pos
    case TopLeft => Point(OverlayPadding, OverlayPadding)
    case TopRight => Point(w - WebcamDefaultSize - OverlayPadding, OverlayPadding)
    case BottomLeft => Point(OverlayPadding, h - WebcamDefaultSize - OverlayPadding)
    case BottomRight => Point(w - WebcamDefaultSize - OverlayPadding, h - WebcamDefaultSize - OverlayPadding)
  }

  /** On a canvas at least 220 px each way the circle lies wholly inside it. */
  lemma OverlayInsideCanvas(pos: WebcamPosition, w: int, h: int)
    requires w >= WebcamDefaultSize + 2 * OverlayPadding && h >= WebcamDefaultSize + 2 * OverlayPadding
    ensures var p := OverlayOrigin(pos, w, h);
            OverlayPadding <= p.x && p.x + WebcamDefaultSize + OverlayPadding <= w &&
            OverlayPadding <= p.y && p.y + WebcamDefaultSize + OverlayPadding <= h
  {
  }

  /** On such a canvas the four positions put the circle in four different places. */
  lemma OverlayPositionsDistinct(a: WebcamPosition, b: WebcamPosition, w: int, h: int)
    requires w > WebcamDefaultSize + 2 * OverlayPadding && h > WebcamDefaultSize + 2 * OverlayPadding
    requires a != b
    ensures OverlayOrigin(a, w, h) != OverlayOrigin(b, w, h)
  {
    if IsLeft(a) != IsLeft(b) {
      assert OverlayOrigin(a, w, h).x != OverlayOrigin(b, w, h).x;
    } else {
      assert IsTop(a) != IsTop(b);
      assert OverlayOrigin(a, w, h).y != OverlayOrigin(b, w, h).y;
    }
  }

  /** Canvas size from the hidden screen video's intrinsic size; 0 means "not reported". */
  function CanvasSize(videoWidth: nat, videoHeight: nat): (r: (int, int))
    ensures r.0 > 0 && r.1 > 0
    ensures videoWidth > 0 ==> r.0 == videoWidth
    ensures videoHeight > 0 ==> r.1 == videoHeight
    ensures videoWidth == 0 ==> r.0 == 1920
    ensures videoHeight == 0 ==> r.1 == 1080
  {
    (if videoWidth == 0 then 1920 else videoWidth, if videoHeight == 0 then 1080 else videoHeight)
  }

  /** One drawing step on the canvas. */
  datatype DrawOp =
    | DrawScreen(width: int, height: int)
    | DrawWebcamCircle(origin: Point, size: int)

  /** One tick of the compositor: the screen frame fills the canvas every time; the
      webcam circle follows only once the webcam video has current data (readyState >= 2). */
  function Draw(webcamReadyState: nat, pos: WebcamPosition, w: int, h: int): (ops: seq<DrawOp>)
    ensures |ops| >= 1 && ops[0] == DrawScreen(w, h)
    ensures |ops| == 2 <==> webcamReadyState >= 2
    ensures |ops| <= 2
    ensures |ops| == 2 ==> ops[1] == DrawWebcamCircle(OverlayOrigin(pos, w, h), WebcamDefaultSize)
  {
    [DrawScreen(w, h)] +
    (if webcamReadyState >= 2 then [DrawWebcamCircle(OverlayOrigin(pos, w, h), WebcamDefaultSize)] else [])
  }

  // ---------------------------------------------------------------- device requests

  /** A request made to the platform for a narration microphone or a webcam, with the
      device id constraint passed (None: the default device). */
  datatype DeviceRequest = MicRequest(device: Option<string>) | CameraRequest(device: Option<string>)

  /** `selectedX || undefined`: an absent or empty selection means the default device. */
  function DeviceArg(selected: Option<string>): (r: Option<string>)
    ensures r.Some? <==> selected.Some? && selected.value != ""
    ensures r.Some? ==> r == selected
  {
    if selected.Some? && selected.value != "" then selected else None
  }

  /** Requests `handleStartCapture` makes after the screen prompt: none if it gave no
      stream; otherwise the microphone if included, then the webcam if included. */
  function AcquisitionPlan(granted: bool, includeMic: bool, includeWebcam: bool,
                           mic: Option<string>, cam: Option<string>): (r: seq<DeviceRequest>)
    ensures !granted ==> r == []
    ensures |r| <= 2
    ensures MicRequest(mic) in r <==> granted && includeMic
    ensures CameraRequest(cam) in r <==> granted && includeWebcam
    ensures forall i, j :: 0 <= i < |r| && 0 <= j < |r| && r[i].MicRequest? && r[j].CameraRequest? ==> i < j
    ensures forall i :: 0 <= i < |r| ==> r[i] == MicRequest(mic) || r[i] == CameraRequest(cam)
  {
    if !granted then []
    else (if includeMic then [MicRequest(mic)] else []) + (if includeWebcam then [CameraRequest(cam)] else [])
  }

  /** Whether the hidden compositing canvas is in the rendered tree: every state but
      IDLE, DONE and STOPPED-with-a-blob renders the recording layout that holds it. */
  predicate CanvasMounted(state: RecorderState, hasBlob: bool) {
    !(state == IDLE || state == DONE || (state == STOPPED && hasBlob))
  }

  /** While recording, the canvas is always mounted, so the compositor's guard reduces
      to "webcam included and both streams present". */
  lemma CanvasMountedWhileRecording(hasBlob: bool)
    ensures CanvasMounted(RECORDING, hasBlob)
  {
  }

  class RecorderView {
    const rec: Recorder
    var includeMic: bool
    var includeWebcam: bool
    var position: WebcamPosition
    var selectedCamera: Option<string>
    var selectedMic: Option<string>
    /** The number shown over the preview, if any. */
    var countdown: Option<int>
    /** The local `count` of every countdown interval still running, oldest first. */
    var countdowns: seq<int>
    /** Whether the compositor effect is set up. */
    var compositorRunning: bool
    var canvasWidth: int
    var canvasHeight: int
    /** Every device request made so far, in order. */
    ghost var requests: seq<DeviceRequest>
    /** How many times a countdown has called `startRecording`. */
    ghost var startCalls: nat

    /** The compositor effect's guard. */
    predicate Guard()
      reads this`includeWebcam, rec`state, rec`screen, rec`webcam, rec`recordedBlob
    {
      rec.state == RECORDING && includeWebcam && rec.screen != null && rec.webcam != null &&
      CanvasMounted(rec.state, rec.recordedBlob.Some?)
    }

    /** The recorder's own invariant; the effect matches its guard; the canvas stream
        exists only once recording has begun, because only a running compositor sets
        it; every running countdown shows 1, 2 or 3. */
    ghost predicate Valid()
      reads this`compositorRunning, this`countdowns, this`includeWebcam
      reads rec`chunks, rec`audioContext, rec`state, rec`timerArmed, rec`screen, rec`webcam
      reads rec`recordedBlob, rec`canvasStream, rec.audioContext
    {
      rec.Valid() &&
      compositorRunning == Guard() &&
      (rec.canvasStream != null ==> rec.state == RECORDING || rec.state == PAUSED || rec.state == STOPPED) &&
      (forall k :: 0 <= k < |countdowns| ==> 1 <= countdowns[k] <= 3)
    }

    constructor (r: Recorder)
      requires r.Valid() && r.TornDown() && r.state == IDLE
      ensures Valid() && rec == r
      ensures includeMic && !includeWebcam && position == BottomRight
      ensures selectedCamera == None && selectedMic == None && countdown == None && countdowns == []
      ensures canvasWidth == 300 && canvasHeight == 150 && requests == [] && startCalls == 0
    {
      rec := r;
      includeMic := true;
      includeWebcam := false;
      position := BottomRight;
      selectedCamera := None;
      selectedMic := None;
      countdown := None;
      countdowns := [];
      compositorRunning := false;
      canvasWidth := 300;
      canvasHeight := 150;
      requests := [];
      startCalls := 0;
    }

    /** The effect run after a render: set the compositor up or tear it down. */
    method Render()
      modifies this`compositorRunning
      ensures compositorRunning == Guard()
    {
      compositorRunning := Guard();
    }

    /** `handleStartCapture` (offered in IDLE): ask for the screen, then, only if a
        stream came back, the microphone if included and then the webcam if included. */
    method HandleStartCapture(capture: CaptureOutcome, micOutcome: Option<MediaStream>,
                              camOutcome: Option<MediaStream>)
      requires Valid() && rec.state == IDLE
      modifies this`compositorRunning, this`requests
      modifies rec`error, rec`screen, rec`state, rec`mic, rec`webcam
      ensures Valid()
      ensures var granted := capture.Granted? && capture.stream.VideoTracks() != [];
              requests == old(requests) +
                AcquisitionPlan(granted, includeMic, includeWebcam, DeviceArg(selectedMic), DeviceArg(selectedCamera)) &&
              (granted ==> rec.state == PREVIEWING && rec.screen == capture.stream) &&
              (!granted ==> rec.state == IDLE && rec.mic == old(rec.mic) && rec.webcam == old(rec.webcam))
    {
      var stream := rec.StartScreenCapture(capture);
      if stream != null {
        AcquireDevices(micOutcome, camOutcome);
      }
      Render();
    }

    /** The second half of `handleStartCapture`, once the screen was granted. */
    method AcquireDevices(micOutcome: Option<MediaStream>, camOutcome: Option<MediaStream>)
      modifies this`requests, rec`mic, rec`webcam, rec`error
      ensures requests == old(requests) +
                AcquisitionPlan(true, includeMic, includeWebcam, DeviceArg(selectedMic), DeviceArg(selectedCamera))
      ensures rec.mic == (if includeMic && micOutcome.Some? then micOutcome.value else old(rec.mic))
      ensures rec.webcam == (if includeWebcam && camOutcome.Some? then camOutcome.value else old(rec.webcam))
    {
      if includeMic {
        requests := requests + [MicRequest(DeviceArg(selectedMic))];
        var _ := rec.StartMicrophone(micOutcome);
      }
      if includeWebcam {
        requests := requests + [CameraRequest(DeviceArg(selectedCamera))];
        var _ := rec.StartWebcam(camOutcome);
      }
    }

    /** `handleStartRecording` (offered in PREVIEWING): show 3 and start a countdown. */
    method HandleStartRecording()
      requires Valid() && rec.state == PREVIEWING
      modifies this`countdown, this`countdowns
      ensures Valid()
      ensures countdown == Some(3) && countdowns == old(countdowns) + [3]
    {
      countdown := Some(3);
      countdowns := countdowns + [3];
    }

    /** One second of the `k`-th running countdown: show the decremented count or, when
        it reaches 0, stop that countdown, clear the display and call `startRecording`.
        A recording started from PREVIEWING never records the compositor's canvas: the
        compositor only runs once the recorder is RECORDING. */
    method CountdownTick(k: nat, supported: set<string>, fault: MixFault, now: int)
      requires Valid() && k < |countdowns|
      modifies this`countdown, this`countdowns, this`startCalls, this`compositorRunning
      modifies rec`mimeType, rec`chunks, rec`audioContext, rec`encoder, rec`leakedIntervals
      modifies rec`pausedDuration, rec`duration, rec`startTime, rec`timerArmed, rec`state
      ensures Valid()
      ensures old(countdowns[k]) > 1 ==>
                countdown == Some(old(countdowns[k]) - 1) &&
                countdowns == old(countdowns)[k := old(countdowns[k]) - 1] &&
                startCalls == old(startCalls) && unchanged(rec)
      ensures old(countdowns[k]) == 1 ==>
                countdown == None && countdowns == old(countdowns[..k] + countdowns[k + 1..]) &&
                startCalls == old(startCalls) + 1
      ensures old(countdowns[k]) == 1 && old(rec.screen) != null && PreferredMime(supported) in supported ==>
                rec.state == RECORDING && rec.encoder != null && fresh(rec.encoder)
      ensures old(countdowns[k]) == 1 && old(rec.screen) != null && PreferredMime(supported) in supported &&
              old(rec.state) == PREVIEWING ==>
                rec.encoder.videoSource == RawScreen
      ensures old(countdowns[k]) == 1 && old(rec.screen) != null && PreferredMime(supported) !in supported ==>
                rec.state == old(rec.state) && rec.encoder == old(rec.encoder)
      ensures old(countdowns[k]) == 1 && old(rec.screen) == null ==> unchanged(rec)
    {
      var count := countdowns[k] - 1;
      if count == 0 {
        countdowns := countdowns[..k] + countdowns[k + 1..];
        countdown := None;
        startCalls := startCalls + 1;
        rec.StartRecording(supported, fault, now);
      } else {
        countdowns := countdowns[k := count];
        countdown := Some(count);
      }
      Render();
    }

    /** The hidden screen video's `loadedmetadata` while the compositor runs: size
        the canvas from the video and hand its captured stream to the recorder. */
    method OnScreenMetadata(videoWidth: nat, videoHeight: nat)
      requires Valid() && compositorRunning
      modifies this`canvasWidth, this`canvasHeight, rec`canvasStream
      ensures Valid()
      ensures (canvasWidth, canvasHeight) == CanvasSize(videoWidth, videoHeight)
      ensures rec.canvasStream != null && fresh(rec.canvasStream) && |rec.canvasStream.VideoTracks()| == 1
    {
      canvasWidth, canvasHeight := CanvasSize(videoWidth, videoHeight).0, CanvasSize(videoWidth, videoHeight).1;
      var t := new Track(VideoTrack);
      var s := new MediaStream([t]);
      assert s.VideoTracks() == [t];
      rec.SetCanvasStream(s);
    }

    /** `toggleMic`: turning it off stops the microphone in any state; turning it on
        acquires one only in PREVIEWING. */
    method ToggleMic(outcome: Option<MediaStream>)
      requires Valid()
      modifies this`includeMic, this`requests, rec`mic, set t | t in TracksOf(rec.mic)
      ensures Valid()
      ensures includeMic == !old(includeMic)
      ensures old(includeMic) ==>
                rec.mic == null && (forall t :: t in TracksOf(old(rec.mic)) ==> t.stopped) &&
                requests == old(requests)
      ensures !old(includeMic) && rec.state == PREVIEWING ==>
                requests == old(requests) + [MicRequest(DeviceArg(selectedMic))] &&
                rec.mic == (if outcome.Some? then outcome.value else old(rec.mic))
      ensures !old(includeMic) && rec.state != PREVIEWING ==>
                requests == old(requests) && rec.mic == old(rec.mic)
    {
      if includeMic {
        rec.StopMicrophone();
        includeMic := false;
      } else {
        includeMic := true;
        if rec.state == PREVIEWING {
          requests := requests + [MicRequest(DeviceArg(selectedMic))];
          var _ := rec.StartMicrophone(outcome);
        }
      }
    }

    /** `toggleWebcam`: the same rule for the webcam. */
    method ToggleWebcam(outcome: Option<MediaStream>)
      requires Valid()
      modifies this`includeWebcam, this`requests, this`compositorRunning
      modifies rec`webcam, rec`error, set t | t in TracksOf(rec.webcam)
      ensures Valid()
      ensures includeWebcam == !old(includeWebcam)
      ensures old(includeWebcam) ==>
                rec.webcam == null && (forall t :: t in TracksOf(old(rec.webcam)) ==> t.stopped) &&
                requests == old(requests)
      ensures !old(includeWebcam) && rec.state == PREVIEWING ==>
                requests == old(requests) + [CameraRequest(DeviceArg(selectedCamera))] &&
                rec.webcam == (if outcome.Some? then outcome.value else old(rec.webcam))
      ensures !old(includeWebcam) && rec.state != PREVIEWING ==>
                requests == old(requests) && rec.webcam == old(rec.webcam)
    {
      if includeWebcam {
        rec.StopWebcam();
        includeWebcam := false;
      } else {
        includeWebcam := true;
        if rec.state == PREVIEWING {
          requests := requests + [CameraRequest(DeviceArg(selectedCamera))];
          var _ := rec.StartWebcam(outcome);
        }
      }
      Render();
    }

    /** The IDLE screen's switches only flip the settings; nothing is acquired. */
    method FlipMicSetting()
      requires Valid()
      modifies this`includeMic
      ensures Valid() && includeMic == !old(includeMic)
    {
      includeMic := !includeMic;
    }

    method FlipWebcamSetting()
      requires Valid()
      modifies this`includeWebcam, this`compositorRunning
      ensures Valid() && includeWebcam == !old(includeWebcam)
    {
      includeWebcam := !includeWebcam;
      Render();
    }

    method SelectCamera(id: string)
      requires Valid()
      modifies this`selectedCamera
      ensures Valid() && selectedCamera == Some(id)
    {
      selectedCamera := Some(id);
    }

    method SelectMic(id: string)
      requires Valid()
      modifies this`selectedMic
      ensures Valid() && selectedMic == Some(id)
    {
      selectedMic := Some(id);
    }

    method SetPosition(pos: WebcamPosition)
      requires Valid()
      modifies this`position
      ensures Valid() && position == pos
    {
      position := pos;
    }

    // The controls and browser events reach the recorder through the page; each
    // keeps the page's invariant.

    method Pause()
      requires Valid()
      modifies this`compositorRunning, rec`state, rec`timerArmed, rec`pausedDuration, rec.encoder
      ensures Valid()
      ensures rec.state == if old(rec.encoder != null && rec.encoder.state == EncoderRecording) then PAUSED else old(rec.state)
    {
      rec.Pause();
      Render();
    }

    method Resume(now: int)
      requires Valid()
      modifies this`compositorRunning, rec`state, rec`timerArmed, rec`startTime, rec`leakedIntervals, rec.encoder
      ensures Valid()
      ensures rec.state == if old(rec.encoder != null && rec.encoder.state == EncoderPaused) then RECORDING else old(rec.state)
    {
      rec.Resume(now);
      Render();
    }

    method Stop(v: LiveView)
      requires Valid()
      modifies rec`recordedThumbnail, rec.encoder
      ensures Valid() && rec.state == old(rec.state)
      ensures rec.recordedThumbnail == rec.CaptureThumbnail(v)
    {
      rec.StopRecording(v);
    }

    method Discard()
      requires Valid()
      modifies this`compositorRunning
      modifies rec`timerArmed, rec`screen, rec`webcam, rec`mic, rec`audioContext
      modifies rec`canvasStream, rec`encoder, rec`chunks, rec`pausedDuration
      modifies rec`recordedBlob, rec`recordedThumbnail, rec`duration, rec`state
      modifies rec.audioContext, rec.LiveTracks()
      ensures Valid() && !compositorRunning && rec.state == IDLE && rec.recordedBlob == None
    {
      rec.Discard();
      Render();
    }

    /** `handleComplete`, after the upload dialog reports the stored recording. */
    method HandleComplete()
      requires Valid()
      modifies this`compositorRunning
      modifies rec`timerArmed, rec`screen, rec`webcam, rec`mic, rec`audioContext
      modifies rec`canvasStream, rec`encoder, rec`chunks, rec`pausedDuration, rec`state
      modifies rec.audioContext, rec.LiveTracks()
      ensures Valid() && rec.state == DONE
    {
      rec.SetDone();
      Render();
    }

    method OnEncoderStop(e: Encoder)
      requires Valid()
      modifies this`compositorRunning
      modifies rec`recordedBlob, rec`chunks, rec`timerArmed, rec`state, rec`audioContext
      modifies rec.audioContext
      ensures Valid() && !compositorRunning && rec.state == STOPPED
      ensures rec.recordedBlob == Some(Blob(old(rec.chunks), e.mime)) && rec.chunks == []
    {
      rec.OnEncoderStop(e);
      Render();
    }

    method OnDataAvailable(c: Chunk)
      requires Valid()
      modifies rec`chunks
      ensures Valid() && rec.chunks == old(rec.chunks) + NonEmptyChunks([c])
    {
      rec.OnDataAvailable(c);
    }

    method OnScreenEnded(v: LiveView)
      requires Valid()
      modifies this`compositorRunning
      modifies rec`timerArmed, rec`screen, rec`webcam, rec`mic, rec`audioContext
      modifies rec`canvasStream, rec`encoder, rec`chunks, rec`pausedDuration, rec`state
      modifies rec`recordedThumbnail, rec.encoder, rec.audioContext, rec.LiveTracks()
      ensures Valid()
      ensures old(rec.encoder == null || rec.encoder.state != EncoderRecording) ==> rec.state == IDLE && !compositorRunning
      ensures old(rec.encoder != null && rec.encoder.state == EncoderRecording) ==> rec.state == old(rec.state)
    {
      rec.OnScreenEnded(v);
      Render();
    }
  }

  /** Pressing Start once: the page shows 3, 2, 1, then clears the number, and
      `startRecording` is called exactly once. It records the raw screen when the
      platform supports one of the preferences; otherwise the page stays in PREVIEWING. */
  method CountdownSession(page: RecorderView, supported: set<string>, now: int)
      returns (shown: seq<Option<int>>)
    requires page.Valid() && page.rec.state == PREVIEWING && page.rec.screen != null
    requires page.countdowns == []
    modifies page`countdown, page`countdowns, page`startCalls, page`compositorRunning
    modifies page.rec`mimeType, page.rec`chunks, page.rec`audioContext, page.rec`encoder
    modifies page.rec`pausedDuration, page.rec`duration, page.rec`startTime
    modifies page.rec`timerArmed, page.rec`leakedIntervals, page.rec`state
    ensures page.Valid()
    ensures shown == [Some(3), Some(2), Some(1), None]
    ensures page.startCalls == old(page.startCalls) + 1 && page.countdowns == []
    ensures PreferredMime(supported) in supported ==>
              page.rec.state == RECORDING && page.rec.encoder != null &&
              page.rec.encoder.videoSource == RawScreen
    ensures PreferredMime(supported) !in supported ==> page.rec.state == PREVIEWING
  {
    page.HandleStartRecording();
    shown := [page.countdown];
    page.CountdownTick(0, supported, NoFault, now + 1000);
    shown := shown + [page.countdown];
    page.CountdownTick(0, supported, NoFault, now + 2000);
    shown := shown + [page.countdown];
    page.CountdownTick(0, supported, NoFault, now + 3000);
    shown := shown + [page.countdown];
  }
}
