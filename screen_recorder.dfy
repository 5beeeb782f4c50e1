/** The recording controller of src/hooks/use-screen-recorder.ts.

    The hook's state and refs become the fields of `Recorder`; each returned
    callback is a method, and each browser callback the hook installs
    (`ondataavailable`, `onstop`, the screen track's `ended`, a capture that
    fails, an interval tick) is an event method. Outcomes of the platform
    (what the user granted, which MIME types the encoder supports, whether the
    audio graph throws) are parameters. Time is integer milliseconds. */
module ScreenRecorder {
  import opened Wrappers
  import opened Types
  import opened Constants
  import opened Media
  import Numeric

  // ---------------------------------------------------------------- MIME choice

  /** Index of the first preference the platform supports, or `|prefs|` if none is. */
  function FirstSupported(prefs: seq<string>, supported: set<string>): (k: nat)
    ensures k <= |prefs|
    ensures k < |prefs| ==> prefs[k] in supported
    ensures forall j :: 0 <= j < k ==> prefs[j] !in supported
  {
    if prefs == [] then 0
    else if prefs[0] in supported then 0
    else 1 + FirstSupported(prefs[1..], supported)
  }

  /** The MIME type `getSupportedMimeType` settles on for a platform whose
      `MediaRecorder.isTypeSupported` accepts exactly `supported`. */
  function PreferredMime(supported: set<string>): (m: string)
    ensures (exists i :: 0 <= i < |SupportedMimeTypes| && SupportedMimeTypes[i] in supported) ==>
              m in supported
    ensures forall i :: 0 <= i < |SupportedMimeTypes| && SupportedMimeTypes[i] == m ==>
              forall j :: 0 <= j < i ==> SupportedMimeTypes[j] !in supported
    ensures (forall i :: 0 <= i < |SupportedMimeTypes| ==> SupportedMimeTypes[i] !in supported) ==>
              m == FallbackMimeType
  {
    var k := FirstSupported(SupportedMimeTypes, supported);
    if k < |SupportedMimeTypes| then SupportedMimeTypes[k] else FallbackMimeType
  }

  /** The choice is always one of the five preferences: the fallback is also the last of them. */
  lemma PreferredMimeIsAPreference(supported: set<string>)
    ensures PreferredMime(supported) in SupportedMimeTypes
  {
    assert SupportedMimeTypes[4] == FallbackMimeType;
  }

  /** `getSupportedMimeType`: walk the preferences in order, return the first supported one. */
  method GetSupportedMimeType(supported: set<string>) returns (m: string)
    ensures m == PreferredMime(supported)
  {
    var i := 0;
    while i < |SupportedMimeTypes|
      invariant 0 <= i <= |SupportedMimeTypes|
      invariant forall j :: 0 <= j < i ==> SupportedMimeTypes[j] !in supported
    {
      if SupportedMimeTypes[i] in supported {
        return SupportedMimeTypes[i];
      }
      i := i + 1;
    }
    return FallbackMimeType;
  }

  // ---------------------------------------------------------------- audio mixing

  /** Where the audio graph throws, if it does: constructing the context, or at the
      `at`-th source connection (creating the destination counts as connection 0). */
  datatype MixFault = NoFault | ContextThrows | ConnectThrows(at: nat)

  /** Mixing is abandoned part-way when a connection at an existing position throws. */
  predicate MixAbandoned(all: seq<Track>, fault: MixFault) {
    fault.ConnectThrows? && fault.at < |all|
  }

  /** How the audio step ends for the sources `all`: zero or one track is passed
      through and no context is made; otherwise `ctx` is an open context whose single
      destination track replaces the sources once all of them are connected, and if
      a connection throws the sources connected so far stay connected and the
      sources themselves are passed through. A context that cannot be constructed
      leaves the tracks as they are. */
  ghost predicate AudioPlan(all: seq<Track>, fault: MixFault, final: seq<Track>, ctx: AudioContext?)
    reads ctx
  {
    if |all| <= 1 || fault == ContextThrows then final == all && ctx == null
    else
      ctx != null && !ctx.closed && ctx.destination.kind == AudioTrack &&
      if MixAbandoned(all, fault) then ctx.sources == all[..fault.at] && final == all
      else ctx.sources == all && final == [ctx.destination]
  }

  /** The audio step of `startRecording`: a fresh context is made only for two or more sources. */
  method MixAudio(all: seq<Track>, fault: MixFault) returns (final: seq<Track>, ctx: AudioContext?)
    ensures AudioPlan(all, fault, final, ctx)
    ensures ctx != null ==> fresh(ctx)
  {
    if |all| <= 1 || fault == ContextThrows {
      return all, null;
    }
    ctx := new AudioContext();
    for i := 0 to |all|
      invariant ctx.sources == all[..i] && !ctx.closed
      invariant MixAbandoned(all, fault) ==> i <= fault.at
    {
      if fault.ConnectThrows? && fault.at == i {
        return all, ctx;
      }
      ctx.Connect(all[i]);
    }
    assert all[..|all|] == all;
    final := [ctx.destination];
  }

  // ---------------------------------------------------------------- live thumbnail

  /** What `captureThumbnail` can observe besides the chosen stream: the first video
      track's reported settings (0 when absent), whether a 2D context is available,
      and the `readyState` of the first `<video>` element on the page, if any. */
  datatype LiveView = LiveView(trackWidth: nat, trackHeight: nat, hasContext: bool, pageVideo: Option<nat>)

  const LiveThumbWidth: int := 320
  const LiveThumbQuality: real := 0.6

  /** Still taken from the page's video element once a video track was found. */
  function LiveThumbnail(v: LiveView): (r: Option<Still>)
    ensures r.Some? <==> v.hasContext && v.pageVideo.Some? && v.pageVideo.value >= 2
    ensures r.Some? ==> r.value.width == LiveThumbWidth && r.value.quality == LiveThumbQuality
    ensures r.Some? ==>
              var vw := if v.trackWidth == 0 then 1920 else v.trackWidth;
              var vh := if v.trackHeight == 0 then 1080 else v.trackHeight;
              -vw <= 2 * (LiveThumbWidth * vh - r.value.height * vw) < vw
  {
    var vw := if v.trackWidth == 0 then 1920 else v.trackWidth;
    var vh := if v.trackHeight == 0 then 1080 else v.trackHeight;
    if v.hasContext && v.pageVideo.Some? && v.pageVideo.value >= 2 then
      Some(Still(LiveThumbWidth, Numeric.RoundDiv(LiveThumbWidth * vh, vw), LiveThumbQuality))
    else None
  }

  /** A track that reports no size is taken as 1920x1080, which gives a 320x180 still. */
  lemma LiveThumbnailDefaultSize(v: LiveView)
    requires v.trackWidth == 0 && v.trackHeight == 0
    requires v.hasContext && v.pageVideo.Some? && v.pageVideo.value >= 2
    ensures LiveThumbnail(v) == Some(Still(320, 180, 0.6))
  {
    Numeric.RoundDivUnique(320 * 1080, 1920, 180);
  }

  // ---------------------------------------------------------------- the controller

  datatype CaptureOutcome = Granted(stream: MediaStream) | Rejected(errorName: string)

  const DeniedMessage: string := "Screen sharing was denied"
  const CaptureFailedMessage: string := "Failed to capture screen"
  const WebcamFailedMessage: string := "Failed to access webcam"

  /** The payloads that have a size, in arrival order. */
  function NonEmptyChunks(cs: seq<Chunk>): (r: seq<Chunk>)
  {
    if cs == [] then []
    else (if cs[0].size > 0 then [cs[0]] else []) + NonEmptyChunks(cs[1..])
  }

  /** Exactly the payloads with a size are kept. */
  lemma {:induction false} NonEmptyChunksMembers(cs: seq<Chunk>, c: Chunk)
    ensures c in NonEmptyChunks(cs) <==> c in cs && c.size > 0
  {
    if cs != [] {
      NonEmptyChunksMembers(cs[1..], c);
      assert c in cs <==> c == cs[0] || c in cs[1..];
    }
  }

  /** Keeping only non-empty payloads distributes over a split of the arrival order. */
  lemma {:induction false} NonEmptyChunksAppend(a: seq<Chunk>, b: seq<Chunk>)
    ensures NonEmptyChunks(a + b) == NonEmptyChunks(a) + NonEmptyChunks(b)
  {
    if a == [] {
      assert a + b == b;
    } else {
      assert (a + b)[1..] == a[1..] + b;
      NonEmptyChunksAppend(a[1..], b);
    }
  }

  /** Dropping the empty payloads never changes the size of the blob built from them. */
  lemma {:induction false} NonEmptyChunksSize(cs: seq<Chunk>)
    ensures TotalSize(NonEmptyChunks(cs)) == TotalSize(cs)
  {
    if cs != [] {
      NonEmptyChunksSize(cs[1..]);
      var head := if cs[0].size > 0 then [cs[0]] else [];
      TotalSizeAppend(head, NonEmptyChunks(cs[1..]));
    }
  }

  /** The detected type is one the platform supports exactly when some preference
      is: otherwise it is the unchecked fallback "video/webm". */
  lemma PreferredMimeSupportedIff(supported: set<string>)
    ensures PreferredMime(supported) in supported <==>
            exists i :: 0 <= i < |SupportedMimeTypes| && SupportedMimeTypes[i] in supported
  {
    if PreferredMime(supported) in supported {
      PreferredMimeIsAPreference(supported);
      var i :| 0 <= i < |SupportedMimeTypes| && SupportedMimeTypes[i] == PreferredMime(supported);
    }
  }

  /** The encoder `startRecording` builds: the detected MIME type, the `video`
      tracks, then the audio `AudioPlan` settles on for the sources `all`. The audio
      step runs first; `new MediaRecorder` then throws NotSupportedError for a type
      the platform does not support, and `e` is null. */
  method NewEncoder(video: seq<Track>, all: seq<Track>, ghost source: VideoSource,
                    supported: set<string>, fault: MixFault)
    returns (e: Encoder?, final: seq<Track>, ctx: AudioContext?)
    ensures AudioPlan(all, fault, final, ctx) && (ctx != null ==> fresh(ctx))
    ensures e != null <==> PreferredMime(supported) in supported
    ensures e != null ==>
              fresh(e) && e.state == EncoderRecording && e.mime == PreferredMime(supported) &&
              e.bitsPerSecond == VideoBitrate && e.timesliceMs == 1000 && e.videoSource == source &&
              e.videoTracks == video && e.audioTracks == final
  {
    var detected := GetSupportedMimeType(supported);
    final, ctx := MixAudio(all, fault);
    if detected !in supported {
      return null, final, ctx;
    }
    e := new Encoder.Start(video, final, detected, VideoBitrate, source);
  }

  class Recorder {
    var state: RecorderState
    var screen: MediaStream?
    var webcam: MediaStream?
    var mic: MediaStream?
    var recordedBlob: Option<Blob>
    var recordedThumbnail: Option<Still>
    /** Elapsed recording time in ms, as last sampled by the timer. */
    var duration: int
    var error: Option<string>
    var mimeType: string
    var encoder: Encoder?
    var chunks: seq<Chunk>
    /** Whether `timerRef` holds an interval. */
    var timerArmed: bool
    /** Intervals started while `timerRef` already held one: the reference was
        overwritten, so nothing clears them and they fire for the rest of the page. */
    var leakedIntervals: nat
    var startTime: int
    /** Time recorded before the last (re)start of the clock, in ms. */
    var pausedDuration: int
    var canvasStream: MediaStream?
    var audioContext: AudioContext?

    /** Facts every step keeps: the buffer holds only non-empty payloads, a held
        audio context is open, and the clock is stopped while paused. */
    ghost predicate Valid()
      reads this`chunks, this`audioContext, this`state, this`timerArmed, audioContext
    {
      (forall i :: 0 <= i < |chunks| ==> chunks[i].size > 0) &&
      (audioContext != null ==> !audioContext.closed) &&
      (state == PAUSED ==> !timerArmed)
    }

    /** The state right after `cleanup`: nothing held and `timerRef` cleared. */
    predicate TornDown()
      reads this`timerArmed, this`screen, this`webcam, this`mic, this`audioContext
      reads this`canvasStream, this`encoder, this`chunks, this`pausedDuration
    {
      !timerArmed && screen == null && webcam == null && mic == null &&
      audioContext == null && canvasStream == null && encoder == null &&
      chunks == [] && pausedDuration == 0
    }

    /** No interval fires any more. */
    predicate ClockStopped()
      reads this`timerArmed, this`leakedIntervals
    {
      !timerArmed && leakedIntervals == 0
    }

    /** Tracks of the three held streams. */
    function LiveTracks(): set<Track>
      reads this`screen, this`webcam, this`mic
    {
      set t | t in TracksOf(screen) + TracksOf(webcam) + TracksOf(mic)
    }

    /** Screen audio tracks followed by microphone audio tracks. */
    function AudioSources(): seq<Track>
      reads this`screen, this`mic
    {
      OfKind(TracksOf(screen), AudioTrack) + OfKind(TracksOf(mic), AudioTrack)
    }

    /** The stream whose video is recorded and sampled: the canvas if set, else the screen. */
    function VideoStream(): MediaStream?
      reads this`canvasStream, this`screen
    {
      if canvasStream != null then canvasStream else screen
    }

    /** What `captureThumbnail` yields in the current state. */
    function CaptureThumbnail(v: LiveView): Option<Still>
      reads this`canvasStream, this`screen
    {
      var s := VideoStream();
      if s == null || s.VideoTracks() == [] then None else LiveThumbnail(v)
    }

    constructor ()
      ensures Valid() && TornDown() && ClockStopped()
      ensures state == IDLE && recordedBlob == None && recordedThumbnail == None
      ensures duration == 0 && error == None && mimeType == FallbackMimeType && startTime == 0
    {
      state := IDLE;
      screen := null;
      webcam := null;
      mic := null;
      recordedBlob := None;
      recordedThumbnail := None;
      duration := 0;
      error := None;
      mimeType := FallbackMimeType;
      encoder := null;
      chunks := [];
      timerArmed := false;
      leakedIntervals := 0;
      startTime := 0;
      pausedDuration := 0;
      canvasStream := null;
      audioContext := null;
    }

    /** A firing at time `now` of any live sampling interval. Every interval reads
        the same two refs, so each one sets the same duration, and the duration
        moves exactly when some interval is live. */
    method Tick(now: int)
      modifies this`duration
      ensures duration == if !ClockStopped() then now - startTime + pausedDuration else old(duration)
    {
      if !ClockStopped() {
        duration := now - startTime + pausedDuration;
      }
    }

    /** `startTimer`: a new interval goes into `timerRef` without the one already
        there being cleared, which is lost for good. */
    method StartTimer(now: int)
      modifies this`startTime, this`timerArmed, this`leakedIntervals
      ensures startTime == now && timerArmed
      ensures leakedIntervals == old(leakedIntervals) + if old(timerArmed) then 1 else 0
    {
      if timerArmed {
        leakedIntervals := leakedIntervals + 1;
      }
      startTime := now;
      timerArmed := true;
    }

    /** `stopTimer`: clears only the interval `timerRef` holds. */
    method StopTimer()
      modifies this`timerArmed
      ensures !timerArmed && leakedIntervals == old(leakedIntervals)
      ensures ClockStopped() <==> old(leakedIntervals) == 0
    {
      timerArmed := false;
    }

    /** `startTimer` as it would be if it cleared the interval it replaces: no
        interval is ever lost. */
    method StartTimerCorrected(now: int)
      modifies this`startTime, this`timerArmed
      ensures startTime == now && timerArmed && leakedIntervals == old(leakedIntervals)
    {
      StopTimer();
      startTime := now;
      timerArmed := true;
    }

    /** `cleanup`: stop the clock and every track of the held streams, close the
        mixing context, and drop every stream, the encoder, the buffer and the baseline. */
    method Cleanup()
      requires Valid()
      modifies this`timerArmed, this`screen, this`webcam, this`mic, this`audioContext
      modifies this`canvasStream, this`encoder, this`chunks, this`pausedDuration
      modifies audioContext, LiveTracks()
      ensures Valid() && TornDown()
      ensures leakedIntervals == old(leakedIntervals) && (ClockStopped() <==> old(leakedIntervals) == 0)
      ensures forall t :: t in old(LiveTracks()) ==> t.stopped
      ensures old(audioContext) != null ==> old(audioContext).closed
      ensures old(TornDown()) ==> unchanged(this)
    {
      StopTimer();
      StopAll(TracksOf(screen) + TracksOf(webcam) + TracksOf(mic));
      if audioContext != null {
        audioContext.Close();
        audioContext := null;
      }
      screen := null;
      webcam := null;
      mic := null;
      canvasStream := null;
      encoder := null;
      chunks := [];
      pausedDuration := 0;
    }

    /** `startScreenCapture`, given what the display-capture prompt produced. A granted
        stream without a video track fails when the `ended` listener is attached. */
    method StartScreenCapture(outcome: CaptureOutcome) returns (r: MediaStream?)
      requires Valid()
      modifies this`error, this`screen, this`state
      ensures Valid()
      ensures outcome.Granted? && outcome.stream.VideoTracks() != [] ==>
                r == outcome.stream && screen == r && state == PREVIEWING && error == None
      ensures outcome.Granted? && outcome.stream.VideoTracks() == [] ==>
                r == null && screen == old(screen) && state == IDLE && error == Some(CaptureFailedMessage)
      ensures outcome.Rejected? ==>
                r == null && screen == old(screen) && state == IDLE &&
                error == Some(if outcome.errorName == "NotAllowedError" then DeniedMessage else CaptureFailedMessage)
    {
      error := None;
      match outcome
      case Granted(stream) =>
        if stream.VideoTracks() == [] {
          error := Some(CaptureFailedMessage);
          state := IDLE;
          return null;
        }
        screen := stream;
        state := PREVIEWING;
        return stream;
      case Rejected(name) =>
        error := Some(if name == "NotAllowedError" then DeniedMessage else CaptureFailedMessage);
        state := IDLE;
        return null;
    }

    /** `startWebcam`, given the camera stream the platform produced, if any. */
    method StartWebcam(outcome: Option<MediaStream>) returns (r: MediaStream?)
      modifies this`webcam, this`error
      ensures outcome.Some? ==> r == outcome.value && webcam == r && error == old(error)
      ensures outcome.None? ==> r == null && webcam == old(webcam) && error == Some(WebcamFailedMessage)
    {
      if outcome.Some? {
        webcam := outcome.value;
        return outcome.value;
      }
      error := Some(WebcamFailedMessage);
      return null;
    }

    /** `startMicrophone`; a failure is not an error for the recorder. */
    method StartMicrophone(outcome: Option<MediaStream>) returns (r: MediaStream?)
      modifies this`mic
      ensures outcome.Some? ==> r == outcome.value && mic == r
      ensures outcome.None? ==> r == null && mic == old(mic)
    {
      if outcome.Some? {
        mic := outcome.value;
        return outcome.value;
      }
      return null;
    }

    method StopWebcam()
      modifies this`webcam, set t | t in TracksOf(webcam)
      ensures webcam == null
      ensures forall t :: t in TracksOf(old(webcam)) ==> t.stopped
      ensures old(webcam) == null ==> unchanged(this)
    {
      if webcam != null {
        StopAll(webcam.tracks);
        webcam := null;
      }
    }

    method StopMicrophone()
      modifies this`mic, set t | t in TracksOf(mic)
      ensures mic == null
      ensures forall t :: t in TracksOf(old(mic)) ==> t.stopped
      ensures old(mic) == null ==> unchanged(this)
    {
      if mic != null {
        StopAll(mic.tracks);
        mic := null;
      }
    }

    method SetCanvasStream(s: MediaStream)
      modifies this`canvasStream
      ensures canvasStream == s
    {
      canvasStream := s;
    }

    /** `startRecording`, for a platform supporting `supported`, an audio graph that
        fails as `fault` says, at time `now`. Without a screen stream nothing happens.
        The encoder records the video tracks of the canvas stream if one is set, else
        of the screen, followed by the audio `AudioPlan` settles on. When the platform
        supports none of the preferences, the encoder's construction throws after the
        MIME type, the buffer and the mixing context were set: nothing starts and the
        state stays as it was. */
    method StartRecording(supported: set<string>, fault: MixFault, now: int)
      requires Valid()
      modifies this`mimeType, this`chunks, this`audioContext, this`encoder, this`leakedIntervals
      modifies this`pausedDuration, this`duration, this`startTime, this`timerArmed, this`state
      ensures Valid()
      ensures old(screen) == null ==> unchanged(this)
      ensures old(screen) != null ==> mimeType == PreferredMime(supported) && chunks == []
      ensures old(screen) != null && PreferredMime(supported) !in supported ==>
                encoder == old(encoder) && state == old(state) && timerArmed == old(timerArmed) &&
                leakedIntervals == old(leakedIntervals) && startTime == old(startTime) &&
                duration == old(duration) && pausedDuration == old(pausedDuration)
      ensures old(screen) != null && PreferredMime(supported) in supported ==>
                pausedDuration == 0 && duration == 0 && timerArmed && startTime == now &&
                leakedIntervals == old(leakedIntervals) + (if old(timerArmed) then 1 else 0) &&
                state == RECORDING
      ensures old(screen) != null && PreferredMime(supported) in supported ==>
                encoder != null && fresh(encoder) && encoder.state == EncoderRecording &&
                encoder.mime == mimeType && encoder.bitsPerSecond == VideoBitrate &&
                encoder.timesliceMs == 1000 &&
                encoder.videoSource == (if old(canvasStream) != null then CompositedCanvas else RawScreen)
      ensures old(screen) != null && PreferredMime(supported) in supported ==>
                encoder.videoTracks == old(VideoStream()).VideoTracks()
      ensures old(screen) != null && PreferredMime(supported) in supported ==>
                AudioPlan(old(AudioSources()), fault, encoder.audioTracks,
                          if |old(AudioSources())| > 1 && fault != ContextThrows then audioContext else null)
      ensures old(screen) != null && |old(AudioSources())| > 1 && fault != ContextThrows ==>
                fresh(audioContext) && !audioContext.closed
      ensures old(screen) != null && (|old(AudioSources())| <= 1 || fault == ContextThrows) ==>
                audioContext == old(audioContext)
    {
      if screen == null {
        return;
      }
      var e, final, ctx := NewEncoder(VideoStream().VideoTracks(), AudioSources(),
                                      if canvasStream != null then CompositedCanvas else RawScreen,
                                      supported, fault);
      if e == null {
        mimeType := PreferredMime(supported);
        chunks := [];
        if ctx != null {
          audioContext := ctx;
        }
        return;
      }
      Begin(e, ctx, now);
    }

    /** The bookkeeping that ends `startRecording` once the encoder `e` runs. */
    method Begin(e: Encoder, ctx: AudioContext?, now: int)
      requires Valid() && (ctx != null ==> !ctx.closed)
      modifies this`mimeType, this`chunks, this`audioContext, this`encoder, this`leakedIntervals
      modifies this`pausedDuration, this`duration, this`startTime, this`timerArmed, this`state
      ensures Valid()
      ensures mimeType == e.mime && chunks == [] && encoder == e
      ensures audioContext == if ctx != null then ctx else old(audioContext)
      ensures pausedDuration == 0 && duration == 0 && timerArmed && startTime == now
      ensures leakedIntervals == old(leakedIntervals) + if old(timerArmed) then 1 else 0
      ensures state == RECORDING
    {
      mimeType := e.mime;
      chunks := [];
      if ctx != null {
        audioContext := ctx;
      }
      encoder := e;
      pausedDuration := 0;
      duration := 0;
      StartTimer(now);
      state := RECORDING;
    }

    /** The encoder's `dataavailable` event: an empty payload is dropped. */
    method OnDataAvailable(c: Chunk)
      requires Valid()
      modifies this`chunks
      ensures Valid()
      ensures chunks == old(chunks) + NonEmptyChunks([c])
    {
      if c.size > 0 {
        chunks := chunks + [c];
      }
    }

    /** The encoder `e`'s `stop` event: drain the buffer into one blob typed with the
        MIME type `e` was started with, stop the clock, close the mixing context. */
    method OnEncoderStop(e: Encoder)
      requires Valid()
      modifies this`recordedBlob, this`chunks, this`timerArmed, this`state, this`audioContext
      modifies audioContext
      ensures Valid()
      ensures recordedBlob == Some(Blob(old(chunks), e.mime)) && chunks == []
      ensures !timerArmed && state == STOPPED && audioContext == null
      ensures leakedIntervals == old(leakedIntervals) && (ClockStopped() <==> old(leakedIntervals) == 0)
      ensures old(audioContext) != null ==> old(audioContext).closed
    {
      recordedBlob := Some(Blob(chunks, e.mime));
      chunks := [];
      StopTimer();
      state := STOPPED;
      if audioContext != null {
        audioContext.Close();
        audioContext := null;
      }
    }

    /** `pauseRecording`: acts only on a recording encoder; the baseline becomes the
        last sampled duration. */
    method Pause()
      requires Valid()
      modifies this`state, this`timerArmed, this`pausedDuration, encoder
      ensures Valid()
      ensures old(encoder != null && encoder.state == EncoderRecording) ==>
                encoder.state == EncoderPaused && !timerArmed &&
                leakedIntervals == old(leakedIntervals) &&
                pausedDuration == duration && state == PAUSED
      ensures old(encoder == null || encoder.state != EncoderRecording) ==>
                unchanged(this) && (encoder != null ==> unchanged(encoder))
    {
      if encoder != null && encoder.state == EncoderRecording {
        encoder.Pause();
        StopTimer();
        pausedDuration := duration;
        state := PAUSED;
      }
    }

    /** `resumeRecording`: acts only on a paused encoder and restarts the clock at `now`. */
    method Resume(now: int)
      requires Valid()
      modifies this`state, this`timerArmed, this`startTime, this`leakedIntervals, encoder
      ensures Valid()
      ensures old(encoder != null && encoder.state == EncoderPaused) ==>
                encoder.state == EncoderRecording && timerArmed && startTime == now &&
                leakedIntervals == old(leakedIntervals) + (if old(timerArmed) then 1 else 0) &&
                state == RECORDING
      ensures old(encoder == null || encoder.state != EncoderPaused) ==>
                unchanged(this) && (encoder != null ==> unchanged(encoder))
    {
      if encoder != null && encoder.state == EncoderPaused {
        encoder.Resume();
        StartTimer(now);
        state := RECORDING;
      }
    }

    /** `stopRecording`: take the live thumbnail, then stop an encoder that is not
        inactive. No track is stopped: the streams stay alive. */
    method StopRecording(v: LiveView)
      modifies this`recordedThumbnail, encoder
      ensures recordedThumbnail == CaptureThumbnail(v)
      ensures old(encoder != null && encoder.state != EncoderInactive) ==>
                encoder.state == EncoderInactive && encoder.stopCalls == old(encoder.stopCalls) + 1
      ensures old(encoder != null && encoder.state == EncoderInactive) ==> unchanged(encoder)
      ensures state == old(state)
    {
      recordedThumbnail := CaptureThumbnail(v);
      if encoder != null && encoder.state != EncoderInactive {
        encoder.Stop();
      }
    }

    /** `discardRecording`. The encoder itself is not stopped, and an interval
        leaked earlier survives to overwrite the zeroed duration at its next tick. */
    method Discard()
      requires Valid()
      modifies this`timerArmed, this`screen, this`webcam, this`mic, this`audioContext
      modifies this`canvasStream, this`encoder, this`chunks, this`pausedDuration
      modifies this`recordedBlob, this`recordedThumbnail, this`duration, this`state
      modifies audioContext, LiveTracks()
      ensures Valid() && TornDown()
      ensures recordedBlob == None && recordedThumbnail == None && duration == 0 && state == IDLE
      ensures leakedIntervals == old(leakedIntervals) && (ClockStopped() <==> old(leakedIntervals) == 0)
      ensures forall t :: t in old(LiveTracks()) ==> t.stopped
      ensures old(audioContext) != null ==> old(audioContext).closed
    {
      recordedBlob := None;
      recordedThumbnail := None;
      duration := 0;
      Cleanup();
      state := IDLE;
    }

    method SetUploading()
      requires Valid()
      modifies this`state
      ensures Valid()
      ensures state == UPLOADING
    {
      state := UPLOADING;
    }

    /** `setDone`: the same teardown, ending in DONE. */
    method SetDone()
      requires Valid()
      modifies this`timerArmed, this`screen, this`webcam, this`mic, this`audioContext
      modifies this`canvasStream, this`encoder, this`chunks, this`pausedDuration, this`state
      modifies audioContext, LiveTracks()
      ensures Valid() && TornDown() && state == DONE
      ensures leakedIntervals == old(leakedIntervals) && (ClockStopped() <==> old(leakedIntervals) == 0)
      ensures forall t :: t in old(LiveTracks()) ==> t.stopped
      ensures old(audioContext) != null ==> old(audioContext).closed
    {
      Cleanup();
      state := DONE;
    }

    /** The screen track's `ended` event (the browser's "Stop sharing"): a recording
        encoder is stopped as by `stopRecording`; in every other case, paused included,
        the session is torn down and returns to IDLE. */
    method OnScreenEnded(v: LiveView)
      requires Valid()
      modifies this`timerArmed, this`screen, this`webcam, this`mic, this`audioContext
      modifies this`canvasStream, this`encoder, this`chunks, this`pausedDuration, this`state
      modifies this`recordedThumbnail, encoder, audioContext, LiveTracks()
      ensures Valid()
      ensures old(encoder != null && encoder.state == EncoderRecording) ==>
                recordedThumbnail == old(CaptureThumbnail(v)) && encoder == old(encoder) &&
                encoder.state == EncoderInactive && state == old(state) &&
                screen == old(screen) && webcam == old(webcam) && mic == old(mic) &&
                chunks == old(chunks) && timerArmed == old(timerArmed) &&
                canvasStream == old(canvasStream)
      ensures old(encoder == null || encoder.state != EncoderRecording) ==>
                TornDown() && state == IDLE && recordedThumbnail == old(recordedThumbnail) &&
                (forall t :: t in old(LiveTracks()) ==> t.stopped)
    {
      if encoder != null && encoder.state == EncoderRecording {
        StopRecording(v);
      } else {
        Cleanup();
        state := IDLE;
      }
    }
  }

  /** The browser delivering a run of `dataavailable` payloads in order: the buffer
      grows by exactly the non-empty ones, in arrival order. */
  method DeliverChunks(r: Recorder, cs: seq<Chunk>)
    requires r.Valid()
    modifies r`chunks
    ensures r.Valid()
    ensures r.chunks == old(r.chunks) + NonEmptyChunks(cs)
  {
    for i := 0 to |cs|
      invariant r.Valid()
      invariant r.chunks == old(r.chunks) + NonEmptyChunks(cs[..i])
    {
      r.OnDataAvailable(cs[i]);
      NonEmptyChunksAppend(cs[..i], [cs[i]]);
      assert cs[..i + 1] == cs[..i] + [cs[i]];
    }
    assert cs[..|cs|] == cs;
  }

  /** A recording session as the browser drives it, with one live interval: a clock
      tick at `t1`, a pause, a resume at `t2`, a tick at `t3`. The time between the
      pause and the resume is not counted: the duration is the baseline plus the two
      running stretches. */
  method PauseResumeSession(r: Recorder, t1: int, t2: int, t3: int)
    requires r.Valid() && r.timerArmed && r.leakedIntervals == 0
    requires r.encoder != null && r.encoder.state == EncoderRecording
    modifies r, r.encoder
    ensures r.Valid() && r.state == RECORDING && r.timerArmed && r.leakedIntervals == 0
    ensures r.duration == old(r.pausedDuration) + (t1 - old(r.startTime)) + (t3 - t2)
  {
    var e := r.encoder;
    r.Tick(t1);
    r.Pause();
    assert e.state == EncoderPaused && r.pausedDuration == old(r.pausedDuration) + (t1 - old(r.startTime));
    r.Resume(t2);
    r.Tick(t3);
  }

  /** The time the clock counts from `start` to `t` across `cycles`, each a pause
      time and the following resume time: the running stretches only. */
  function RunningTime(start: int, cycles: seq<(int, int)>, t: int): int
    decreases |cycles|
  {
    if cycles == [] then t - start
    else (cycles[0].0 - start) + RunningTime(cycles[0].1, cycles[1..], t)
  }

  /** Any number of pause and resume cycles, each paused at a tick: with one live
      interval, a final tick at `t` gives the baseline plus the running stretches. */
  method PauseResumeCycles(r: Recorder, cycles: seq<(int, int)>, t: int)
    requires r.Valid() && r.timerArmed && r.leakedIntervals == 0
    requires r.encoder != null && r.encoder.state == EncoderRecording
    modifies r, r.encoder
    ensures r.Valid() && r.state == old(if cycles == [] then r.state else RECORDING)
    ensures r.timerArmed && r.leakedIntervals == 0
    ensures r.duration == old(r.pausedDuration) + RunningTime(old(r.startTime), cycles, t)
  {
    var e := r.encoder;
    for i := 0 to |cycles|
      invariant r.Valid() && r.encoder == e && e.state == EncoderRecording
      invariant r.timerArmed && r.leakedIntervals == 0
      invariant i > 0 ==> r.state == RECORDING
      invariant i == 0 ==> r.state == old(r.state)
      invariant r.pausedDuration + RunningTime(r.startTime, cycles[i..], t) ==
                old(r.pausedDuration) + RunningTime(old(r.startTime), cycles, t)
    {
      assert cycles[i..][1..] == cycles[i + 1..];
      r.Tick(cycles[i].0);
      r.Pause();
      r.Resume(cycles[i].1);
    }
    r.Tick(t);
  }

  /** Discarding does not stop the encoder `e`. When it stops later, its final
      payload and its `stop` event still arrive: the recorder, back in IDLE after
      the discard, turns to STOPPED holding a blob of that payload. */
  method DiscardThenLateStop(r: Recorder, e: Encoder, last: Chunk)
    requires r.Valid()
    modifies r, r.audioContext, r.LiveTracks()
    ensures r.Valid() && r.state == STOPPED
    ensures r.recordedBlob == Some(Blob(NonEmptyChunks([last]), e.mime))
  {
    r.Discard();
    assert r.state == IDLE && r.chunks == [];
    r.OnDataAvailable(last);
    assert r.chunks == NonEmptyChunks([last]);
    r.OnEncoderStop(e);
  }

  /** Start pressed twice during the countdown: the second `startRecording` replaces
      the first interval in `timerRef` without clearing it. After a pause, which
      clears only the second interval, a tick at `t3` still moves the duration: the
      paused time is counted. */
  method DoubleStartDriftAsWritten(r: Recorder, supported: set<string>, t1: int, t2: int, t3: int)
    requires r.Valid() && r.screen != null && PreferredMime(supported) in supported
    modifies r
    ensures r.Valid() && r.state == PAUSED && r.leakedIntervals > 0
    ensures r.duration == r.pausedDuration + (t3 - t2)
  {
    r.StartRecording(supported, NoFault, t1);
    r.StartRecording(supported, NoFault, t2);
    r.Pause();
    assert r.pausedDuration == 0;
    r.Tick(t3);
  }

  /** A leaked interval outlives `discardRecording`: its next tick overwrites the
      zeroed duration. */
  method DiscardThenLeakedTick(r: Recorder, t: int)
    requires r.Valid() && r.leakedIntervals > 0
    modifies r, r.audioContext, r.LiveTracks()
    ensures r.state == IDLE && r.duration == t - r.startTime
  {
    r.Discard();
    r.Tick(t);
  }

  /** The clock restarted twice as written, then stopped: the first interval still
      fires, and a tick at `t3` sets the duration. */
  method RestartTwiceAsWritten(r: Recorder, t1: int, t2: int, t3: int)
    requires r.ClockStopped()
    modifies r`startTime, r`timerArmed, r`leakedIntervals, r`duration
    ensures !r.ClockStopped() && r.leakedIntervals == 1
    ensures r.duration == t3 - t2 + r.pausedDuration
  {
    r.StartTimer(t1);
    r.StartTimer(t2);
    r.StopTimer();
    r.Tick(t3);
  }

  /** The same with `startTimer` clearing the interval it replaces: once stopped,
      the clock is silent and a tick leaves the duration alone. */
  method RestartTwiceCorrected(r: Recorder, t1: int, t2: int, t3: int)
    requires r.ClockStopped()
    modifies r`startTime, r`timerArmed, r`duration
    ensures r.ClockStopped() && r.duration == old(r.duration)
  {
    r.StartTimerCorrected(t1);
    r.StartTimerCorrected(t2);
    r.StopTimer();
    r.Tick(t3);
  }
}
