/** Abstract stand-ins for the browser media objects the recorder drives:
    tracks that can be stopped, streams that own tracks, the mixing audio
    context, the encoder (`MediaRecorder`), recorded chunks and blobs. Object
    identity plays the part of the browser's object identity; no media bytes
    or pixels are modelled. */
module Media {

  datatype TrackKind = AudioTrack | VideoTrack

  class Track {
    const kind: TrackKind
    var stopped: bool

    constructor (kind: TrackKind)
      ensures this.kind == kind && !stopped
    {
      this.kind := kind;
      stopped := false;
    }
  }

  /** The tracks of one kind, in stream order (`getAudioTracks`, `getVideoTracks`). */
  function OfKind(ts: seq<Track>, k: TrackKind): (r: seq<Track>)
    ensures |r| <= |ts|
  {
    if ts == [] then [] else (if ts[0].kind == k then [ts[0]] else []) + OfKind(ts[1..], k)
  }

  /** A track is selected iff it is in the stream and of the requested kind. */
  lemma {:induction false} OfKindMembers(ts: seq<Track>, k: TrackKind, t: Track)
    ensures t in OfKind(ts, k) <==> t in ts && t.kind == k
  {
    if ts != [] {
      OfKindMembers(ts[1..], k, t);
      assert t in ts <==> t == ts[0] || t in ts[1..];
    }
  }

  /** Selecting by kind distributes over concatenation, so the selection keeps stream order. */
  lemma {:induction false} OfKindAppend(a: seq<Track>, b: seq<Track>, k: TrackKind)
    ensures OfKind(a + b, k) == OfKind(a, k) + OfKind(b, k)
  {
    if a == [] {
      assert a + b == b;
    } else {
      var head := if a[0].kind == k then [a[0]] else [];
      assert (a + b)[0] == a[0] && (a + b)[1..] == a[1..] + b;
      OfKindAppend(a[1..], b, k);
      assert OfKind(a + b, k) == head + (OfKind(a[1..], k) + OfKind(b, k));
    }
  }

  class MediaStream {
    const tracks: seq<Track>

    constructor (tracks: seq<Track>)
      ensures this.tracks == tracks
    {
      this.tracks := tracks;
    }

    function AudioTracks(): seq<Track> { OfKind(tracks, AudioTrack) }

    function VideoTracks(): seq<Track> { OfKind(tracks, VideoTrack) }
  }

  /** All tracks of a stream that may be absent. */
  function TracksOf(s: MediaStream?): seq<Track> {
    if s == null then [] else s.tracks
  }

  /** `stream.getTracks().forEach((t) => t.stop())`. */
  method StopAll(ts: seq<Track>)
    modifies set t | t in ts
    ensures forall t :: t in ts ==> t.stopped
  {
    for i := 0 to |ts|
      invariant forall j :: 0 <= j < i ==> ts[j].stopped
    {
      ts[i].stopped := true;
    }
  }

  /** An `AudioContext` together with its one media-stream destination. */
  class AudioContext {
    var closed: bool
    /** The source tracks connected to the destination so far, in order. */
    var sources: seq<Track>
    /** The single audio track of the destination's stream. */
    const destination: Track

    constructor ()
      ensures !closed && sources == []
      ensures fresh(destination) && destination.kind == AudioTrack && !destination.stopped
    {
      closed := false;
      sources := [];
      destination := new Track(AudioTrack);
    }

    /** `createMediaStreamSource(new MediaStream([t])).connect(dest)`. */
    method Connect(t: Track)
      modifies this`sources
      ensures sources == old(sources) + [t]
    {
      sources := sources + [t];
    }

    method Close()
      modifies this`closed
      ensures closed
    {
      closed := true;
    }
  }

  /** `MediaRecorder.state`: "inactive", "recording" or "paused". */
  datatype EncoderState = EncoderInactive | EncoderRecording | EncoderPaused

  /** Which stream supplied the encoder's video track (a modelling tag). */
  datatype VideoSource = RawScreen | CompositedCanvas

  /** A `MediaRecorder` over a combined stream of video tracks followed by audio
      tracks, started with a 1000 ms timeslice. */
  class Encoder {
    const videoTracks: seq<Track>
    const audioTracks: seq<Track>
    const mime: string
    const bitsPerSecond: int
    const timesliceMs: int
    ghost const videoSource: VideoSource
    var state: EncoderState
    /** How many times `stop()` has been called on it. */
    ghost var stopCalls: nat

    /** The tracks of the combined stream, in order. */
    function Tracks(): seq<Track> { videoTracks + audioTracks }

    constructor Start(video: seq<Track>, audio: seq<Track>, mime: string, bitsPerSecond: int,
                      ghost videoSource: VideoSource)
      ensures videoTracks == video && audioTracks == audio
      ensures this.mime == mime && this.bitsPerSecond == bitsPerSecond
      ensures this.videoSource == videoSource
      ensures timesliceMs == 1000 && state == EncoderRecording && stopCalls == 0
    {
      videoTracks := video;
      audioTracks := audio;
      this.mime := mime;
      this.bitsPerSecond := bitsPerSecond;
      this.videoSource := videoSource;
      timesliceMs := 1000;
      state := EncoderRecording;
      stopCalls := 0;
    }

    /** `pause()`; the platform refuses it on an inactive encoder. */
    method Pause()
      requires state != EncoderInactive
      modifies this`state
      ensures state == EncoderPaused
    {
      state := EncoderPaused;
    }

    /** `resume()`; the platform refuses it on an inactive encoder. */
    method Resume()
      requires state != EncoderInactive
      modifies this`state
      ensures state == EncoderRecording
    {
      state := EncoderRecording;
    }

    /** `stop()`: the encoder becomes inactive at once; its final
        `dataavailable` and its `stop` event are delivered later. */
    method Stop()
      requires state != EncoderInactive
      modifies this`state, this`stopCalls
      ensures state == EncoderInactive && stopCalls == old(stopCalls) + 1
    {
      state := EncoderInactive;
      stopCalls := stopCalls + 1;
    }
  }

  /** One `dataavailable` payload; `id` distinguishes payloads of equal size. */
  datatype Chunk = Chunk(id: nat, size: nat)

  /** `new Blob(parts, { type: mime })`. */
  datatype Blob = Blob(parts: seq<Chunk>, mime: string) {
    function Size(): nat { TotalSize(parts) }
  }

  function TotalSize(cs: seq<Chunk>): nat {
    if cs == [] then 0 else cs[0].size + TotalSize(cs[1..])
  }

  /** A blob's size is the sum of its parts' sizes, whichever way they are split. */
  lemma {:induction false} TotalSizeAppend(a: seq<Chunk>, b: seq<Chunk>)
    ensures TotalSize(a + b) == TotalSize(a) + TotalSize(b)
  {
    if a == [] {
      assert a + b == b;
    } else {
      assert (a + b)[1..] == a[1..] + b;
      TotalSizeAppend(a[1..], b);
    }
  }

  /** A still frame encoded as a JPEG data URL; only its geometry and quality are modelled. */
  datatype Still = Still(width: int, height: int, quality: real)
}
