/** `generateThumbnail` of src/lib/thumbnail.ts: a frame grab from a recorded blob,
    settled by whichever of four events comes first (seeked, error, the timeout, or
    a failure while drawing). The promise and its handlers become `ThumbnailJob`. */
module Thumbnail {
  import opened Wrappers
  import opened Media
  import Numeric

  /** The caller's options; `None` is an option left `undefined`. */
  datatype Options = Options(width: Option<nat>, height: Option<nat>, quality: Option<real>, seekTime: Option<real>)

  /** The options once the destructuring defaults are applied. */
  datatype Settings = Settings(width: nat, height: nat, quality: real, seekTime: real)

  /** Destructuring defaults apply to `undefined` only: an explicit 0 is kept. */
  function Resolve(o: Options): (s: Settings)
    ensures s.width == o.width.GetOr(320) && s.height == o.height.GetOr(180)
    ensures s.quality == o.quality.GetOr(0.7) && s.seekTime == o.seekTime.GetOr(1.0)
  {
    Settings(o.width.GetOr(320), o.height.GetOr(180), o.quality.GetOr(0.7), o.seekTime.GetOr(1.0))
  }

  /** No options at all gives 320 x 180 at quality 0.7, grabbed at 1 s. */
  lemma ResolveDefaults()
    ensures Resolve(Options(None, None, None, None)) == Settings(320, 180, 0.7, 1.0)
  {
  }

  /** `video.duration`: a number of seconds, +Infinity (a stream without a duration
      in its header) or NaN (not known yet). */
  datatype MediaDuration = Finite(seconds: real) | Infinite | NotANumber

  /** `duration > seekTime` under IEEE comparison. */
  predicate LongerThan(d: MediaDuration, t: real) {
    match d
    case Finite(x) => x > t
    case Infinite => true
    case NotANumber => false
  }

  /** The time the video is sought to once it has data. */
  function SeekTarget(d: MediaDuration, seekTime: real): (t: real)
    ensures LongerThan(d, seekTime) ==> t == seekTime
    ensures !LongerThan(d, seekTime) ==> t == 0.0
  {
    if LongerThan(d, seekTime) then seekTime else 0.0
  }

  /** A video exactly as long as the seek time is grabbed at 0: the comparison is strict. */
  lemma SeekTargetStrict(seekTime: real)
    ensures SeekTarget(Finite(seekTime), seekTime) == 0.0
  {
  }

  /** Height of the still for a video reporting `videoWidth` x `videoHeight` (0: not
      known, replaced by the option's size): the width scaled by the video's aspect,
      rounded half up. A zero dimension after the fallback makes the quotient
      infinite or NaN, which a canvas size turns into 0. */
  function StillHeight(s: Settings, videoWidth: nat, videoHeight: nat): (h: int)
    ensures var vw := if videoWidth == 0 then s.width else videoWidth;
            var vh := if videoHeight == 0 then s.height else videoHeight;
            (vw == 0 || vh == 0 ==> h == 0) &&
            (vw > 0 && vh > 0 ==> -vw <= 2 * (s.width * vh - h * vw) < vw)
  {
    var vw := if videoWidth == 0 then s.width else videoWidth;
    var vh := if videoHeight == 0 then s.height else videoHeight;
    if vw == 0 || vh == 0 then 0 else Numeric.RoundDiv(s.width * vh, vw)
  }

  /** A video that reports no size gets exactly the requested height. */
  lemma StillHeightUnknownSize(s: Settings)
    requires s.width > 0
    ensures StillHeight(s, 0, 0) == s.height
  {
    Numeric.RoundDivUnique(s.width * s.height, s.width, s.height);
  }

  /** A video with the requested aspect ratio gets the requested height too. */
  lemma StillHeightSameAspect(s: Settings, k: nat)
    requires s.width > 0 && s.height > 0 && k > 0
    ensures StillHeight(s, k * s.width, k * s.height) == s.height
  {
    assert k * s.width > 0 && k * s.height > 0;
    assert s.width * (k * s.height) == s.height * (k * s.width);
    Numeric.RoundDivUnique(s.width * (k * s.height), k * s.width, s.height);
  }

  const CanvasContextMessage: string := "Could not get canvas context"
  const LoadFailedMessage: string := "Failed to load video for thumbnail"
  const TimedOutMessage: string := "Thumbnail generation timed out"
  /** The timeout fallback, in milliseconds. */
  const TimeoutMs: int := 10000

  datatype Settlement = Resolved(still: Still) | Rejected(message: string)

  /** What the job does to the outside world, in order. */
  datatype Action = RevokeUrl | Settle(result: Settlement)

  /** How drawing the frame went once the video had sought. */
  datatype FrameOutcome = Drawn | NoContext | DrawThrew(message: string)

  /** How `captureFrame` settles: the still at the requested width and quality,
      or a rejection naming the missing context or the drawing error. */
  function FrameSettlement(s: Settings, videoWidth: nat, videoHeight: nat, frame: FrameOutcome): (r: Settlement)
    ensures r.Resolved? <==> frame == Drawn
    ensures r.Resolved? ==> r.still == Still(s.width, StillHeight(s, videoWidth, videoHeight), s.quality)
    ensures frame == NoContext ==> r == Rejected(CanvasContextMessage)
    ensures frame.DrawThrew? ==> r == Rejected(frame.message)
  {
    match frame
    case Drawn => Resolved(Still(s.width, StillHeight(s, videoWidth, videoHeight), s.quality))
    case NoContext => Rejected(CanvasContextMessage)
    case DrawThrew(m) => Rejected(m)
  }

  class ThumbnailJob {
    const settings: Settings
    var resolved: bool
    var currentTime: real
    /** The `{ once: true }` listeners still attached. */
    var seekedArmed: bool
    var loadedArmed: bool
    var errorArmed: bool
    var timeoutPending: bool
    /** Revocations and settlements, in order. */
    ghost var log: seq<Action>

    /** The one-shot guard: nothing happened before settlement, and settling is one
        revocation of the object URL followed by one settlement. */
    ghost predicate Valid()
      reads this`resolved, this`log
    {
      (!resolved ==> log == []) &&
      (resolved ==> |log| == 2 && log[0] == RevokeUrl && log[1].Settle?)
    }

    /** The settlement, once there is one. */
    ghost function Outcome(): Option<Settlement>
      reads this`resolved, this`log
      requires Valid()
    {
      if resolved then Some(log[1].result) else None
    }

    /** `generateThumbnail(blob, options)` up to the point where it waits for events. */
    constructor Start(options: Options)
      ensures Valid() && settings == Resolve(options)
      ensures !resolved && seekedArmed && loadedArmed && errorArmed && timeoutPending
      ensures currentTime == 0.0 && log == []
    {
      settings := Resolve(options);
      resolved := false;
      currentTime := 0.0;
      seekedArmed := true;
      loadedArmed := true;
      errorArmed := true;
      timeoutPending := true;
      log := [];
    }

    /** `cleanup` followed by a resolve or reject. */
    method Finish(result: Settlement)
      requires Valid() && !resolved
      modifies this`resolved, this`log
      ensures Valid() && resolved && log == [RevokeUrl, Settle(result)]
    {
      resolved := true;
      log := [RevokeUrl, Settle(result)];
    }

    /** `loadeddata`: seek to the chosen time, once. */
    method OnLoadedData(d: MediaDuration)
      requires Valid()
      modifies this`loadedArmed, this`currentTime
      ensures Valid() && !loadedArmed
      ensures currentTime == if old(loadedArmed) then SeekTarget(d, settings.seekTime) else old(currentTime)
    {
      if loadedArmed {
        loadedArmed := false;
        currentTime := SeekTarget(d, settings.seekTime);
      }
    }

    /** `seeked` (`captureFrame`), once: unless already settled, settle with the frame
        of the given size, or reject when no 2D context exists or drawing throws. */
    method OnSeeked(videoWidth: nat, videoHeight: nat, frame: FrameOutcome)
      requires Valid()
      modifies this`seekedArmed, this`resolved, this`log
      ensures Valid() && !seekedArmed
      ensures old(resolved) || !old(seekedArmed) ==> resolved == old(resolved) && log == old(log)
      ensures !old(resolved) && old(seekedArmed) ==>
                Outcome() == Some(FrameSettlement(settings, videoWidth, videoHeight, frame))
    {
      if !seekedArmed {
        return;
      }
      seekedArmed := false;
      if resolved {
        return;
      }
      Finish(FrameSettlement(settings, videoWidth, videoHeight, frame));
    }

    /** `error` on the video element, once. */
    method OnError()
      requires Valid()
      modifies this`errorArmed, this`resolved, this`log
      ensures Valid() && !errorArmed
      ensures old(resolved) || !old(errorArmed) ==> resolved == old(resolved) && log == old(log)
      ensures !old(resolved) && old(errorArmed) ==> Outcome() == Some(Rejected(LoadFailedMessage))
    {
      if errorArmed {
        errorArmed := false;
        if !resolved {
          Finish(Rejected(LoadFailedMessage));
        }
      }
    }

    /** The 10 s timer firing. */
    method OnTimeout()
      requires Valid()
      modifies this`timeoutPending, this`resolved, this`log
      ensures Valid() && !timeoutPending
      ensures old(resolved) || !old(timeoutPending) ==> resolved == old(resolved) && log == old(log)
      ensures !old(resolved) && old(timeoutPending) ==> Outcome() == Some(Rejected(TimedOutMessage))
    {
      if timeoutPending {
        timeoutPending := false;
        if !resolved {
          Finish(Rejected(TimedOutMessage));
        }
      }
    }
  }

  /** The events a video element and the timer can deliver to a job. */
  datatype Event =
    | LoadedData(duration: MediaDuration)
    | Seeked(videoWidth: nat, videoHeight: nat, frame: FrameOutcome)
    | VideoError
    | Timeout

  /** Any run of events settles the job at most once, and the first settlement
      stays: later events change neither the settlement nor the actions taken. */
  method Run(job: ThumbnailJob, events: seq<Event>)
    requires job.Valid()
    modifies job
    ensures job.Valid()
    ensures old(job.resolved) ==> job.resolved && job.log == old(job.log)
    ensures job.resolved ==> |job.log| == 2
  {
    for i := 0 to |events|
      invariant job.Valid()
      invariant old(job.resolved) ==> job.resolved && job.log == old(job.log)
    {
      match events[i]
      case LoadedData(d) => job.OnLoadedData(d);
      case Seeked(w, h, f) => job.OnSeeked(w, h, f);
      case VideoError => job.OnError();
      case Timeout => job.OnTimeout();
    }
  }
}
