/** `VideoPlayer` of src/components/viewer/video-player.tsx: the watch page's player.
    The `<video>` element is `Video`; the component's React state is `VideoPlayer`. */
module VideoPlayer {

  /** The parts of the media element the player reads and writes. */
  class Video {
    var paused: bool
    var currentTime: real
    var duration: real
    var volume: real
    var muted: bool
    var playbackRate: real

    /** A freshly loaded element: paused at 0, full volume, not muted, normal speed. */
    constructor ()
      ensures paused && currentTime == 0.0 && duration == 0.0
      ensures volume == 1.0 && !muted && playbackRate == 1.0
    {
      paused := true;
      currentTime := 0.0;
      duration := 0.0;
      volume := 1.0;
      muted := false;
      playbackRate := 1.0;
    }
  }

  /** The speeds the speed button steps through. */
  const Speeds: seq<real> := [0.5, 1.0, 1.5, 2.0]

  /** `Array.prototype.indexOf`: the first position of `x`, or -1. */
  function IndexOf(xs: seq<real>, x: real): (i: int)
    ensures -1 <= i < |xs|
    ensures i == -1 <==> x !in xs
    ensures 0 <= i ==> xs[i] == x && forall j :: 0 <= j < i ==> xs[j] != x
  {
    if xs == [] then -1
    else if xs[0] == x then 0
    else var k := IndexOf(xs[1..], x); if k == -1 then -1 else k + 1
  }

  /** The speed after one press of the speed button. */
  function NextSpeed(rate: real): (next: real)
    ensures next in Speeds
  {
    Speeds[(IndexOf(Speeds, rate) + 1) % |Speeds|]
  }

  /** Each listed speed steps to the following one, and the last back to the first. */
  lemma NextSpeedSteps()
    ensures NextSpeed(0.5) == 1.0 && NextSpeed(1.0) == 1.5 && NextSpeed(1.5) == 2.0 && NextSpeed(2.0) == 0.5
  {
    SpeedIndex(0);
    SpeedIndex(1);
    SpeedIndex(2);
    SpeedIndex(3);
  }

  /** A listed speed is found at its own position. */
  lemma SpeedIndex(i: int)
    requires 0 <= i < |Speeds|
    ensures IndexOf(Speeds, Speeds[i]) == i
  {
    forall j | 0 <= j < i
      ensures Speeds[j] != Speeds[i]
    {
    }
  }

  /** Four presses come back to the speed they started from. */
  lemma FourPressesReturn(rate: real)
    requires rate in Speeds
    ensures NextSpeed(NextSpeed(NextSpeed(NextSpeed(rate)))) == rate
  {
    NextSpeedSteps();
    var a := NextSpeed(rate);
    var b := NextSpeed(a);
    var c := NextSpeed(b);
    if rate == 0.5 {
      assert a == 1.0 && b == 1.5 && c == 2.0;
    } else if rate == 1.0 {
      assert a == 1.5 && b == 2.0 && c == 0.5;
    } else if rate == 1.5 {
      assert a == 2.0 && b == 0.5 && c == 1.0;
    } else {
      assert a == 0.5 && b == 1.0 && c == 1.5;
    }
  }

  /** A speed that is not listed (set by other means) steps to the first, 0.5,
      because its index -1 plus one is 0. */
  lemma UnlistedSpeedRestarts(rate: real)
    requires rate !in Speeds
    ensures NextSpeed(rate) == 0.5
  {
  }

  /** The seek bar's fill, in percent. */
  function Progress(currentTime: real, duration: real): (p: real)
    ensures duration <= 0.0 ==> p == 0.0
    ensures duration > 0.0 ==> p * duration == currentTime * 100.0
    ensures duration > 0.0 && 0.0 <= currentTime <= duration ==> 0.0 <= p <= 100.0
  {
    if duration > 0.0 then (currentTime / duration) * 100.0 else 0.0
  }

  /** The keys the player handles. */
  datatype Key = Space | KeyF | KeyM | ArrowLeft | ArrowRight | OtherKey

  /** The seconds an arrow key moves the play head. */
  const SeekStep: real := 10.0
  /** The delay before idle controls hide, in milliseconds. */
  const HideDelayMs: int := 3000

  class VideoPlayer {
    /** `videoRef.current`; `null` before the element is mounted. */
    const video: Video?
    var playing: bool
    var currentTime: real
    var duration: real
    var volume: real
    var muted: bool
    var isFullscreen: bool
    var showControls: bool
    var playbackRate: real
    /** The hide timer is pending. */
    var hideTimerArmed: bool
    /** `document.fullscreenElement` is set. */
    var documentFullscreen: bool

    /** The state mirrors the element in volume, muting and speed. */
    ghost predicate Valid()
      reads this, video
    {
      video != null ==> video.volume == volume && video.muted == muted && video.playbackRate == playbackRate
    }

    /** Whether sound comes out of the element. */
    predicate Audible()
      reads video
    {
      video != null && !video.muted && video.volume > 0.0
    }

    /** Whether the mute button shows the speaker with sound. */
    predicate IconShowsSound()
      reads this`muted, this`volume
    {
      !(muted || volume == 0.0)
    }

    /** While the state mirrors the element, the mute button tells the truth. */
    lemma IconTruthful()
      requires Valid() && video != null && volume >= 0.0
      ensures Audible() <==> IconShowsSound()
    {
    }

    constructor (video: Video?)
      requires video != null ==> video.volume == 1.0 && !video.muted && video.playbackRate == 1.0
      ensures this.video == video && Valid()
      ensures !playing && currentTime == 0.0 && duration == 0.0 && volume == 1.0 && !muted
      ensures !isFullscreen && showControls && playbackRate == 1.0 && !hideTimerArmed && !documentFullscreen
    {
      this.video := video;
      playing := false;
      currentTime := 0.0;
      duration := 0.0;
      volume := 1.0;
      muted := false;
      isFullscreen := false;
      showControls := true;
      playbackRate := 1.0;
      hideTimerArmed := false;
      documentFullscreen := false;
    }

    /** `togglePlay`: play a paused element, pause a playing one. */
    method TogglePlay()
      requires Valid()
      modifies video
      ensures Valid()
      ensures video != null ==> video.paused == !old(video.paused)
    {
      if video != null {
        video.paused := !video.paused;
      }
    }

    /** `toggleMute`: flips the element's muting and the state's, each from its own value. */
    method ToggleMute()
      requires Valid()
      modifies video, this`muted
      ensures Valid()
      ensures video == null ==> muted == old(muted)
      ensures video != null ==> video.muted == !old(video.muted) && muted == !old(muted)
      ensures video != null ==> video.volume == old(video.volume) && video.playbackRate == old(video.playbackRate)
    {
      if video != null {
        video.muted := !video.muted;
        muted := !muted;
      }
    }

    /** `toggleFullscreen`: leave full screen, or ask for it. */
    method ToggleFullscreen()
      modifies this`documentFullscreen
      ensures documentFullscreen == !old(documentFullscreen)
    {
      documentFullscreen := !documentFullscreen;
    }

    /** `handleSeek`: the seek bar moves the element and the shown time. */
    method HandleSeek(time: real)
      requires Valid()
      modifies video, this`currentTime
      ensures Valid()
      ensures video == null ==> currentTime == old(currentTime)
      ensures video != null ==> video.currentTime == time && currentTime == time
      ensures video != null ==> video.muted == old(video.muted) && video.volume == old(video.volume)
    {
      if video != null {
        video.currentTime := time;
        currentTime := time;
      }
    }

    /** `handleVolumeChange` as written: the element gets the volume, the state gets
        the volume and `muted` iff it is 0, and the element's own muting is left
        alone. After a mute a non-zero volume leaves the element muted while the
        state says it is not. */
    method HandleVolumeChangeAsWritten(vol: real)
      requires 0.0 <= vol <= 1.0
      modifies video, this`volume, this`muted
      ensures video == null ==> volume == old(volume) && muted == old(muted)
      ensures video != null ==> video.volume == vol && video.muted == old(video.muted)
      ensures video != null ==> volume == vol && (muted <==> vol == 0.0)
    {
      if video != null {
        video.volume := vol;
        volume := vol;
        muted := vol == 0.0;
      }
    }

    /** `handleVolumeChange` with the element's muting set along with the state's,
        so the two stay equal. */
    method HandleVolumeChange(vol: real)
      requires Valid() && 0.0 <= vol <= 1.0
      modifies video, this`volume, this`muted
      ensures Valid()
      ensures video == null ==> volume == old(volume) && muted == old(muted)
      ensures video != null ==> video.volume == vol && volume == vol && (muted <==> vol == 0.0)
    {
      if video != null {
        video.volume := vol;
        video.muted := vol == 0.0;
        volume := vol;
        muted := vol == 0.0;
      }
    }

    /** `cycleSpeed`: the next listed speed, on the element and in the state. */
    method CycleSpeed()
      requires Valid()
      modifies video, this`playbackRate
      ensures Valid()
      ensures video == null ==> playbackRate == old(playbackRate)
      ensures video != null ==> playbackRate == NextSpeed(old(playbackRate))
    {
      if video != null {
        var idx := IndexOf(Speeds, playbackRate);
        var next := Speeds[(idx + 1) % |Speeds|];
        video.playbackRate := next;
        playbackRate := next;
      }
    }

    /** A `keydown` on the window; keys typed into an input are left to it. */
    method OnKeyDown(key: Key, targetIsInput: bool)
      requires Valid()
      modifies video, this`muted, this`documentFullscreen
      ensures Valid()
      ensures targetIsInput ==> unchanged(this) && (video != null ==> unchanged(video))
      ensures !targetIsInput && key == ArrowLeft && video != null ==>
                video.currentTime == old(video.currentTime) - SeekStep
      ensures !targetIsInput && key == ArrowRight && video != null ==>
                video.currentTime == old(video.currentTime) + SeekStep
      ensures !targetIsInput && key == KeyM && video != null ==> muted == !old(muted)
      ensures !targetIsInput && key == KeyF ==> documentFullscreen == !old(documentFullscreen)
      ensures !targetIsInput && key == Space && video != null ==> video.paused == !old(video.paused)
      ensures !targetIsInput && key == OtherKey ==> unchanged(this) && (video != null ==> unchanged(video))
    {
      if targetIsInput {
        return;
      }
      match key
      case Space => TogglePlay();
      case KeyF => ToggleFullscreen();
      case KeyM => ToggleMute();
      case ArrowLeft =>
        if video != null {
          video.currentTime := video.currentTime - SeekStep;
        }
      case ArrowRight =>
        if video != null {
          video.currentTime := video.currentTime + SeekStep;
        }
      case OtherKey =>
    }

    /** `resetHideTimer` (mouse movement): show the controls, and arm the hide timer
        only while playing. */
    method ResetHideTimer()
      modifies this`showControls, this`hideTimerArmed
      ensures showControls && hideTimerArmed == playing
    {
      showControls := true;
      hideTimerArmed := playing;
    }

    /** The hide timer firing. */
    method OnHideTimer()
      modifies this`showControls, this`hideTimerArmed
      ensures !hideTimerArmed
      ensures showControls == (old(showControls) && !old(hideTimerArmed))
    {
      if hideTimerArmed {
        showControls := false;
        hideTimerArmed := false;
      }
    }

    /** The mouse leaving the player hides the controls while playing. */
    method OnMouseLeave()
      modifies this`showControls
      ensures showControls == (old(showControls) && !playing)
    {
      if playing {
        showControls := false;
      }
    }

    /** The element's `play`, `pause`, `timeupdate` and `loadedmetadata` events and
        the document's `fullscreenchange`. */
    method OnPlaying(p: bool)
      modifies this`playing
      ensures playing == p
    {
      playing := p;
    }

    method OnTimeUpdate()
      requires video != null
      modifies this`currentTime
      ensures currentTime == video.currentTime
    {
      currentTime := video.currentTime;
    }

    method OnLoadedMetadata()
      requires video != null
      modifies this`duration
      ensures duration == video.duration
    {
      duration := video.duration;
    }

    method OnFullscreenChange()
      modifies this`isFullscreen
      ensures isFullscreen == documentFullscreen
    {
      isFullscreen := documentFullscreen;
    }
  }

  /** Mute, then drag the volume up, with the handler as written: the element stays
      muted while the button shows sound. */
  method MuteThenRaiseVolumeAsWritten(p: VideoPlayer)
    requires p.Valid() && p.video != null && !p.muted
    modifies p.video, p
    ensures p.video.muted && p.IconShowsSound() && !p.Audible()
  {
    p.ToggleMute();
    p.HandleVolumeChangeAsWritten(0.5);
  }

  /** The same steps with the corrected handler: the button and the sound agree. */
  method MuteThenRaiseVolume(p: VideoPlayer)
    requires p.Valid() && p.video != null && !p.muted
    modifies p.video, p
    ensures p.Valid() && p.IconShowsSound() && p.Audible()
  {
    p.ToggleMute();
    p.HandleVolumeChange(0.5);
  }
}
