# screenrec, modelled in Dafny

screenrec is a Next.js web application. It records the screen, optionally with a
round webcam overlay and a microphone, uploads the recording to blob storage, and
organises recordings on a tagged dashboard with a watch page. This project models
the deterministic core of the application and proves properties of it:

- **the recording session** (`ScreenRecorder`, over `Media`). The `useScreenRecorder`
  hook is a class whose fields are the hook's refs and state. Tracks, streams, the
  encoder and the audio context are objects with a `stopped` or `closed` flag, and
  browser callbacks are methods. It covers choosing the MIME type, combining the
  audio tracks, the chunk buffer drained into one blob, pause and resume duration
  accounting, the live thumbnail and teardown;
- **the recorder page** (`RecorderView`): the compositor guard, the webcam overlay
  corner geometry, the canvas size, the 3-2-1 countdown, the microphone and webcam
  toggles, and the order in which devices are acquired;
- **the thumbnail grab** (`Thumbnail`): the option defaults, the seek target, the
  still's height, and the one-shot settlement shared by four event handlers;
- **the upload hook** (`Upload`): `progress` and `uploading` driven by the request's
  progress, load and error events;
- **the list and selection rules** of the dashboard and viewer: device lists
  (`MediaDevices`), the controls offered per state (`RecordingControls`), tag
  suggestions (`TagInput`), the tag manager (`ManageTags`), the recording grid and
  card (`RecordingGrid`, `RecordingCard`), viewport clamping of the dropdown and
  the tag popover (`Positioning`), the video player (`VideoPlayer`) and the progress
  bar (`ProgressBar`);
- **the server side**: the recording queries over the `recordings` table
  (`DbQueries`), the bulk delete route (`BulkRoute`) and the tag creation route
  (`TagsRoute`).

`Types` and `Constants` hold the shared records and constants, `Text` the string
operations the code uses (`trim`, `toLowerCase`, `includes`, `slice`), `Numeric`
rounding, and `Wrappers` the `Option` type.

Time is in integer milliseconds. Coordinates, percentages and media times are
`real`, so they are exact rationals. Foreign calls (`fetch`, `XMLHttpRequest`,
`MediaRecorder`, `getUserMedia`, `db.execute`, the blob store) are outcome
parameters, and the database is a map from id to row.

### Behaviour as written

The model follows the code where its behaviour differs from what the UI suggests.
These consequences are stated as contracts or lemmas:

- The compositor runs only in RECORDING, but the countdown calls `startRecording`
  while the page is still PREVIEWING. The canvas stream does not exist yet, so a
  recording started by the first countdown records the raw screen, even with the
  webcam on (`RecorderView.RecorderView.CountdownTick`, `RecorderView.CountdownSession`).
- Discarding does not stop the encoder. A stop event that arrives afterwards puts
  the session in STOPPED with a blob (`ScreenRecorder.DiscardThenLateStop`).
- Start stays offered during the countdown, so a second press runs a second
  countdown and a second `startRecording`
  (`RecorderView.RecorderView.HandleStartRecording`). That call may record the
  canvas, and its `startTimer` overwrites `timerRef` without clearing the first
  interval. The leaked interval keeps setting the duration in PAUSED, in STOPPED
  and after a discard (`ScreenRecorder.DoubleStartDriftAsWritten`,
  `ScreenRecorder.DiscardThenLeakedTick`).
- All five MIME preferences are WebM. On a platform that supports none of them,
  the "video/webm" fallback makes `new MediaRecorder` throw: the countdown has
  already cleared, and the page stays in PREVIEWING (`ScreenRecorder.Recorder.StartRecording`).
- An id given twice to the bulk delete gets two passes, so a call that throws on
  the first pass can succeed on the second (`BulkRoute.TransientFailureRetried`).
- A screen grant without a video track reports "Failed to capture screen".
- Teardown leaves the canvas stream's tracks running.
- The hidden canvas starts at the HTML default 300 x 150.
- The page never sets UPLOADING, so that state is unreachable from the page.
- A 2xx upload response whose body is not JSON throws inside the event listener.
  The hook then shows the upload forever (`Upload.Transfer.OnLoad`).
- If `onComplete` throws, `onError` is called after the completion
  (`Upload.SuccessNotices`).
- Enter in the tag rename box saves even when the name is blank, which the Save
  button would not allow (`ManageTags.ManageTagsDialog.HandleSave`).
- The card's rename guard compares the untrimmed text, so a trailing space renames
  a title to itself (`RecordingCard.PaddedTitlePasses`).
- The popover is clamped as if 260 px wide, but its class makes it 256 px. In a
  viewport narrower than the dropdown, the dropdown is pushed past the left edge
  (`Positioning.ClampOrderMatters`).
- An update field given as the empty string is still written
  (`DbQueries.EmptyStringIsGiven`).
- A `has_webcam` value other than 0 or 1 reads as false and does not survive a
  round trip (`DbQueries.OtherFlagReadsFalse`).
- The bulk delete counts an id given twice only once, because the second delete
  affects no row (`BulkRoute.DeletedCountsRemovedRows`).

## Model

| member | source | states |
|---|---|---|
| `Media.Track.constructor` | src/hooks/use-screen-recorder.ts:53 | a new track is live (not stopped) and keeps its kind |
| `Media.OfKind` | src/hooks/use-screen-recorder.ts:220-221 | `getAudioTracks`/`getVideoTracks` select at most the stream's tracks |
| `Media.OfKindMembers` | src/hooks/use-screen-recorder.ts:220-221 | a track is selected iff it belongs to the stream and has the requested kind |
| `Media.OfKindAppend` | src/hooks/use-screen-recorder.ts:222 | selecting by kind distributes over concatenation, so stream order is kept |
| `Media.MediaStream.constructor` | src/hooks/use-screen-recorder.ts:261-264 | a stream owns exactly the tracks it was built from, in order |
| `Media.StopAll` | src/hooks/use-screen-recorder.ts:53 | `getTracks().forEach(t => t.stop())` leaves every listed track stopped |
| `Media.AudioContext.constructor` | src/hooks/use-screen-recorder.ts:236-238 | a new context is open, has no sources, and its destination is one fresh live audio track |
| `Media.AudioContext.Connect` | src/hooks/use-screen-recorder.ts:241-244 | connecting a source appends it to the context's sources |
| `Media.AudioContext.Close` | src/hooks/use-screen-recorder.ts:62 | `close()` leaves the context closed |
| `Media.Encoder.Start` | src/hooks/use-screen-recorder.ts:261-295 | the encoder records the video tracks, then the audio tracks, with the given MIME type and bitrate, a 1000 ms timeslice, and no stop call yet |
| `Media.Encoder.Pause` | src/hooks/use-screen-recorder.ts:305 | `pause()` leaves the encoder paused |
| `Media.Encoder.Resume` | src/hooks/use-screen-recorder.ts:314 | `resume()` leaves the encoder recording |
| `Media.Encoder.Stop` | src/hooks/use-screen-recorder.ts:329 | `stop()` makes the encoder inactive and counts one more stop call |
| `Media.TotalSizeAppend` | src/hooks/use-screen-recorder.ts:281 | a blob's size is the sum of its parts' sizes, however the parts are split |
| `Numeric.RoundDiv` | src/hooks/use-screen-recorder.ts:188 | `Math.round(n/d)`: the result lies within half of `d` of the exact quotient, with halves rounded up |
| `Numeric.RoundDivUnique` | src/hooks/use-screen-recorder.ts:188 | only one integer satisfies that rounding bound, so `RoundDiv`'s contract determines its result |
| `ScreenRecorder.FirstSupported` | src/hooks/use-screen-recorder.ts:8-10 | the index of the first supported preference: every earlier one is unsupported, and it is the list length when none is supported |
| `ScreenRecorder.PreferredMime` | src/hooks/use-screen-recorder.ts:7-12 | the chosen type is supported whenever some preference is; no earlier preference is supported; with none supported it is "video/webm" |
| `ScreenRecorder.PreferredMimeIsAPreference` | src/lib/constants.ts:3-9 | the result is always one of the five preferences, because the fallback is the last of them |
| `ScreenRecorder.PreferredMimeSupportedIff` | src/hooks/use-screen-recorder.ts:7-12 | the detected type is supported iff some preference is; otherwise it is the unchecked "video/webm" fallback |
| `ScreenRecorder.GetSupportedMimeType` | src/hooks/use-screen-recorder.ts:7-12 | the loop over the preference list returns exactly `PreferredMime` |
| `ScreenRecorder.MixAudio` | src/hooks/use-screen-recorder.ts:231-259 | 0 or 1 sources pass through with no context. With 2 or more, a fresh open context is connected to every source in order and its destination track replaces them. If the context cannot be built, or a connection throws, the sources pass through and any sources already connected stay connected |
| `ScreenRecorder.LiveThumbnail` | src/hooks/use-screen-recorder.ts:180-202 | a still exists iff a 2D context exists and the page video has `readyState` >= 2. Its width is 320 and its quality 0.6. Its height is the rounded 320 / (vw/vh), where vw/vh fall back to 1920/1080 when a track reports 0 |
| `ScreenRecorder.LiveThumbnailDefaultSize` | src/hooks/use-screen-recorder.ts:181-188 | a track with no reported size gives a 320x180 still |
| `ScreenRecorder.NonEmptyChunksMembers` | src/hooks/use-screen-recorder.ts:276-278 | exactly the payloads with size > 0 are kept |
| `ScreenRecorder.NonEmptyChunksAppend` | src/hooks/use-screen-recorder.ts:276-278 | filtering distributes over arrival order: later payloads come after earlier ones |
| `ScreenRecorder.NonEmptyChunksSize` | src/hooks/use-screen-recorder.ts:277-281 | dropping empty payloads never changes the blob's size |
| `ScreenRecorder.NewEncoder` | src/hooks/use-screen-recorder.ts:212-295 | the audio step runs first and yields the mixing plan. An encoder exists iff the detected MIME type is supported, since `new MediaRecorder` throws for the unchecked fallback. A fresh encoder is recording, with the detected type, VIDEO_BITRATE, a 1000 ms timeslice, the given video tracks and the plan's audio |
| `ScreenRecorder.Recorder.constructor` | src/hooks/use-screen-recorder.ts:15-31 | initial state: IDLE, no streams, blob, thumbnail or error, duration 0, MIME "video/webm", empty buffer, baseline 0, no interval live |
| `ScreenRecorder.Recorder.Tick` | src/hooks/use-screen-recorder.ts:42-47 | while any interval is live, whether the one `timerRef` holds or a leaked one, duration = (now - start) + baseline. With none live it is unchanged |
| `ScreenRecorder.Recorder.StartTimer` | src/hooks/use-screen-recorder.ts:40-48 | the start time is `now` and `timerRef` holds a new interval. An interval it already held is leaked: the leak count grows by one |
| `ScreenRecorder.Recorder.StopTimer` | src/hooks/use-screen-recorder.ts:33-38 | only the interval `timerRef` holds is cleared. The leaked ones keep firing, so the clock stops iff none was leaked |
| `ScreenRecorder.Recorder.StartTimerCorrected` | src/hooks/use-screen-recorder.ts:40-48 | the corrected `startTimer`, clearing the interval it replaces: the start time is `now`, `timerRef` holds an interval and nothing is leaked |
| `ScreenRecorder.Recorder.Cleanup` | src/hooks/use-screen-recorder.ts:50-72 | every track of the three held streams is stopped and a held audio context is closed. All streams, the context, the canvas stream, the encoder, the buffer, the baseline and `timerRef` are cleared. Leaked intervals survive, so the clock stops iff none was leaked. A second call changes nothing |
| `ScreenRecorder.Recorder.StartScreenCapture` | src/hooks/use-screen-recorder.ts:74-108 | a granted stream becomes the screen stream, the state becomes PREVIEWING and the error is cleared. A refusal gives "Screen sharing was denied" for NotAllowedError and "Failed to capture screen" otherwise, and state IDLE. A granted stream with no video track fails the second way |
| `ScreenRecorder.Recorder.StartWebcam` | src/hooks/use-screen-recorder.ts:110-130 | a granted camera becomes the webcam stream; a failure leaves it and sets "Failed to access webcam" |
| `ScreenRecorder.Recorder.StartMicrophone` | src/hooks/use-screen-recorder.ts:139-158 | a granted microphone becomes the mic stream; a failure changes nothing and is not an error |
| `ScreenRecorder.Recorder.StopWebcam` | src/hooks/use-screen-recorder.ts:132-137 | the webcam's tracks are stopped and the reference is cleared; with no webcam nothing changes |
| `ScreenRecorder.Recorder.StopMicrophone` | src/hooks/use-screen-recorder.ts:160-165 | the mic's tracks are stopped and the reference is cleared; with no mic nothing changes |
| `ScreenRecorder.Recorder.SetCanvasStream` | src/hooks/use-screen-recorder.ts:167-169 | the canvas stream is held |
| `ScreenRecorder.Recorder.StartRecording` | src/hooks/use-screen-recorder.ts:209-301 | without a screen stream nothing changes. Otherwise the MIME type is the detected one and the buffer empties. If that type is unsupported, encoder construction throws: the encoder, clock, duration and state stay as they were (the mixing context made is kept). Otherwise the baseline and duration are 0, the clock starts at `now`, leaking an interval `timerRef` held, and the state is RECORDING. The fresh encoder records the canvas stream's video if set, else the screen's, followed by the mixing plan's audio over screen-then-mic sources |
| `ScreenRecorder.Recorder.Begin` | src/hooks/use-screen-recorder.ts:213-300 | the bookkeeping after the encoder starts: MIME type, empty buffer, encoder held, context held if made, baseline and duration 0, clock started (leaking an interval `timerRef` held), state RECORDING |
| `ScreenRecorder.Recorder.OnDataAvailable` | src/hooks/use-screen-recorder.ts:276-278 | the buffer grows by the payload only if its size is > 0 |
| `ScreenRecorder.Recorder.OnEncoderStop` | src/hooks/use-screen-recorder.ts:280-293 | the blob is the buffer's payloads in order, typed with the encoder's MIME type. The buffer empties, `timerRef` is cleared, the state becomes STOPPED, and the context is closed and released. Leaked intervals keep firing, so the clock stops iff none was leaked |
| `ScreenRecorder.Recorder.Pause` | src/hooks/use-screen-recorder.ts:303-310 | only a recording encoder is paused: `timerRef` is cleared, the leak count is unchanged, the baseline becomes the last sampled duration, and the state is PAUSED. Otherwise nothing changes |
| `ScreenRecorder.Recorder.Resume` | src/hooks/use-screen-recorder.ts:312-318 | only a paused encoder is resumed: the clock restarts at `now` and the state is RECORDING. Otherwise nothing changes |
| `ScreenRecorder.Recorder.StopRecording` | src/hooks/use-screen-recorder.ts:320-332 | the thumbnail is captured first. An encoder that is not inactive gets exactly one stop call. The state and all tracks stay as they were |
| `ScreenRecorder.Recorder.Discard` | src/hooks/use-screen-recorder.ts:334-340 | blob and thumbnail are cleared, duration is 0, everything `Cleanup` promises holds, and the state is IDLE. A leaked interval survives, and its next tick moves the duration again |
| `ScreenRecorder.Recorder.SetUploading` | src/hooks/use-screen-recorder.ts:342 | the state is UPLOADING |
| `ScreenRecorder.Recorder.SetDone` | src/hooks/use-screen-recorder.ts:343-346 | the same teardown as `Cleanup`, leaked intervals included, ending in DONE |
| `ScreenRecorder.Recorder.OnScreenEnded` | src/hooks/use-screen-recorder.ts:86-94 | a recording encoder is stopped as `stopRecording` does, with the streams kept. Any other state, paused included, is torn down and returns to IDLE |
| `ScreenRecorder.DeliverChunks` | src/hooks/use-screen-recorder.ts:276-278 | a run of payloads grows the buffer by exactly its non-empty payloads, in arrival order |
| `ScreenRecorder.PauseResumeSession` | src/hooks/use-screen-recorder.ts:303-318 | with one live interval: tick, pause, resume and tick give duration = baseline + both running stretches; the paused time is not counted |
| `ScreenRecorder.PauseResumeCycles` | src/hooks/use-screen-recorder.ts:303-318 | with one live interval, any number of pause and resume cycles, each paused at a tick, end with duration = baseline + the running stretches only (`RunningTime`) |
| `ScreenRecorder.DiscardThenLateStop` | src/hooks/use-screen-recorder.ts:280-340 | after a discard, the still-running encoder's late payload and stop event take the recorder from IDLE to STOPPED, holding a blob |
| `ScreenRecorder.DoubleStartDriftAsWritten` | src/hooks/use-screen-recorder.ts:40-48 | two `startRecording` calls, then a pause: an interval is leaked, and a tick at t3 in PAUSED sets the duration to the baseline + (t3 - second start), so the paused time is counted |
| `ScreenRecorder.DiscardThenLeakedTick` | src/hooks/use-screen-recorder.ts:334-340 | with a leaked interval, the tick after a discard overwrites the zeroed duration with (t - start), in IDLE |
| `ScreenRecorder.RestartTwiceAsWritten` | src/hooks/use-screen-recorder.ts:33-48 | starting the clock twice and stopping it leaves one interval live, and a later tick sets the duration |
| `ScreenRecorder.RestartTwiceCorrected` | src/hooks/use-screen-recorder.ts:33-48 | with the corrected `startTimer`, the same sequence leaves no interval live and a later tick changes nothing |
| `RecorderView.OverlayOrigin` | src/components/recording/recorder.tsx:119-139 | the circle's square sits 20 px from the two edges of its corner. Left positions have x = 20 and the others x + 180 + 20 = W. Top positions have y = 20 and the others y + 180 + 20 = H. Any position not named falls to bottom-right |
| `RecorderView.OverlayInsideCanvas` | src/components/recording/recorder.tsx:119-139 | on a canvas at least 220 px each way, the circle keeps 20 px inside every edge |
| `RecorderView.OverlayPositionsDistinct` | src/components/recording/recorder.tsx:123-139 | on a canvas over 220 px each way, the four positions give four different origins |
| `RecorderView.CanvasSize` | src/components/recording/recorder.tsx:95-96 | the canvas takes the screen video's size, with 1920 and 1080 replacing a 0 width or height |
| `RecorderView.Draw` | src/components/recording/recorder.tsx:114-153 | every tick draws the screen over the whole canvas first. The webcam circle (180 px at the chosen corner) follows iff the webcam video's readyState >= 2 |
| `RecorderView.DeviceArg` | src/components/recording/recorder.tsx:179-182 | a selection or-else undefined: an absent or empty selection asks for the default device |
| `RecorderView.AcquisitionPlan` | src/components/recording/recorder.tsx:174-185 | no request without a screen stream. Otherwise the mic is requested iff its toggle is on, the webcam iff its toggle is on, and the mic always comes before the webcam |
| `RecorderView.CanvasMountedWhileRecording` | src/components/recording/recorder.tsx:402 | the hidden canvas is rendered in RECORDING, so the compositor's `canvasRef` test never fails there |
| `RecorderView.RecorderView.constructor` | src/components/recording/recorder.tsx:50-56 | mic on, webcam off, position bottom-right, no device chosen, no countdown, and the canvas at the HTML default 300x150 |
| `RecorderView.RecorderView.Render` | src/components/recording/recorder.tsx:64-73 | after every render the compositor runs iff RECORDING, webcam included, screen, webcam and canvas present |
| `RecorderView.RecorderView.HandleStartCapture` | src/components/recording/recorder.tsx:174-185 | the requests made are exactly `AcquisitionPlan` for the capture's outcome. A grant leads to PREVIEWING on that stream; otherwise the state is IDLE and no device is acquired |
| `RecorderView.RecorderView.AcquireDevices` | src/components/recording/recorder.tsx:178-183 | the mic, then the webcam, are requested and held when included and granted |
| `RecorderView.RecorderView.HandleStartRecording` | src/components/recording/recorder.tsx:187-189 | shows 3 and starts one more countdown at 3; a second press starts a second countdown |
| `RecorderView.RecorderView.CountdownTick` | src/components/recording/recorder.tsx:190-199 | above 1, the countdown shows the decremented count and nothing else happens. At 1 it ends, the display clears and `startRecording` is called once. With a supported MIME type it records, and when started from PREVIEWING it records the raw screen, not the canvas. Otherwise the recorder's state and encoder stay as they were |
| `RecorderView.RecorderView.OnScreenMetadata` | src/components/recording/recorder.tsx:94-100 | sizes the canvas by `CanvasSize` and hands the recorder a fresh canvas stream with one video track |
| `RecorderView.RecorderView.ToggleMic` | src/components/recording/recorder.tsx:202-212 | the flag flips. Off stops the mic's tracks and clears it in any state. On requests a mic only in PREVIEWING |
| `RecorderView.RecorderView.ToggleWebcam` | src/components/recording/recorder.tsx:214-224 | the flag flips. Off stops the webcam's tracks and clears it in any state. On requests a camera only in PREVIEWING |
| `RecorderView.RecorderView.FlipMicSetting` | src/components/recording/recorder.tsx:253 | the IDLE screen's switch only flips the flag |
| `RecorderView.RecorderView.FlipWebcamSetting` | src/components/recording/recorder.tsx:292 | the IDLE screen's switch only flips the flag |
| `RecorderView.RecorderView.SelectCamera` | src/components/recording/recorder.tsx:313 | the chosen camera id is held |
| `RecorderView.RecorderView.SelectMic` | src/components/recording/recorder.tsx:273 | the chosen microphone id is held |
| `RecorderView.RecorderView.SetPosition` | src/components/recording/recorder.tsx:328 | the chosen overlay corner is held |
| `RecorderView.RecorderView.Pause` | src/components/recording/recorder.tsx:413 | the Pause control moves a recording encoder's session to PAUSED and leaves any other state as it was |
| `RecorderView.RecorderView.Resume` | src/components/recording/recorder.tsx:414 | the Resume control moves a paused encoder's session to RECORDING and leaves any other state as it was |
| `RecorderView.RecorderView.Stop` | src/components/recording/recorder.tsx:415 | the Stop control takes the live thumbnail and leaves the state to the encoder's stop event |
| `RecorderView.RecorderView.Discard` | src/components/recording/recorder.tsx:416 | discarding returns to IDLE with no blob and ends the compositor |
| `RecorderView.RecorderView.HandleComplete` | src/components/recording/recorder.tsx:226-232 | a finished upload tears the session down and ends in DONE |
| `RecorderView.RecorderView.OnEncoderStop` | src/hooks/use-screen-recorder.ts:280-293 | the encoder's stop drains the buffered chunks into one blob of the encoder's type, ends in STOPPED and ends the compositor |
| `RecorderView.RecorderView.OnDataAvailable` | src/hooks/use-screen-recorder.ts:276-278 | a non-empty payload is appended to the buffer and an empty one dropped |
| `RecorderView.RecorderView.OnScreenEnded` | src/hooks/use-screen-recorder.ts:86-94 | the end of sharing while the encoder records leaves the state to the stop event. Otherwise the page returns to IDLE with the compositor off |
| `RecorderView.CountdownSession` | src/components/recording/recorder.tsx:187-200 | one press shows 3, 2, 1, then nothing, and calls `startRecording` exactly once. With a supported MIME type it records the raw screen. Otherwise the page stays in PREVIEWING |
| `Thumbnail.Resolve` | src/lib/thumbnail.ts:10-15 | each option left undefined takes its default: width 320, height 180, quality 0.7, seek time 1. An explicit 0 is kept |
| `Thumbnail.ResolveDefaults` | src/lib/thumbnail.ts:8-15 | no options at all give 320 x 180 at quality 0.7, grabbed at 1 s |
| `Thumbnail.SeekTarget` | src/lib/thumbnail.ts:65-69 | the video is sought to the seek time iff its duration is greater (an infinite one is, NaN is not), otherwise to 0 |
| `Thumbnail.SeekTargetStrict` | src/lib/thumbnail.ts:67 | a video exactly as long as the seek time is grabbed at 0 |
| `Thumbnail.StillHeight` | src/lib/thumbnail.ts:40-44 | the height is within half a pixel of width x vh / vw, where 0 sizes fall back to the options. It is 0 when a dimension is still 0 after the fallback |
| `Thumbnail.StillHeightUnknownSize` | src/lib/thumbnail.ts:40-44 | a video reporting no size gets exactly the requested height |
| `Thumbnail.StillHeightSameAspect` | src/lib/thumbnail.ts:40-44 | a video with the requested aspect ratio, at any scale, gets exactly the requested height |
| `Thumbnail.FrameSettlement` | src/lib/thumbnail.ts:37-60 | the grab resolves iff the frame is drawn, then with a still at the requested width, the computed height and the quality. A missing 2D context rejects with "Could not get canvas context" and a drawing error with its own message |
| `Thumbnail.ThumbnailJob.Start` | src/lib/thumbnail.ts:17-86 | the settings are resolved, the job is unsettled, and the three one-shot listeners and the 10 s timer are armed |
| `Thumbnail.ThumbnailJob.Finish` | src/lib/thumbnail.ts:27-31 | settling revokes the object URL, then settles, exactly once |
| `Thumbnail.ThumbnailJob.OnLoadedData` | src/lib/thumbnail.ts:65-69 | the first loadeddata seeks to `SeekTarget`. Later ones do nothing |
| `Thumbnail.ThumbnailJob.OnSeeked` | src/lib/thumbnail.ts:33-63 | the first seeked settles an unsettled job with `FrameSettlement`. Otherwise nothing changes |
| `Thumbnail.ThumbnailJob.OnError` | src/lib/thumbnail.ts:71-77 | the first error rejects an unsettled job with "Failed to load video for thumbnail". Otherwise nothing changes |
| `Thumbnail.ThumbnailJob.OnTimeout` | src/lib/thumbnail.ts:79-86 | the timer rejects an unsettled job with "Thumbnail generation timed out". Otherwise nothing changes |
| `Thumbnail.Run` | src/lib/thumbnail.ts:25-82 | over any sequence of events the job settles at most once. The first settlement and its one URL revocation are never changed |
| `Upload.UploadForm` | src/hooks/use-chunked-upload.ts:22-24 | the body holds the file field named after the recording id plus ".webm", then the recordingId field |
| `Upload.Percent` | src/hooks/use-chunked-upload.ts:29-33 | progress is loaded / total as a percentage. It lies in 0 to 100 while loaded does not exceed total, and is 100 when everything is sent |
| `Upload.UploadHook.constructor` | src/hooks/use-chunked-upload.ts:7-8 | the hook starts at 0 %, not uploading, with no callback called |
| `Upload.Transfer.Start` | src/hooks/use-chunked-upload.ts:17-45 | an upload switches the hook to uploading at 0 % and sends `UploadForm` |
| `Upload.Transfer.OnProgress` | src/hooks/use-chunked-upload.ts:29-33 | a computable length sets the progress to `Percent`. Any other progress event leaves it alone |
| `Upload.Transfer.Fail` | src/hooks/use-chunked-upload.ts:51-54 | a failure stops the upload and gives its message to `onError` when there is one |
| `Upload.Transfer.OnLoad` | src/hooks/use-chunked-upload.ts:35-54 | a 2xx response ends at 100 % and calls `SuccessNotices`. Any other status fails with "Upload failed" and keeps the progress. A 2xx body that is not JSON leaves the hook uploading forever |
| `Upload.Transfer.OnNetworkError` | src/hooks/use-chunked-upload.ts:43-54 | a network error fails the pending upload with "Upload failed". A settled one is not touched |
| `Upload.SuccessNotices` | src/hooks/use-chunked-upload.ts:48-54 | a success calls `onComplete` with the recording first. `onError` follows iff both callbacks exist and `onComplete` threw, and it gets the thrown message |
| `Upload.SuccessNoticesDialog` | src/hooks/use-chunked-upload.ts:48-50 | with both callbacks and a non-throwing `onComplete`, a success calls `onComplete` alone |
| `ProgressBar.FillWidth` | src/components/ui/progress-bar.tsx:15 | the fill lies in 0 to 100. A value in that range is drawn as given, below it as 0 and above it as 100 |
| `ProgressBar.FillWidthMonotone` | src/components/ui/progress-bar.tsx:15 | a larger value never draws a shorter bar |
| `ProgressBar.FillWidthIdempotent` | src/components/ui/progress-bar.tsx:15 | clamping an already clamped width changes nothing |
| `MediaDevices.DisplayLabel` | src/hooks/use-media-devices.ts:23-32 | a device keeps its own label when it has one. A device without one gets the prefix and at most the first four characters of its id |
| `MediaDevices.Relabel` | src/hooks/use-media-devices.ts:21-34 | an entry keeps the reported id and kind and takes `DisplayLabel` for its label |
| `MediaDevices.ListedMembers` | src/hooks/use-media-devices.ts:18-35 | a list holds an entry iff it is the relabelled form of a reported device of that kind |
| `MediaDevices.ListedAppend` | src/hooks/use-media-devices.ts:19-25 | filtering and mapping keep the reported order: listing a joined report joins the lists |
| `MediaDevices.ListedKind` | src/hooks/use-media-devices.ts:20-29 | no device of another kind ends up in a list |
| `MediaDevices.DeviceList.constructor` | src/hooks/use-media-devices.ts:12-13 | both lists start empty, with no listener attached |
| `MediaDevices.DeviceList.Enumerate` | src/hooks/use-media-devices.ts:15-39 | a report sets the cameras to its video inputs and the microphones to its audio inputs, both relabelled. A rejected enumeration keeps both lists |
| `MediaDevices.DeviceList.Mount` | src/hooks/use-media-devices.ts:41-43 | mounting enumerates once and attaches the devicechange listener |
| `MediaDevices.DeviceList.OnDeviceChange` | src/hooks/use-media-devices.ts:43 | a device change re-enumerates iff the listener is attached |
| `MediaDevices.DeviceList.Unmount` | src/hooks/use-media-devices.ts:44-46 | the cleanup detaches the listener |
| `MediaDevices.Listed` | src/hooks/use-media-devices.ts:19-34 | a list is never longer than the report |
| `RecordingControls.Controls` | src/components/recording/recording-controls.tsx:24-58 | no state shows more than three buttons |
| `RecordingControls.ControlsShown` | src/components/recording/recording-controls.tsx:24-58 | Start shows iff PREVIEWING, Pause iff RECORDING, Resume iff PAUSED, Stop and Discard iff RECORDING or PAUSED. Nothing is rendered in any other state |
| `RecordingControls.PauseResumeSlot` | src/components/recording/recording-controls.tsx:33-55 | while recording or paused, Pause or Resume (by state) comes first, then Stop, then Discard |
| `TagInput.SelectedIds` | src/components/ui/tag-input.tsx:30 | the set holds the id of every selected tag and nothing else |
| `TagInput.SuggestionsMembers` | src/components/ui/tag-input.tsx:32-36 | a tag is suggested iff it exists, is not selected, and its lower-cased name includes the lower-cased query |
| `TagInput.SuggestionsAppend` | src/components/ui/tag-input.tsx:32-36 | suggestions keep the order of the existing tags |
| `TagInput.EmptyQuerySuggestsUnselected` | src/components/ui/tag-input.tsx:32-36 | an empty query suggests exactly the unselected tags |
| `TagInput.AnyNamedIff` | src/components/ui/tag-input.tsx:40-42 | the `some` test holds iff some existing tag has the name, ignoring case |
| `TagInput.ShowCreateOptionIff` | src/components/ui/tag-input.tsx:38-42 | the create option is offered iff the query is not blank and its trimmed form names no existing tag, selected or not, ignoring case |
| `TagInput.ExactNameSuggested` | src/components/ui/tag-input.tsx:32-42 | an unselected tag's full name suggests that tag. An already trimmed name offers no creation, and the dropdown shows iff suggestions are on |
| `TagInput.TagInput.constructor` | src/components/ui/tag-input.tsx:25-26 | the box starts empty with suggestions hidden |
| `TagInput.TagInput.OnChange` | src/components/ui/tag-input.tsx:100-103 | typing holds the new text and shows the suggestions |
| `TagInput.TagInput.OnFocus` | src/components/ui/tag-input.tsx:104 | focusing shows the suggestions |
| `TagInput.TagInput.OnMouseDown` | src/components/ui/tag-input.tsx:66-77 | a mousedown outside the component hides the suggestions. One inside changes nothing |
| `TagInput.TagInput.HandleSelect` | src/components/ui/tag-input.tsx:44-52 | picking a suggestion adds its id once and resets the box |
| `TagInput.TagInput.HandleCreate` | src/components/ui/tag-input.tsx:54-63 | a creation request is sent with the trimmed query and the colour. The returned tag, if any, is added, and the box is reset |
| `TagInput.Suggestions` | src/components/ui/tag-input.tsx:32-36 | there are never more suggestions than existing tags |
| `ManageTags.ApplyUpdate` | src/components/dashboard/manage-tags-dialog.tsx:91-97 | a save never changes the number of tags |
| `ManageTags.ApplyUpdateAt` | src/components/dashboard/manage-tags-dialog.tsx:91-97 | after a save, each tag with the saved id has the server's name, colour and icon and keeps its id and count. Every other tag is as it was |
| `ManageTags.RemoveTag` | src/components/dashboard/manage-tags-dialog.tsx:117 | a delete never lengthens the list |
| `ManageTags.RemoveTagMembers` | src/components/dashboard/manage-tags-dialog.tsx:117 | after a delete, exactly the tags with another id remain |
| `ManageTags.RemoveTagAppend` | src/components/dashboard/manage-tags-dialog.tsx:117 | a delete keeps the order of the remaining tags |
| `ManageTags.RemoveTagAbsent` | src/components/dashboard/manage-tags-dialog.tsx:117 | deleting an id that no tag has leaves the list as it is |
| `ManageTags.AppendCreated` | src/components/dashboard/manage-tags-dialog.tsx:144 | a create keeps the list as a prefix and adds the new tag last, with count 0 |
| `ManageTags.TrimmedEdit` | src/components/dashboard/manage-tags-dialog.tsx:83-87 | the save request carries the trimmed name and the edited colour and icon of the edited id |
| `ManageTags.TrimmedDraft` | src/components/dashboard/manage-tags-dialog.tsx:136-140 | the create request carries the trimmed name and the form's colour and icon |
| `ManageTags.OnEscape` | src/components/dashboard/manage-tags-dialog.tsx:60-71 | Escape leaves editing iff editing. Otherwise it leaves creating iff creating. It closes the dialog iff neither |
| `ManageTags.ManageTagsDialog.constructor` | src/components/dashboard/manage-tags-dialog.tsx:34-44 | nothing is edited, targeted, saved or created, and the form is blank with the first palette colour and the "tag" icon |
| `ManageTags.ManageTagsDialog.SetOpen` | src/components/dashboard/manage-tags-dialog.tsx:46-55 | closing clears editing, the delete target, the icon picker, creation and the form. Opening changes none of them |
| `ManageTags.ManageTagsDialog.Escape` | src/components/dashboard/manage-tags-dialog.tsx:57-74 | while open, Escape does what `OnEscape` names and nothing else. It is not heard while closed |
| `ManageTags.ManageTagsDialog.StartEdit` | src/components/dashboard/manage-tags-dialog.tsx:330-339 | the pencil edits a copy of the tag with the icon picker closed |
| `ManageTags.ManageTagsDialog.StartCreate` | src/components/dashboard/manage-tags-dialog.tsx:464-468 | New Tag leaves editing and opens the form |
| `ManageTags.ManageTagsDialog.CancelCreate` | src/components/dashboard/manage-tags-dialog.tsx:436-439 | Cancel closes the form and blanks it |
| `ManageTags.ManageTagsDialog.SetDeleteTarget` | src/components/dashboard/manage-tags-dialog.tsx:346 | the trash can sets the delete target, and the confirmation's Cancel (line 485) clears it |
| `ManageTags.ManageTagsDialog.HandleSave` | src/components/dashboard/manage-tags-dialog.tsx:76-109 | without an edit, saving does nothing. Otherwise `TrimmedEdit` is sent, even for a blank name (Enter skips the disabled button). Success applies `ApplyUpdate` and leaves editing; a failure changes neither the list nor the editor |
| `ManageTags.ManageTagsDialog.HandleDelete` | src/components/dashboard/manage-tags-dialog.tsx:111-127 | without a target, deleting does nothing. Otherwise a successful response applies `RemoveTag` and any failure keeps the list. The target is cleared either way |
| `ManageTags.ManageTagsDialog.HandleCreate` | src/components/dashboard/manage-tags-dialog.tsx:129-156 | a blank name does nothing. Otherwise `TrimmedDraft` is sent. Success applies `AppendCreated` and closes and blanks the form; a failure keeps the list and the form |
| `RecordingGrid.RemoveById` | src/components/dashboard/recording-grid.tsx:21 | a delete never lengthens the list |
| `RecordingGrid.RemoveByIdMembers` | src/components/dashboard/recording-grid.tsx:21 | after a delete, exactly the recordings with another id remain |
| `RecordingGrid.RemoveByIdAppend` | src/components/dashboard/recording-grid.tsx:21 | a delete keeps the order of the remaining recordings |
| `RecordingGrid.RemoveByIdAbsent` | src/components/dashboard/recording-grid.tsx:21 | deleting an id that is not listed changes nothing |
| `RecordingGrid.RenameById` | src/components/dashboard/recording-grid.tsx:39-41 | a rename keeps the number of recordings |
| `RecordingGrid.RenameByIdAt` | src/components/dashboard/recording-grid.tsx:39-41 | a rename gives the new title to each recording with the id, and to nothing else. Every other field and recording is kept |
| `RecordingGrid.FailedRequestsKeepList` | src/components/dashboard/recording-grid.tsx:17-48 | a failed DELETE or PATCH leaves the list as it was. A rename keeps its length and a delete never lengthens it |
| `RecordingGrid.Cards` | src/components/dashboard/recording-grid.tsx:50-63 | an empty list renders nothing. Otherwise there is one card per recording, in list order |
| `RecordingGrid.DeleteLastEmptiesGrid` | src/components/dashboard/recording-grid.tsx:21-52 | deleting the only recording leaves a grid that renders nothing |
| `RecordingGrid.ProcessingIdsMembers` | src/components/dashboard/recording-card.tsx:47-51 | over the rendered cards, the "Processing..." badge appears exactly on the recordings whose status is "processing" |
| `RecordingGrid.ProcessingIdsAppend` | src/components/dashboard/recording-grid.tsx:56-63 | the badges follow the list order: those of a split list are those of its parts, in order |
| `RecordingGrid.RenameKeepsBadges` | src/components/dashboard/recording-grid.tsx:39-41 | a rename never adds or removes a badge |
| `RecordingGrid.DeleteDropsBadge` | src/components/dashboard/recording-grid.tsx:21 | a delete removes the deleted id's badge and keeps the other badges in order |
| `RecordingCard.ShouldRenameIff` | src/components/dashboard/recording-card.tsx:29 | the rename guard passes iff the typed text is not blank and differs, untrimmed, from the title |
| `RecordingCard.PaddedTitlePasses` | src/components/dashboard/recording-card.tsx:29-30 | the title with a space typed after it passes the guard, and the trimmed text sent is the title it already has |
| `RecordingCard.RecordingCard.constructor` | src/components/dashboard/recording-card.tsx:18-20 | the card starts with the menu closed, not renaming, with the box holding the recording's title |
| `RecordingCard.RecordingCard.ToggleMenu` | src/components/dashboard/recording-card.tsx:79 | the menu button flips the menu |
| `RecordingCard.RecordingCard.CloseMenu` | src/components/dashboard/recording-card.tsx:86-106 | the backdrop and Copy Link close the menu |
| `RecordingCard.RecordingCard.StartRename` | src/components/dashboard/recording-card.tsx:93-96 | Rename opens the rename box and closes the menu |
| `RecordingCard.RecordingCard.OnTitleChange` | src/components/dashboard/recording-card.tsx:62 | typing holds the new text |
| `RecordingCard.RecordingCard.HandleRename` | src/components/dashboard/recording-card.tsx:28-64 | blur or Enter calls `onRename` with the id and the trimmed text iff the guard passes against the current prop's title, keeps the text and the prop, and always leaves rename mode |
| `RecordingCard.RecordingCard.OnRecordingChange` | src/components/dashboard/recording-grid.tsx:39-58 | the grid, keyed by id, passes the renamed recording to the same card: the prop is replaced and the text in the box is not reset |
| `RecordingCard.RecordingCard.Delete` | src/components/dashboard/recording-card.tsx:113-116 | Delete calls `onDelete` with the id once and closes the menu |
| `RecordingCard.RenameThereAndBack` | src/components/dashboard/recording-card.tsx:28-33 | renaming A to B, receiving the renamed prop, then renaming back to A makes two `onRename` calls, (id, B) then (id, A), because the second guard compares with B |
| `Positioning.DropdownBounds` | src/components/ui/dropdown-menu.tsx:31-44 | the dropdown never runs past the right padding. When it fits between the paddings it also keeps off the left one |
| `Positioning.PopoverBounds` | src/components/dashboard/tag-popover.tsx:38-47 | the popover always keeps off the left padding, and off the right one too when its assumed 260 px fit between the paddings |
| `Positioning.ClampOrderMatters` | src/components/ui/dropdown-menu.tsx:41-44 | in a 100 px viewport the dropdown lands at -84, past the left edge. The popover, clamped in the other order (tag-popover.tsx 42-45), stays at 8 |
| `Positioning.DropdownMenu.constructor` | src/components/ui/dropdown-menu.tsx:20-23 | align defaults to right and the first position is the origin |
| `Positioning.DropdownMenu.UpdatePosition` | src/components/ui/dropdown-menu.tsx:25-47 | without both the trigger and the menu nothing moves. Otherwise the menu is placed below the trigger, or above it when it would pass the bottom padding, and clamped left then right |
| `Positioning.TagPopover.constructor` | src/components/dashboard/tag-popover.tsx:32 | the first position is the origin |
| `Positioning.TagPopover.UpdatePosition` | src/components/dashboard/tag-popover.tsx:34-50 | without the trigger nothing moves. Otherwise the 260 x 200 popover is placed below the trigger, or above when it would pass the bottom padding, and clamped right then left |
| `VideoPlayer.Video.constructor` | src/components/viewer/video-player.tsx:155-161 | a freshly loaded element is paused at 0, at full volume, not muted and at normal speed |
| `VideoPlayer.IndexOf` | src/components/viewer/video-player.tsx:78 | the result is the first position of the speed, or -1 iff it is not listed |
| `VideoPlayer.NextSpeed` | src/components/viewer/video-player.tsx:77-79 | a press always lands on a listed speed |
| `VideoPlayer.NextSpeedSteps` | src/components/viewer/video-player.tsx:77-79 | 0.5 steps to 1, 1 to 1.5, 1.5 to 2, and 2 back to 0.5 |
| `VideoPlayer.SpeedIndex` | src/components/viewer/video-player.tsx:77-78 | each listed speed is found at its own position |
| `VideoPlayer.FourPressesReturn` | src/components/viewer/video-player.tsx:75-82 | four presses return to the listed speed they started from |
| `VideoPlayer.UnlistedSpeedRestarts` | src/components/viewer/video-player.tsx:78-79 | a speed that is not listed steps to 0.5, because its index -1 plus one is 0 |
| `VideoPlayer.Progress` | src/components/viewer/video-player.tsx:146 | the fill is currentTime / duration as a percentage when the duration is positive, otherwise 0. It lies in 0 to 100 while the time is within the duration |
| `VideoPlayer.VideoPlayer.IconTruthful` | src/components/viewer/video-player.tsx:212 | while the state mirrors the element, the mute button shows sound iff the element is audible |
| `VideoPlayer.VideoPlayer.constructor` | src/components/viewer/video-player.tsx:22-29 | not playing, at 0 of 0 s, full volume, not muted, not full screen, controls shown, normal speed, mirroring the element |
| `VideoPlayer.VideoPlayer.TogglePlay` | src/components/viewer/video-player.tsx:33-40 | a paused element plays and a playing one pauses. Without an element nothing happens |
| `VideoPlayer.VideoPlayer.ToggleMute` | src/components/viewer/video-player.tsx:42-46 | the element's muting and the state's both flip, and volume and speed are kept |
| `VideoPlayer.VideoPlayer.ToggleFullscreen` | src/components/viewer/video-player.tsx:48-55 | full screen is left when on and requested when off |
| `VideoPlayer.VideoPlayer.HandleSeek` | src/components/viewer/video-player.tsx:57-62 | the element and the shown time both move to the chosen time, and muting and volume are kept |
| `VideoPlayer.VideoPlayer.HandleVolumeChangeAsWritten` | src/components/viewer/video-player.tsx:64-73 | the element and the state get the volume, and the state is muted iff it is 0. The element's muting is left as it was |
| `VideoPlayer.VideoPlayer.HandleVolumeChange` | src/components/viewer/video-player.tsx:64-73 | the corrected handler also sets the element's muting, so the state keeps mirroring the element |
| `VideoPlayer.VideoPlayer.CycleSpeed` | src/components/viewer/video-player.tsx:75-82 | the element and the state both move to `NextSpeed` of the current speed |
| `VideoPlayer.VideoPlayer.OnKeyDown` | src/components/viewer/video-player.tsx:111-135 | keys typed into an input change nothing. Space toggles play, f toggles full screen, m toggles muting, and the arrows move the play head 10 s back or forward. Other keys change nothing |
| `VideoPlayer.VideoPlayer.ResetHideTimer` | src/components/viewer/video-player.tsx:138-144 | mouse movement shows the controls and arms the 3 s hide timer iff playing |
| `VideoPlayer.VideoPlayer.OnHideTimer` | src/components/viewer/video-player.tsx:142 | the pending timer hides the controls |
| `VideoPlayer.VideoPlayer.OnMouseLeave` | src/components/viewer/video-player.tsx:153 | leaving the player hides the controls iff playing |
| `VideoPlayer.VideoPlayer.OnPlaying` | src/components/viewer/video-player.tsx:88-89 | play and pause set the playing flag |
| `VideoPlayer.VideoPlayer.OnTimeUpdate` | src/components/viewer/video-player.tsx:90 | the shown time follows the element's |
| `VideoPlayer.VideoPlayer.OnLoadedMetadata` | src/components/viewer/video-player.tsx:91 | the duration is taken from the element |
| `VideoPlayer.VideoPlayer.OnFullscreenChange` | src/components/viewer/video-player.tsx:92-93 | the flag follows whether the document has a full-screen element |
| `VideoPlayer.MuteThenRaiseVolumeAsWritten` | src/components/viewer/video-player.tsx:42-73 | muting, then dragging the volume to 0.5, leaves the element muted while the button shows sound |
| `VideoPlayer.MuteThenRaiseVolume` | src/components/viewer/video-player.tsx:42-73 | the same steps with the corrected handler leave the element audible, as the button shows |
| `DbQueries.RowToRecording` | src/lib/db-queries.ts:5-22 | each column appears under its client name, and `hasWebcam` holds iff `has_webcam` is 1 |
| `DbQueries.RecordingToRow` | src/lib/db.ts:22 | a stored flag is always 1 or 0 |
| `DbQueries.RecordingRoundTrip` | src/lib/db-queries.ts:5-22 | reading back a stored recording gives the same recording |
| `DbQueries.RowRoundTrip` | src/lib/db-queries.ts:15 | a row whose flag is 0 or 1 survives the trip through the client record |
| `DbQueries.OtherFlagReadsFalse` | src/lib/db-queries.ts:15 | a flag of 2 reads as no webcam, so the trip loses it |
| `DbQueries.GetRecordingById` | src/lib/db-queries.ts:32-40 | a recording is returned iff the id has a row, and then it is that row converted |
| `Text.OrDefault` | src/lib/db-queries.ts:58-63 | `x || d` on a string, as in the INSERT and in src/app/api/tags/route.ts:15: a missing or empty string gives the default. Any other string is kept |
| `DbQueries.OrNull` | src/lib/db-queries.ts:61-62 | a missing or zero size is stored as NULL. Any other size is kept |
| `DbQueries.InsertArgs` | src/lib/db-queries.ts:53-64 | the seven INSERT arguments in column order: the id, the title or "Untitled Recording", the duration or 0, 1 iff the webcam flag is true (else 0), the sizes by `OrNull`, and the type or "video/webm" |
| `DbQueries.CreatedRecording` | src/lib/db-queries.ts:42-68 | for an id not yet in the table, the insert succeeds and the new row is found under its id. Its title and type are never empty, the webcam flag is as given, and no size is 0. The schema defaults apply (src/lib/db.ts:16-27): no blob, 0 bytes, no thumbnail, 0 views, "processing", both times now |
| `DbQueries.CreateRecordingFresh` | src/lib/db-queries.ts:53-65 | the INSERT fails iff the id already has a row (the primary key, src/lib/db.ts:13). Otherwise it adds exactly one row and leaves every other row as it was |
| `DbQueries.Field` | src/lib/db-queries.ts:85-108 | a field gives a clause and a value iff it is given |
| `DbQueries.Present` | src/lib/db-queries.ts:85-108 | at most six clauses are built |
| `DbQueries.NothingGiven` | src/lib/db-queries.ts:85-110 | no clause is built iff all six fields are undefined |
| `DbQueries.Clauses` | src/lib/db-queries.ts:82-86 | one SET clause per given field |
| `DbQueries.Values` | src/lib/db-queries.ts:83-87 | one value per given field |
| `DbQueries.PushIfGiven` | src/lib/db-queries.ts:85-88 | one step appends the clause and the value iff the field is given |
| `DbQueries.BuildUpdate` | src/lib/db-queries.ts:81-116 | the builder produces `PlanFor`: no UPDATE when nothing is given. Otherwise it is the given fields' clauses in column order with the timestamp clause last, and their values followed by the id |
| `DbQueries.ClausesBind` | src/lib/db-queries.ts:86-112 | every column clause ends in a placeholder, and the timestamp clause has none |
| `DbQueries.UpdateBindsEveryValue` | src/lib/db-queries.ts:110-118 | an UPDATE has as many values as SET clauses. Every clause but the last binds a placeholder, the last is the timestamp clause, and the one extra value is the id for the WHERE placeholder |
| `DbQueries.EmptyStringIsGiven` | src/lib/db-queries.ts:85-88 | an empty title is not undefined, so it is still written |
| `DbQueries.AssignAllAppend` | src/lib/db-queries.ts:116 | applying two lists of clauses is applying the first, then the second |
| `DbQueries.AssignFirstThree` | src/lib/db-queries.ts:85-96 | the title, file size and duration clauses set exactly the given ones of those columns |
| `DbQueries.AssignLastThree` | src/lib/db-queries.ts:97-108 | the status, blob URL and thumbnail clauses set exactly the given ones of those columns |
| `DbQueries.PresentAssignsFields` | src/lib/db-queries.ts:85-118 | running the built clauses and the timestamp on a row gives `UpdatedRow`: every given field replaced, the rest kept, updated now |
| `DbQueries.UpdateRecording` | src/lib/db-queries.ts:70-121 | nothing given leaves the table alone. An existing row becomes `UpdatedRow`, a missing id leaves the table alone and returns null, and the result is the row read back |
| `DbQueries.DeleteRecording` | src/lib/db-queries.ts:123-130 | the row is gone afterwards, and the result is true iff it was there |
| `BulkRoute.BulkDelete` | src/app/api/recordings/bulk/route.ts:5-26 | a missing, non-array or empty ids gives 400 "ids array is required" with no call made. Otherwise the table, the calls and the deleted count are those of the loop run over the ids in order |
| `BulkRoute.DeletedAtMostIds` | src/app/api/recordings/bulk/route.ts:11-23 | the count never exceeds the number of ids |
| `BulkRoute.StepRemovesAtMostId` | src/app/api/recordings/bulk/route.ts:13-22 | one pass either changes neither the table nor the count, or removes that id's row and counts it iff it was there |
| `BulkRoute.DeletedCountsRemovedRows` | src/app/api/recordings/bulk/route.ts:11-25 | rows are only removed, never changed, and the count is exactly the number removed. A repeated id is counted once |
| `BulkRoute.RemovedIff` | src/app/api/recordings/bulk/route.ts:12-22 | a recording goes iff some pass for its id, made while its row was there, gets through: its lookup and row delete do not throw, and it has no blob or that pass's blob delete does not throw. A failure in one pass costs no other pass and no other id its deletion |
| `BulkRoute.StepRemovesIff` | src/app/api/recordings/bulk/route.ts:12-22 | a pass removes a row still in the table iff it is that row's pass and none of its calls throws |
| `BulkRoute.TransientFailureRetried` | src/app/api/recordings/bulk/route.ts:12-22 | an id given twice whose first lookup throws is deleted by the second pass and counted once |
| `BulkRoute.CallsInOrder` | src/app/api/recordings/bulk/route.ts:12 | ids are handled in order: the calls for a prefix of the ids are a prefix of all the calls |
| `BulkRoute.StepCalls` | src/app/api/recordings/bulk/route.ts:15-18 | storage is asked to delete blobs only for non-empty URLs (src/lib/storage.ts:3-7), and a row's delete follows its blob's delete directly |
| `TagsRoute.NameRejectedIff` | src/app/api/tags/route.ts:11-13 | a create is refused with 400 "Tag name is required" iff the name is missing, not a string, or blank |
| `TagsRoute.CreateArgsShape` | src/app/api/tags/route.ts:15 | the tag asked for carries the trimmed name, which is non-blank and stays the same if trimmed again. Colour and icon are as given or "#6d28d9" and "tag" |
| `TagsRoute.StatusMapping` | src/app/api/tags/route.ts:14-24 | for an accepted name: 201 with the tag iff the create returns, 409 "Tag already exists" iff it throws a message containing "UNIQUE", and 500 with the message iff it throws anything else |
| `TagsRoute.UniqueAnywhere` | src/app/api/tags/route.ts:20-21 | "UNIQUE" anywhere in the message, with any text around it, gives 409 |
| `TagsRoute.StatusesPossible` | src/app/api/tags/route.ts:9-25 | every response is 201, 400, 409 or 500 |
| `Text.TrimStart` | src/components/ui/tag-input.tsx:39 | no leading white space is left, and nothing gets longer |
| `Text.TrimStartSuffix` | src/components/ui/tag-input.tsx:39 | what the start trim leaves is a suffix, and everything it removed is white space |
| `Text.TrimEnd` | src/components/ui/tag-input.tsx:39 | no trailing white space is left, and nothing gets longer |
| `Text.TrimEndPrefix` | src/components/ui/tag-input.tsx:39 | what the end trim leaves is a prefix, and everything it removed is white space |
| `Text.Trim` | src/components/ui/tag-input.tsx:39-56 | the trimmed text is no longer than the input and neither starts nor ends with white space |
| `Text.TrimEmptyIffBlank` | src/components/ui/tag-input.tsx:39 | a trim is empty iff the text is all white space |
| `Text.TrimUnpadded` | src/app/api/tags/route.ts:15 | text without outer white space is left as it is |
| `Text.TrimIdempotent` | src/app/api/tags/route.ts:15 | trimming twice gives the same as trimming once |
| `Text.LowerChar` | src/components/ui/tag-input.tsx:35 | A to Z move to a to z, and every other character is kept |
| `Text.Lower` | src/components/ui/tag-input.tsx:35-41 | lower-casing keeps the length and lower-cases each character in place |
| `Text.IncludesIff` | src/components/ui/tag-input.tsx:35 | the needle is included iff it occurs at some position |
| `Text.IncludesEmpty` | src/components/ui/tag-input.tsx:35 | every text includes the empty text |
| `Text.Take` | src/hooks/use-media-devices.ts:23 | the slice is the first n characters, or the whole text when it is shorter |

## Findings

| source | as written | input that shows it | evidently intended | confidence | as-written member | corrected member |
|---|---|---|---|---|---|---|
| src/hooks/use-screen-recorder.ts:40-48 | `startTimer` puts a new interval in `timerRef` without clearing the one already there, and `stopTimer` clears only the one `timerRef` holds | press Start twice during the countdown, then Pause: the first interval still fires, and the duration climbs while PAUSED | starting the clock replaces its interval, so a stopped clock is silent | not executed | `ScreenRecorder.DoubleStartDriftAsWritten` | `ScreenRecorder.RestartTwiceCorrected` |
| src/components/viewer/video-player.tsx:64-73 | `handleVolumeChange` sets the element's volume and the `muted` state, but never the element's own `muted` | press mute (element muted), then drag the volume to 0.5: the state says unmuted and the button shows sound, while the element stays muted | the element's muting follows the state, as `toggleMute` keeps them together | not executed | `VideoPlayer.MuteThenRaiseVolumeAsWritten` | `VideoPlayer.MuteThenRaiseVolume` |

The recorder keeps the as-written `ScreenRecorder.Recorder.StartTimer`, and its
leak count, so that its other contracts describe the hook as it runs. The
corrected `ScreenRecorder.Recorder.StartTimerCorrected` never leaks, and
`ScreenRecorder.RestartTwiceAsWritten` is the same sequence as the corrected one on
the as-written timer. The accounting of `ScreenRecorder.PauseResumeSession` and
`ScreenRecorder.PauseResumeCycles` is the intended one: it holds whenever no
interval was leaked.

The as-written handler is `VideoPlayer.VideoPlayer.HandleVolumeChangeAsWritten` and
the corrected one `VideoPlayer.VideoPlayer.HandleVolumeChange`, which keeps the
player's mirror invariant. `VideoPlayer.VideoPlayer.IconTruthful` then makes the
mute button agree with what is heard.

## Left out

- Browser media internals: screen and device capture, `MediaRecorder` encoding, the audio graph, `canvas.captureStream`, pixels and data URLs. They are objects with flags and opaque values.
- The compositor's Web Worker tick source and every `setInterval`/`setTimeout`. Each tick or timeout is an event the caller delivers, and the 100 ms duration sampling is the `Tick` event.
- React rendering, state batching and stale closures. Handlers act on the current state, so the `ended` listener's older `cleanup` and the pause baseline taken from the last sampled duration are not distinguished.
- Floating point: the hook's `Date.now()` difference is kept in milliseconds without the division by 1000. `Math.round` is exact rounding half up on rationals, and NaN and Infinity appear only where they decide a branch (the thumbnail's duration).
- Unicode: `toLowerCase` is ASCII and `trim` knows ASCII white space, the no-break space and the byte-order mark only.
- `TAG_COLORS` and the random colour pick are not part of this model. The colour and the first palette entry are parameters.
- Toasts, console logging, focus, the clipboard write of Copy Link, `router.refresh`, and every purely presentational component.
- The upload dialog's requests, the upload, debug and recordings routes, the blob store's `put` and `del`, and the libsql client. Their outcomes are parameters, and `del` failures are the `Faults` of the bulk route.
- `getAllRecordings` and `incrementViewCount` of src/lib/db-queries.ts, and the GET of src/app/api/tags/route.ts: they are a sort and a counter over the database, outside the listed core.
- `getAllTagsWithCounts`, `createTag` and `generateId` are not part of this model. The id is a parameter and `createTag`'s outcome is a parameter.
- The JSON types of request bodies: a bulk `ids` that is not an array is `None`, and its elements are taken to be strings. A tag colour or icon that is not a string is not modelled.
- Upload.Percent: requires a positive total. A computable length with total 0 gives Infinity or NaN in the hook, which the model does not represent.
- Upload.Transfer.OnProgress: requires a positive total whenever the length is computable, for the same reason.
- VideoPlayer.VideoPlayer.HandleVolumeChange: requires a volume in 0 to 1, the slider's range. The `parseFloat` of the slider's text is not modelled.
- VideoPlayer.VideoPlayer.HandleVolumeChangeAsWritten: requires a volume in 0 to 1, as the corrected handler does.
- TagInput.TagInput.HandleCreate: takes `onCreateTag`'s result as a tag or null. A rejected promise, which would leave the box as it was, is not modelled.
- Media.Encoder.Pause: requires an active encoder, as `MediaRecorder` throws otherwise. The hook calls it only in the recording state.
- Media.Encoder.Resume: requires an active encoder, for the same reason.
- Media.Encoder.Stop: requires an active encoder. `stopRecording` checks for one.
- ScreenRecorder.PauseResumeSession: requires that no interval was leaked. After a double start the paused time is counted, as `ScreenRecorder.DoubleStartDriftAsWritten` shows.
- ScreenRecorder.PauseResumeCycles: requires that no interval was leaked, for the same reason.
- ScreenRecorder.Recorder.StartRecording: the first encoder of a double start is left recording. Its payloads and its stop event reach the same buffer and handlers, which the event methods model, but the model does not track the two encoders together.
- DbQueries.CreatedRecording: requires an id not yet in the table, as `generateId` is meant to produce. A taken id makes the insert fail (`DbQueries.CreateRecordingFresh`).
