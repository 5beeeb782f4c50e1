/** `useUpload` of src/hooks/use-chunked-upload.ts. The hook's state (`progress`,
    `uploading`) is `UploadHook`; every call of `upload` makes its own request,
    modelled as a `Transfer` whose events are delivered by the caller. */
module Upload {
  import opened Wrappers
  import opened Types

  const UploadFailedMessage: string := "Upload failed"
  const UploadPath: string := "/api/upload"

  /** An entry of the multipart body. */
  datatype FormField =
    | FileField(name: string, fileName: string, size: nat)
    | TextField(name: string, value: string)

  /** The body sent for a blob of `size` bytes under `recordingId`. */
  function UploadForm(size: nat, recordingId: string): (f: seq<FormField>)
    ensures |f| == 2
    ensures f[0] == FileField("file", recordingId + ".webm", size)
    ensures f[1] == TextField("recordingId", recordingId)
  {
    [FileField("file", recordingId + ".webm", size), TextField("recordingId", recordingId)]
  }

  /** A call of one of the caller's callbacks. */
  datatype Notice = Completed(recording: Recording) | Failed(message: string)

  /** Progress as a percentage of the bytes sent. */
  function Percent(loaded: nat, total: nat): (p: real)
    requires total > 0
    ensures loaded <= total ==> 0.0 <= p <= 100.0
    ensures loaded == total ==> p == 100.0
    ensures p * total as real == loaded as real * 100.0
  {
    RatioFacts(loaded as real, total as real);
    (loaded as real / total as real) * 100.0
  }

  /** The facts about `l / t` that `Percent` needs, proved apart from any context. */
  lemma RatioFacts(l: real, t: real)
    requires 0.0 <= l && 0.0 < t
    ensures (l / t) * t == l
    ensures l <= t ==> 0.0 <= l / t <= 1.0
    ensures l == t ==> l / t == 1.0
  {
  }

  /** Whether an HTTP status is a success. */
  predicate IsSuccess(status: int) {
    200 <= status < 300
  }

  class UploadHook {
    var progress: real
    var uploading: bool
    /** The callbacks called so far, over all uploads. */
    ghost var notices: seq<Notice>

    constructor ()
      ensures progress == 0.0 && !uploading && notices == []
    {
      progress := 0.0;
      uploading := false;
      notices := [];
    }
  }

  class Transfer {
    const hook: UploadHook
    const form: seq<FormField>
    const hasOnComplete: bool
    const hasOnError: bool
    /** The request has neither loaded nor failed yet. */
    var pending: bool

    /** `upload({ blob, recordingId, onComplete, onError })` up to `xhr.send`: the
        hook shows an upload at 0 %. */
    constructor Start(hook: UploadHook, size: nat, recordingId: string, hasOnComplete: bool, hasOnError: bool)
      modifies hook`uploading, hook`progress
      ensures this.hook == hook && form == UploadForm(size, recordingId)
      ensures this.hasOnComplete == hasOnComplete && this.hasOnError == hasOnError
      ensures pending && hook.uploading && hook.progress == 0.0
    {
      this.hook := hook;
      form := UploadForm(size, recordingId);
      this.hasOnComplete := hasOnComplete;
      this.hasOnError := hasOnError;
      pending := true;
      hook.uploading := true;
      hook.progress := 0.0;
    }

    /** The upload `progress` event: only a computable length moves the bar. */
    method OnProgress(lengthComputable: bool, loaded: nat, total: nat)
      requires lengthComputable ==> total > 0
      modifies hook`progress
      ensures hook.progress == if lengthComputable then Percent(loaded, total) else old(hook.progress)
    {
      if lengthComputable {
        hook.progress := Percent(loaded, total);
      }
    }

    /** The caught rejection: the hook stops uploading and `onError` hears the message. */
    method Fail(message: string)
      modifies hook`uploading, hook`notices
      ensures !hook.uploading
      ensures hook.notices == old(hook.notices) + (if hasOnError then [Failed(message)] else [])
    {
      hook.uploading := false;
      if hasOnError {
        hook.notices := hook.notices + [Failed(message)];
      }
    }

    /** The `load` event. `parsed` is the response body as a recording, `None` when
        it is not JSON; `completeThrows` is the message of an error thrown by
        `onComplete`. A 2xx response finishes at 100 % and calls `onComplete`, whose
        throw reaches `onError`. Any other status fails with "Upload failed". A 2xx
        body that does not parse throws inside the event listener, so the promise
        never settles and the hook keeps showing the upload. */
    method OnLoad(status: int, parsed: Option<Recording>, completeThrows: Option<string>)
      modifies this`pending, hook`uploading, hook`progress, hook`notices
      ensures !pending
      ensures !old(pending) ==> unchanged(hook)
      ensures old(pending) && IsSuccess(status) && parsed.None? ==> unchanged(hook)
      ensures old(pending) && !IsSuccess(status) ==>
                !hook.uploading && hook.progress == old(hook.progress) &&
                hook.notices == old(hook.notices) + (if hasOnError then [Failed(UploadFailedMessage)] else [])
      ensures old(pending) && IsSuccess(status) && parsed.Some? ==>
                !hook.uploading && hook.progress == 100.0 &&
                hook.notices == old(hook.notices) + SuccessNotices(parsed.value, hasOnComplete, hasOnError, completeThrows)
    {
      if !pending {
        return;
      }
      pending := false;
      if !IsSuccess(status) {
        Fail(UploadFailedMessage);
      } else if parsed.Some? {
        hook.uploading := false;
        hook.progress := 100.0;
        if hasOnComplete {
          hook.notices := hook.notices + [Completed(parsed.value)];
          if completeThrows.Some? {
            Fail(completeThrows.value);
          }
        }
      }
    }

    /** The `error` event (the request never reached the server). */
    method OnNetworkError()
      modifies this`pending, hook`uploading, hook`notices
      ensures !pending
      ensures !old(pending) ==> unchanged(hook)
      ensures old(pending) ==>
                !hook.uploading &&
                hook.notices == old(hook.notices) + (if hasOnError then [Failed(UploadFailedMessage)] else [])
    {
      if pending {
        pending := false;
        Fail(UploadFailedMessage);
      }
    }
  }

  /** The callbacks a successful response calls: `onComplete`, then `onError`
      with whatever `onComplete` threw. */
  function SuccessNotices(r: Recording, hasOnComplete: bool, hasOnError: bool, completeThrows: Option<string>): (n: seq<Notice>)
    ensures !hasOnComplete ==> n == []
    ensures hasOnComplete ==> |n| >= 1 && n[0] == Completed(r)
    ensures |n| == 2 <==> hasOnComplete && hasOnError && completeThrows.Some?
    ensures |n| == 2 ==> n[1] == Failed(completeThrows.value)
  {
    if !hasOnComplete then []
    else if completeThrows.Some? && hasOnError then [Completed(r), Failed(completeThrows.value)]
    else [Completed(r)]
  }

  /** A caller that supplies both callbacks, as the upload dialog does, hears exactly
      one of them per response, unless its own `onComplete` throws. */
  lemma SuccessNoticesDialog(r: Recording)
    ensures SuccessNotices(r, true, true, None) == [Completed(r)]
  {
  }
}
