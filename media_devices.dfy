/** `useMediaDevices` of src/hooks/use-media-devices.ts: the cameras and microphones
    the browser reports, with a readable label for devices that have none. */
module MediaDevices {
  import opened Wrappers
  import Text

  datatype DeviceKind = VideoInput | AudioInput | AudioOutput

  datatype DeviceInfo = DeviceInfo(deviceId: string, deviceLabel: string, kind: DeviceKind)

  /** The label shown for a device: its own, or the prefix with the first four
      characters of its id when the browser withholds the label. */
  function DisplayLabel(d: DeviceInfo, prefix: string): (l: string)
    ensures d.deviceLabel != "" ==> l == d.deviceLabel
    ensures d.deviceLabel == "" ==> l == prefix + Text.Take(d.deviceId, 4)
    ensures d.deviceLabel == "" ==> |l| <= |prefix| + 4
  {
    if d.deviceLabel != "" then d.deviceLabel else prefix + Text.Take(d.deviceId, 4)
  }

  /** The entry kept for a device: id and kind as reported, label for display. */
  function Relabel(d: DeviceInfo, prefix: string): (e: DeviceInfo)
    ensures e.deviceId == d.deviceId && e.kind == d.kind && e.deviceLabel == DisplayLabel(d, prefix)
  {
    DeviceInfo(d.deviceId, DisplayLabel(d, prefix), d.kind)
  }

  /** The devices of one kind, relabelled, in the order reported. */
  function Listed(ds: seq<DeviceInfo>, k: DeviceKind, prefix: string): (r: seq<DeviceInfo>)
    ensures |r| <= |ds|
  {
    if ds == [] then []
    else (if ds[0].kind == k then [Relabel(ds[0], prefix)] else []) + Listed(ds[1..], k, prefix)
  }

  /** Every device of the kind is listed, and every entry comes from one. */
  lemma {:induction false} ListedMembers(ds: seq<DeviceInfo>, k: DeviceKind, prefix: string, e: DeviceInfo)
    ensures e in Listed(ds, k, prefix) <==> exists d :: d in ds && d.kind == k && e == Relabel(d, prefix)
  {
    if ds != [] {
      ListedMembers(ds[1..], k, prefix, e);
      assert ds == [ds[0]] + ds[1..];
      if e in Listed(ds[1..], k, prefix) {
        var d :| d in ds[1..] && d.kind == k && e == Relabel(d, prefix);
        assert d in ds;
      }
      forall d | d in ds && d.kind == k && e == Relabel(d, prefix)
        ensures e in Listed(ds, k, prefix)
      {
        if d != ds[0] {
          assert d in ds[1..];
        }
      }
    }
  }

  /** One step of `Listed`: the first device's entry, then the rest. */
  lemma ListedCons(ds: seq<DeviceInfo>, k: DeviceKind, prefix: string)
    requires ds != []
    ensures Listed(ds, k, prefix) == (if ds[0].kind == k then [Relabel(ds[0], prefix)] else []) + Listed(ds[1..], k, prefix)
  {
  }

  /** Listing keeps the order: a longer report lists its first part first. */
  lemma {:induction false} ListedAppend(a: seq<DeviceInfo>, b: seq<DeviceInfo>, k: DeviceKind, prefix: string)
    ensures Listed(a + b, k, prefix) == Listed(a, k, prefix) + Listed(b, k, prefix)
  {
    if a == [] {
      assert a + b == b;
    } else {
      assert (a + b)[0] == a[0];
      assert (a + b)[1..] == a[1..] + b;
      ListedCons(a + b, k, prefix);
      ListedCons(a, k, prefix);
      ListedAppend(a[1..], b, k, prefix);
    }
  }

  /** No device of another kind ends up in a list. */
  lemma {:induction false} ListedKind(ds: seq<DeviceInfo>, k: DeviceKind, prefix: string, i: int)
    requires 0 <= i < |Listed(ds, k, prefix)|
    ensures Listed(ds, k, prefix)[i].kind == k
  {
    var e := Listed(ds, k, prefix)[i];
    ListedMembers(ds, k, prefix, e);
  }

  const CameraPrefix: string := "Camera "
  const MicrophonePrefix: string := "Microphone "

  class DeviceList {
    var cameras: seq<DeviceInfo>
    var microphones: seq<DeviceInfo>
    /** The `devicechange` listener is attached. */
    var listening: bool

    constructor ()
      ensures cameras == [] && microphones == [] && !listening
    {
      cameras := [];
      microphones := [];
      listening := false;
    }

    /** `enumerate`: `report` is what `enumerateDevices` resolves with, `None` when
        it rejects, in which case the lists stay as they were. */
    method Enumerate(report: Option<seq<DeviceInfo>>)
      modifies this`cameras, this`microphones
      ensures report.None? ==> cameras == old(cameras) && microphones == old(microphones)
      ensures report.Some? ==> cameras == Listed(report.value, VideoInput, CameraPrefix)
      ensures report.Some? ==> microphones == Listed(report.value, AudioInput, MicrophonePrefix)
    {
      if report.Some? {
        cameras := Listed(report.value, VideoInput, CameraPrefix);
        microphones := Listed(report.value, AudioInput, MicrophonePrefix);
      }
    }

    /** The effect on mount: enumerate once and start listening for changes. */
    method Mount(report: Option<seq<DeviceInfo>>)
      modifies this`cameras, this`microphones, this`listening
      ensures listening
      ensures report.None? ==> cameras == old(cameras) && microphones == old(microphones)
      ensures report.Some? ==> cameras == Listed(report.value, VideoInput, CameraPrefix)
      ensures report.Some? ==> microphones == Listed(report.value, AudioInput, MicrophonePrefix)
    {
      Enumerate(report);
      listening := true;
    }

    /** A `devicechange` event: re-enumerates only while the listener is attached. */
    method OnDeviceChange(report: Option<seq<DeviceInfo>>)
      modifies this`cameras, this`microphones
      ensures !listening || report.None? ==> cameras == old(cameras) && microphones == old(microphones)
      ensures listening && report.Some? ==> cameras == Listed(report.value, VideoInput, CameraPrefix)
      ensures listening && report.Some? ==> microphones == Listed(report.value, AudioInput, MicrophonePrefix)
    {
      if listening {
        Enumerate(report);
      }
    }

    /** The effect's cleanup detaches the listener. */
    method Unmount()
      modifies this`listening
      ensures !listening
    {
      listening := false;
    }
  }
}
