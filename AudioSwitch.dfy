/**
 * The two ways the clients switch audio output.
 * client/switcher.py scans the enumerated devices and makes the first one whose
 * lowered friendly name contains the lowered target the default.
 * switcher.py instead broadcasts one window message and lets the system act on it.
 */
module AudioSwitch {
  import opened Wrappers
  import opened Text

  /** An enumerated audio endpoint; only its `FriendlyName` is consulted. */
  datatype Device = Device(friendlyName: string)

  /** The default `device_name` argument of `switch_to_headphones`. */
  const DEFAULT_TARGET: string := "Headphones"

  /** `device_name.lower() in device.FriendlyName.lower()` */
  predicate NameMatches(d: Device, target: string)
  {
    Contains(Lower(d.friendlyName), Lower(target))
  }

  /** The position of the first device, in enumeration order, whose name matches `target`. */
  function FirstMatch(devices: seq<Device>, target: string): (r: Option<nat>)
    ensures r.Some? ==> r.value < |devices|
  {
    if devices == [] then None
    else if NameMatches(devices[0], target) then Some(0)
    else match FirstMatch(devices[1..], target)
      case None => None
      case Some(k) => Some(k + 1)
  }

  /**
   * The scan finds a matching device exactly when there is one, and the one it
   * finds has no matching device before it.
   */
  lemma {:induction false} FirstMatchIsFirst(devices: seq<Device>, target: string)
    ensures FirstMatch(devices, target).Some? ==>
      && FirstMatch(devices, target).value < |devices|
      && NameMatches(devices[FirstMatch(devices, target).value], target)
      && forall j :: 0 <= j < FirstMatch(devices, target).value ==> !NameMatches(devices[j], target)
    ensures FirstMatch(devices, target).None? <==> forall j :: 0 <= j < |devices| ==> !NameMatches(devices[j], target)
  {
    if devices != [] && !NameMatches(devices[0], target) {
      FirstMatchIsFirst(devices[1..], target);
      assert forall j :: 1 <= j < |devices| ==> devices[j] == devices[1..][j - 1];
    }
  }

  /** The devices `switch_to_headphones(target)` makes default: the first match, or none. */
  function Chosen(devices: seq<Device>, target: string): seq<Device>
  {
    match FirstMatch(devices, target)
    case None => []
    case Some(k) => [devices[k]]
  }

  /** At most one device is made default, it matches, and it is chosen whenever one matches. */
  lemma ChosenIsAtMostOneMatch(devices: seq<Device>, target: string)
    ensures |Chosen(devices, target)| <= 1
    ensures Chosen(devices, target) == [] <==> forall j :: 0 <= j < |devices| ==> !NameMatches(devices[j], target)
    ensures forall d <- Chosen(devices, target) :: d in devices && NameMatches(d, target)
  {
    FirstMatchIsFirst(devices, target);
  }

  /** Matching ignores case on both sides: either side may be re-spelled with the same lowering. */
  lemma MatchIgnoresCase(d: Device, e: Device, target: string, other: string)
    requires Lower(d.friendlyName) == Lower(e.friendlyName)
    requires Lower(target) == Lower(other)
    ensures NameMatches(d, target) == NameMatches(e, other)
  {
  }

  /** A device whose name contains "headphones" in any case is matched by the default target. */
  lemma DefaultTargetMatches(name: string, i: nat)
    requires i + 10 <= |name| && Lower(name)[i..i + 10] == "headphones"
    ensures NameMatches(Device(name), DEFAULT_TARGET)
  {
    assert Lower(DEFAULT_TARGET) == "headphones";
    assert Lower(DEFAULT_TARGET) <= Lower(name)[i..];
  }

  /** The scan stops at the first match: later matching devices are never chosen. */
  lemma {:induction false} FirstMatchPrefers(devices: seq<Device>, more: seq<Device>, target: string)
    requires FirstMatch(devices, target).Some?
    ensures FirstMatch(devices + more, target) == FirstMatch(devices, target)
  {
    FirstMatchIsFirst(devices, target);
    if !NameMatches(devices[0], target) {
      FirstMatchIsFirst(devices[1..], target);
      assert (devices + more)[1..] == devices[1..] + more;
      FirstMatchPrefers(devices[1..], more, target);
    }
  }

  /** The window message switcher.py sends: `SendMessageW(hwnd, msg, wParam, lParam)`. */
  datatype WindowMessage = WindowMessage(hwnd: int, msg: int, wParam: int, lParam: int)

  const HWND_BROADCAST: int := 0xFFFF
  const WM_APPCOMMAND: int := 0x319
  const APPCOMMAND_SYSTEM_AUDIO_DEVICE_CHANGE: int := 0x0E0000

  /** The one message switcher.py's `switch_to_headphones` broadcasts (`None` is a null wParam). */
  const DEVICE_CHANGE_BROADCAST: WindowMessage :=
    WindowMessage(HWND_BROADCAST, WM_APPCOMMAND, 0, APPCOMMAND_SYSTEM_AUDIO_DEVICE_CHANGE)

  /**
   * The system audio configuration as the pycaw client sees it: the devices
   * `GetAllDevices` enumerates, the current default output, and the history of
   * `SetDefaultDevice` calls.
   */
  class AudioSystem {
    var devices: seq<Device>
    var defaultDevice: Option<Device>
    ghost var setLog: seq<Device>

    constructor (devices: seq<Device>, defaultDevice: Option<Device>)
      ensures this.devices == devices && this.defaultDevice == defaultDevice && setLog == []
    {
      this.devices := devices;
      this.defaultDevice := defaultDevice;
      setLog := [];
    }

    /** `AudioUtilities.SetDefaultDevice(d)` */
    method SetDefaultDevice(d: Device)
      modifies this
      ensures devices == old(devices)
      ensures defaultDevice == Some(d)
      ensures setLog == old(setLog) + [d]
    {
      defaultDevice := Some(d);
      setLog := setLog + [d];
    }

    /**
     * `switch_to_headphones(device_name)`: walk the enumerated devices in order,
     * make the first matching one the default and stop; with no match nothing changes.
     */
    method SwitchToHeadphones(deviceName: string)
      modifies this
      ensures devices == old(devices)
      ensures setLog == old(setLog) + Chosen(devices, deviceName)
      ensures defaultDevice ==
        match FirstMatch(devices, deviceName)
        case None => old(defaultDevice)
        case Some(k) => Some(devices[k])
    {
      FirstMatchIsFirst(devices, deviceName);
      var all := devices;
      var i := 0;
      while i < |all|
        invariant 0 <= i <= |all| && all == devices
        invariant forall j :: 0 <= j < i ==> !NameMatches(all[j], deviceName)
        invariant defaultDevice == old(defaultDevice) && setLog == old(setLog)
      {
        if NameMatches(all[i], deviceName) {
          SetDefaultDevice(all[i]);
          return;
        }
        i := i + 1;
      }
    }
  }
}
