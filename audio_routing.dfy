/**
 * Manual audio-output selection: the three `AudioManager` settings the
 * bridge writes (mode, speakerphone, Bluetooth SCO) and the two operations
 * that write them.
 */
module AudioRouting {
  import opened Wrappers
  import opened AudioDevices

  // AudioManager.MODE_* constants of the Android SDK.
  const MODE_NORMAL: Int32 := 0
  const MODE_IN_COMMUNICATION: Int32 := 3

  /** The routing settings of an `AudioManager`. */
  datatype RouteState = RouteState(mode: Int32, speakerphoneOn: bool, scoOn: bool)

  /** The settings `resetToAutomaticRouting` leaves, whatever they were. */
  const AutomaticRouting: RouteState := RouteState(MODE_NORMAL, false, false)

  /** The device types `setAudioOutputDevice` can route to. */
  const SelectableTypes: set<Int32> :=
    {TYPE_BLUETOOTH_A2DP, TYPE_WIRED_HEADPHONES, TYPE_WIRED_HEADSET, TYPE_BUILTIN_SPEAKER, TYPE_USB_DEVICE}

  /** `devices.firstOrNull { it.id == deviceId }`, as an index. */
  function FirstWithId(ds: seq<AudioDevice>, id: Int32): (r: Option<nat>)
    ensures r.Some? ==> r.value < |ds| && ds[r.value].id == id
    ensures forall j :: 0 <= j < |ds| && (r.None? || j < r.value) ==> ds[j].id != id
  {
    if ds == [] then None
    else if ds[0].id == id then Some(0)
    else match FirstWithId(ds[1..], id)
      case None => None
      case Some(i) => Some(i + 1)
  }

  /**
   * The outcome of `setAudioOutputDevice(deviceId)` on settings `st` with
   * outputs `outputs`: whether it reports success, and the new settings.
   */
  function Selection(st: RouteState, outputs: seq<AudioDevice>, deviceId: Option<Int32>): (r: (bool, RouteState))
    ensures !r.0 ==> r.1 == st
    ensures r.0 ==> r.1.mode == MODE_NORMAL || (r.1.mode == MODE_IN_COMMUNICATION && r.1.scoOn)
    ensures r.0 && deviceId.Some? ==> exists j :: 0 <= j < |outputs| && outputs[j].id == deviceId.value
  {
    if deviceId.None? then (true, AutomaticRouting)
    else match FirstWithId(outputs, deviceId.value)
      case None => (false, st)
      case Some(i) =>
        var t := outputs[i].kind;
        if t == TYPE_BLUETOOTH_A2DP then (true, st.(mode := MODE_IN_COMMUNICATION, scoOn := true))
        else if t == TYPE_WIRED_HEADPHONES || t == TYPE_WIRED_HEADSET then (true, st.(mode := MODE_NORMAL, speakerphoneOn := false))
        else if t == TYPE_BUILTIN_SPEAKER then (true, st.(mode := MODE_NORMAL, speakerphoneOn := true))
        else if t == TYPE_USB_DEVICE then (true, st.(mode := MODE_NORMAL, speakerphoneOn := false))
        else (false, st)
  }

  /**
   * The platform `AudioManager`: the routing settings the bridge writes and
   * the platform readings it only reads (the output devices, the routing
   * mask of `getRouting(MODE_NORMAL)`, and the pre-API-23 A2DP and
   * wired-headset flags).
   */
  class AudioManager {
    var mode: Int32
    var speakerphoneOn: bool
    var bluetoothScoOn: bool
    var outputs: seq<AudioDevice>
    var routing: Int32
    var bluetoothA2dpOn: bool
    var wiredHeadsetOn: bool

    constructor (st: RouteState, outputs: seq<AudioDevice>, routing: Int32, a2dpOn: bool, wiredOn: bool)
      ensures State() == st && this.outputs == outputs && this.routing == routing
      ensures bluetoothA2dpOn == a2dpOn && wiredHeadsetOn == wiredOn
    {
      mode, speakerphoneOn, bluetoothScoOn := st.mode, st.speakerphoneOn, st.scoOn;
      this.outputs, this.routing := outputs, routing;
      bluetoothA2dpOn, wiredHeadsetOn := a2dpOn, wiredOn;
    }

    function State(): RouteState
      reads this
    {
      RouteState(mode, speakerphoneOn, bluetoothScoOn)
    }
  }

  /** `resetToAutomaticRouting`: normal mode, speakerphone off, SCO off. */
  method ResetToAutomaticRouting(am: AudioManager) returns (ok: bool)
    modifies am`mode, am`speakerphoneOn, am`bluetoothScoOn
    ensures ok && am.State() == AutomaticRouting
  {
    am.mode := MODE_NORMAL;
    am.speakerphoneOn := false;
    if am.bluetoothScoOn {
      am.bluetoothScoOn := false;
    }
    ok := true;
  }

  /** `setAudioOutputDevice`: route to the chosen output, or back to automatic routing for a null id. */
  method SetAudioOutputDevice(am: AudioManager, deviceId: Option<Int32>) returns (ok: bool)
    modifies am`mode, am`speakerphoneOn, am`bluetoothScoOn
    ensures (ok, am.State()) == Selection(old(am.State()), am.outputs, deviceId)
  {
    if deviceId.None? {
      ok := ResetToAutomaticRouting(am);
      return;
    }
    var target := FirstWithId(am.outputs, deviceId.value);
    if target.None? {
      return false;
    }
    var t := am.outputs[target.value].kind;
    if t == TYPE_BLUETOOTH_A2DP {
      am.mode := MODE_IN_COMMUNICATION;
      am.bluetoothScoOn := true;
      ok := true;
    } else if t == TYPE_WIRED_HEADPHONES || t == TYPE_WIRED_HEADSET {
      am.mode := MODE_NORMAL;
      am.speakerphoneOn := false;
      ok := true;
    } else if t == TYPE_BUILTIN_SPEAKER {
      am.mode := MODE_NORMAL;
      am.speakerphoneOn := true;
      ok := true;
    } else if t == TYPE_USB_DEVICE {
      am.mode := MODE_NORMAL;
      am.speakerphoneOn := false;
      ok := true;
    } else {
      ok := false;
    }
  }
}
