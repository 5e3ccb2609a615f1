/**
 * The platform channel "com.akashskypatel.reverbio/audio_device_channel":
 * each call names one of three methods, and the handler answers with a
 * success value, "not implemented", or an "AUDIO_ERROR" error when the
 * work throws.
 */
module AudioChannel {
  import opened Wrappers
  import opened AudioDevices
  import opened AudioRouting

  const AudioError: string := "AUDIO_ERROR"

  /** The methods the handler knows. */
  datatype ChannelMethod = ListOutputs | SelectOutput | CurrentOutput

  /** The name a method is called by over the channel. */
  function MethodName(m: ChannelMethod): string
  {
    match m
    case ListOutputs => "getAudioOutputDevices"
    case SelectOutput => "setAudioOutputDevice"
    case CurrentOutput => "getCurrentAudioDevice"
  }

  /** The method a call names, if the handler knows it. */
  function MethodOf(name: string): (r: Option<ChannelMethod>)
    ensures r.Some? <==> name in {"getAudioOutputDevices", "setAudioOutputDevice", "getCurrentAudioDevice"}
    ensures r.Some? ==> MethodName(r.value) == name
  {
    if name == "getAudioOutputDevices" then Some(ListOutputs)
    else if name == "setAudioOutputDevice" then Some(SelectOutput)
    else if name == "getCurrentAudioDevice" then Some(CurrentOutput)
    else None
  }

  /** Every method is reached by its own name, and by no other. */
  lemma MethodNamesRoundTrip(m: ChannelMethod, name: string)
    ensures MethodOf(MethodName(m)) == Some(m)
    ensures MethodOf(name) == Some(m) ==> name == MethodName(m)
  {
  }

  /**
   * The "deviceId" argument as it arrives: missing, null, an integer (boxed
   * as an `Integer` when it fits 32 bits and as a `Long` otherwise), or any
   * other value.
   */
  datatype Arg = Absent | ArgNull | ArgInt(i: int) | ArgOther

  predicate FitsInt32(i: int)
  {
    -0x8000_0000 <= i < 0x8000_0000
  }

  /**
   * `call.argument<Int?>("deviceId")`: `Some(id)` for the value read, `None`
   * when the cast to `Int?` throws.
   */
  function DeviceIdOf(arg: Arg): (r: Option<Option<Int32>>)
    ensures r.None? <==> arg.ArgOther? || (arg.ArgInt? && !FitsInt32(arg.i))
    ensures r == Some(None) <==> arg.Absent? || arg.ArgNull?
    ensures r.Some? && r.value.Some? ==> arg == ArgInt(r.value.value as int)
  {
    match arg
    case Absent => Some(None)
    case ArgNull => Some(None)
    case ArgInt(i) => if FitsInt32(i) then Some(Some(i as Int32)) else None
    case ArgOther => None
  }

  /** The argument a caller sends for an optional device id. */
  function ArgOf(deviceId: Option<Int32>): Arg
  {
    match deviceId
    case None => ArgNull
    case Some(id) => ArgInt(id as int)
  }

  /** Every device id a caller sends is read back unchanged. */
  lemma DeviceIdRoundTrip(deviceId: Option<Int32>)
    ensures DeviceIdOf(ArgOf(deviceId)) == Some(deviceId)
  {
  }

  /** The value a successful call returns. */
  datatype Payload =
    | DeviceList(devices: seq<DeviceEntry>)
    | Flag(ok: bool)
    | Current(device: Option<CurrentDevice>)

  datatype Reply = Success(payload: Payload) | NotImplemented | Error(code: string)

  /**
   * The method-call handler, on API level `sdk`: it dispatches on the
   * method name, and only `setAudioOutputDevice` writes the settings.
   */
  method HandleMethodCall(am: AudioManager, sdk: int, name: string, arg: Arg) returns (reply: Reply)
    modifies am`mode, am`speakerphoneOn, am`bluetoothScoOn
    ensures MethodOf(name).None? ==> reply == NotImplemented
    ensures MethodOf(name) != Some(SelectOutput) ==> am.State() == old(am.State())
    ensures MethodOf(name) == Some(ListOutputs) ==>
      reply == Success(DeviceList(if sdk >= LOLLIPOP then EntriesOf(UniqueDevices(am.outputs)) else []))
    ensures MethodOf(name) == Some(CurrentOutput) ==>
      reply == Success(Current(CurrentAudioDevice(sdk, am.routing, am.outputs, am.bluetoothA2dpOn, am.wiredHeadsetOn)))
    ensures MethodOf(name) == Some(SelectOutput) && DeviceIdOf(arg).None? ==>
      reply == Error(AudioError) && am.State() == old(am.State())
    ensures MethodOf(name) == Some(SelectOutput) && DeviceIdOf(arg).Some? ==>
      var (ok, st) := Selection(old(am.State()), am.outputs, DeviceIdOf(arg).value);
      reply == Success(Flag(ok)) && am.State() == st
  {
    match MethodOf(name)
    case None =>
      reply := NotImplemented;
    case Some(ListOutputs) =>
      var deviceList := GetAudioOutputDevices(sdk, am.outputs);
      reply := Success(DeviceList(deviceList));
    case Some(SelectOutput) =>
      var deviceId := DeviceIdOf(arg);
      if deviceId.None? {
        reply := Error(AudioError);
      } else {
        var success := SetAudioOutputDevice(am, deviceId.value);
        reply := Success(Flag(success));
      }
    case Some(CurrentOutput) =>
      var currentDevice := CurrentAudioDevice(sdk, am.routing, am.outputs, am.bluetoothA2dpOn, am.wiredHeadsetOn);
      reply := Success(Current(currentDevice));
  }
}
