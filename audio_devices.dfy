/**
 * Audio output devices as the native audio bridge of the Android app sees
 * them: their classification into user-facing categories, the de-duplicated
 * device list, and the choice of the device currently playing.
 */
module AudioDevices {
  import opened Wrappers
  import Decimal
  import Dedup

  /** Kotlin's 32-bit `Int`. */
  newtype Int32 = x: int | -0x8000_0000 <= x < 0x8000_0000

  // AudioDeviceInfo.TYPE_* constants of the Android SDK.
  const TYPE_BUILTIN_EARPIECE: Int32 := 1
  const TYPE_BUILTIN_SPEAKER: Int32 := 2
  const TYPE_WIRED_HEADSET: Int32 := 3
  const TYPE_WIRED_HEADPHONES: Int32 := 4
  const TYPE_BLUETOOTH_SCO: Int32 := 7
  const TYPE_BLUETOOTH_A2DP: Int32 := 8
  const TYPE_HDMI: Int32 := 9
  const TYPE_HDMI_ARC: Int32 := 10
  const TYPE_USB_DEVICE: Int32 := 11
  const TYPE_DOCK: Int32 := 13
  const TYPE_FM: Int32 := 14
  const TYPE_FM_TUNER: Int32 := 16
  const TYPE_AUX_LINE: Int32 := 19
  const TYPE_USB_HEADSET: Int32 := 22
  const TYPE_HEARING_AID: Int32 := 23
  const TYPE_BUILTIN_SPEAKER_SAFE: Int32 := 24
  const TYPE_REMOTE_SUBMIX: Int32 := 25
  const TYPE_BLE_HEADSET: Int32 := 26
  const TYPE_BLE_SPEAKER: Int32 := 27
  const TYPE_HDMI_EARC: Int32 := 29
  const TYPE_BLE_BROADCAST: Int32 := 30
  const TYPE_DOCK_ANALOG: Int32 := 31

  // Build.VERSION_CODES used by the bridge.
  const LOLLIPOP: int := 21
  const M: int := 23

  /** The parts of an `AudioDeviceInfo` the bridge reads. */
  datatype AudioDevice = AudioDevice(id: Int32, kind: Int32, productName: Option<string>, address: Option<string>)

  /** One entry of the list handed back over the method channel. */
  datatype DeviceEntry = DeviceEntry(id: Int32, name: string, kind: Int32, address: string, category: string)

  /** Every category `categorizeDevice` can give. */
  const Categories: set<string> := {
    "Android Auto", "Car Audio", "Bluetooth", "USB Audio", "Wired Headphones",
    "Phone Speaker", "Phone Earpiece", "HDMI", "Docking Station",
    "AUX", "Radio", "Hearing Aid", "Other"
  }

  // ---- case-insensitive substring search, for ASCII letters ----

  function LowerChar(c: char): char
  {
    if 'A' <= c <= 'Z' then (c as int + 32) as char else c
  }

  function Lower(s: string): (r: string)
    ensures |r| == |s| && forall i :: 0 <= i < |s| ==> r[i] == LowerChar(s[i])
  {
    seq(|s|, i requires 0 <= i < |s| => LowerChar(s[i]))
  }

  /** `sub` occurs in `s` at position `i`, ignoring case. */
  predicate MatchesAt(s: string, sub: string, i: nat)
  {
    i + |sub| <= |s| && Lower(s[i..i + |sub|]) == Lower(sub)
  }

  /** `s.contains(sub, ignoreCase = true)`. */
  function ContainsIgnoreCase(s: string, sub: string): (r: bool)
    ensures r <==> exists i: nat :: MatchesAt(s, sub, i)
    decreases |s|
  {
    if |s| < |sub| then false
    else if MatchesAt(s, sub, 0) then true
    else
      var rest := ContainsIgnoreCase(s[1..], sub);
      assert forall i: nat :: MatchesAt(s, sub, i + 1) <==> MatchesAt(s[1..], sub, i) by {
        forall i: nat ensures MatchesAt(s, sub, i + 1) <==> MatchesAt(s[1..], sub, i) {
          if i + 1 + |sub| <= |s| {
            var a, b := s[i + 1..i + 1 + |sub|], s[1..][i..i + |sub|];
            forall m | 0 <= m < |sub| ensures a[m] == b[m] {
            }
            assert a == b;
          }
        }
      }
      assert forall i: nat :: MatchesAt(s, sub, i) ==> i == 0 || MatchesAt(s[1..], sub, i - 1);
      rest
  }

  /** `device.productName?.toString()?.contains(sub, ignoreCase = true) == true`. */
  function NameContains(name: Option<string>, sub: string): (r: bool)
    ensures r <==> name.Some? && exists i: nat :: MatchesAt(name.value, sub, i)
    ensures name.Some? && |name.value| < |sub| ==> !r
  {
    name.Some? && ContainsIgnoreCase(name.value, sub)
  }

  /** `categorizeDevice`: the user-facing category of a device. */
  function Categorize(d: AudioDevice): (r: string)
    ensures r in Categories
  {
    var t := d.kind;
    if t == TYPE_BLUETOOTH_A2DP then
      if NameContains(d.productName, "Android Auto") then "Android Auto"
      else if NameContains(d.productName, "Car") then "Car Audio"
      else "Bluetooth"
    else if t == TYPE_USB_DEVICE then
      if NameContains(d.productName, "Auto") then "Android Auto" else "USB Audio"
    else if t == TYPE_REMOTE_SUBMIX then "Android Auto"
    else if t in {TYPE_WIRED_HEADPHONES, TYPE_WIRED_HEADSET, TYPE_USB_HEADSET} then "Wired Headphones"
    else if t in {TYPE_BUILTIN_SPEAKER, TYPE_BUILTIN_SPEAKER_SAFE} then "Phone Speaker"
    else if t == TYPE_BUILTIN_EARPIECE then "Phone Earpiece"
    else if t in {TYPE_HDMI, TYPE_HDMI_ARC, TYPE_HDMI_EARC} then "HDMI"
    else if t in {TYPE_DOCK, TYPE_DOCK_ANALOG} then "Docking Station"
    else if t == TYPE_AUX_LINE then "AUX"
    else if t in {TYPE_BLE_BROADCAST, TYPE_BLE_HEADSET, TYPE_BLE_SPEAKER, TYPE_BLUETOOTH_SCO} then "Bluetooth"
    else if t in {TYPE_FM, TYPE_FM_TUNER} then "Radio"
    else if t == TYPE_HEARING_AID then "Hearing Aid"
    else "Other"
  }

  /** The types `categorizeDevice` names; every other type is "Other". */
  const ListedTypes: set<Int32> := {
    TYPE_BLUETOOTH_A2DP, TYPE_USB_DEVICE, TYPE_REMOTE_SUBMIX,
    TYPE_WIRED_HEADPHONES, TYPE_WIRED_HEADSET, TYPE_USB_HEADSET,
    TYPE_BUILTIN_SPEAKER, TYPE_BUILTIN_SPEAKER_SAFE, TYPE_BUILTIN_EARPIECE,
    TYPE_HDMI, TYPE_HDMI_ARC, TYPE_HDMI_EARC, TYPE_DOCK, TYPE_DOCK_ANALOG,
    TYPE_AUX_LINE, TYPE_BLE_BROADCAST, TYPE_BLE_HEADSET, TYPE_BLE_SPEAKER,
    TYPE_BLUETOOTH_SCO, TYPE_FM, TYPE_FM_TUNER, TYPE_HEARING_AID
  }

  // ---- the device list ----

  /** `"${device.productName}"`: Kotlin renders a null name as "null". */
  function NameText(name: Option<string>): (r: string)
    ensures name.Some? ==> r == name.value
    ensures name.None? ==> r == "null"
  {
    if name.Some? then name.value else "null"
  }

  /**
   * The three parts of the de-duplication key. The bridge joins them into
   * the string `"${productName}:${type}:${category}"` (`KeyText`); since the
   * type and the category never contain ':', that string determines the
   * parts (`KeyTextInjective` in DeviceLaws), so keys are compared here as
   * triples.
   */
  datatype DeviceKey = DeviceKey(name: string, kind: Int32, category: string)

  function KeyOf(d: AudioDevice): (k: DeviceKey)
    ensures k.kind == d.kind && k.category in Categories
    ensures d.productName.Some? ==> k.name == d.productName.value
  {
    DeviceKey(NameText(d.productName), d.kind, Categorize(d))
  }

  /** The key as the bridge writes it. */
  function KeyText(k: DeviceKey): (r: string)
    ensures |r| >= |k.name| + |k.category| + 3
    ensures r[..|k.name|] == k.name && r[|k.name|] == ':'
    ensures r[|r| - |k.category|..] == k.category && r[|r| - |k.category| - 1] == ':'
  {
    k.name + ":" + Decimal.IntToString(k.kind as int) + ":" + k.category
  }

  /** The map built for one device, with the "Unknown" and "" defaults. */
  function EntryOf(d: AudioDevice): (e: DeviceEntry)
    ensures e.id == d.id && e.kind == d.kind && e.category == Categorize(d)
    ensures e.name == d.productName.GetOr("Unknown") && e.address == d.address.GetOr("")
  {
    DeviceEntry(d.id, d.productName.GetOr("Unknown"), d.kind, d.address.GetOr(""), Categorize(d))
  }

  function EntriesOf(ds: seq<AudioDevice>): (r: seq<DeviceEntry>)
    ensures |r| == |ds| && forall i :: 0 <= i < |ds| ==> r[i] == EntryOf(ds[i])
  {
    seq(|ds|, i requires 0 <= i < |ds| => EntryOf(ds[i]))
  }

  /** The devices `getAudioOutputDevices` reports, before they are turned into maps. */
  function UniqueDevices(ds: seq<AudioDevice>): (r: seq<AudioDevice>)
    ensures |r| <= |ds| && forall j :: 0 <= j < |r| ==> r[j] in ds
    ensures Dedup.DistinctKeys(r, KeyOf)
  {
    Dedup.FirstPerKey(ds, KeyOf);
    Dedup.KeptFrom(ds, KeyOf, {})
  }

  /**
   * `getAudioOutputDevices`: below Lollipop nothing; otherwise one entry per
   * key, for the first device with that key, in the order the keys first
   * appear.
   */
  method GetAudioOutputDevices(sdk: int, devices: seq<AudioDevice>) returns (list: seq<DeviceEntry>)
    ensures sdk < LOLLIPOP ==> list == []
    ensures sdk >= LOLLIPOP ==> list == EntriesOf(UniqueDevices(devices))
  {
    list := [];
    if sdk >= LOLLIPOP {
      list := CollectUniqueDevices(devices);
    }
  }

  /**
   * The loop of `getAudioOutputDevices` filling `uniqueDevices`. The
   * insertion-ordered `mutableMapOf` is modelled by a map, for
   * `containsKey`, and the sequence of its values in insertion order; a key
   * already present is skipped, so the first device wins. Keys are the
   * triples `KeyOf`, which stand for their strings `KeyText`.
   */
  method CollectUniqueDevices(devices: seq<AudioDevice>) returns (values: seq<DeviceEntry>)
    ensures values == EntriesOf(UniqueDevices(devices))
  {
    var uniqueDevices: map<DeviceKey, DeviceEntry> := map[];
    values := [];
    ghost var kept: seq<AudioDevice> := [];
    assert devices[0..] == devices && uniqueDevices.Keys == {};
    for i := 0 to |devices|
      invariant |kept| == |values|
      invariant forall j :: 0 <= j < |kept| ==> values[j] == EntryOf(kept[j])
      invariant kept + Dedup.KeptFrom(devices[i..], KeyOf, uniqueDevices.Keys) == UniqueDevices(devices)
    {
      var device := devices[i];
      var deviceKey := KeyOf(device);
      Dedup.KeptFromAdvance(devices, KeyOf, i, kept, uniqueDevices.Keys);
      if deviceKey !in uniqueDevices {
        ghost var seen := uniqueDevices.Keys;
        uniqueDevices := uniqueDevices[deviceKey := EntryOf(device)];
        assert uniqueDevices.Keys == seen + {deviceKey};
        values := values + [EntryOf(device)];
        kept := kept + [device];
      }
    }
    assert devices[|devices|..] == [];
  }

  // ---- the current device ----

  /** The two's-complement bits of a Kotlin `Int`. */
  function Bits(x: Int32): bv32
  {
    (if x < 0 then x as int + 0x1_0000_0000 else x as int) as bv32
  }

  /** `(device.type and routing) != 0`. */
  function MatchesRouting(d: AudioDevice, routing: Int32): (r: bool)
    ensures r ==> d.kind != 0 && routing != 0
  {
    Bits(d.kind) & Bits(routing) != 0
  }

  /** `devices.firstOrNull { (it.type and routing) != 0 }`. */
  function FirstRouted(ds: seq<AudioDevice>, routing: Int32): (r: Option<nat>)
    ensures r.Some? ==> r.value < |ds| && MatchesRouting(ds[r.value], routing)
    ensures forall j :: 0 <= j < |ds| && (r.None? || j < r.value) ==> !MatchesRouting(ds[j], routing)
  {
    if ds == [] then None
    else if MatchesRouting(ds[0], routing) then Some(0)
    else match FirstRouted(ds[1..], routing)
      case None => None
      case Some(i) => Some(i + 1)
  }

  /** What `getCurrentAudioDevice` reports. */
  datatype CurrentDevice =
    | Routed(entry: DeviceEntry)
    | Legacy(kind: Int32, name: string, category: string)

  /**
   * `getCurrentAudioDevice`: from API 23 on, the entry of the first output
   * whose type shares a bit with the routing mask, or null; before that, a
   * guess from the A2DP and wired-headset flags, A2DP first.
   */
  function CurrentAudioDevice(sdk: int, routing: Int32, outputs: seq<AudioDevice>, a2dpOn: bool, wiredOn: bool)
    : (r: Option<CurrentDevice>)
    ensures sdk < M ==> r.Some? && r.value.Legacy?
    ensures sdk >= M && r.Some? ==>
      exists i :: 0 <= i < |outputs| && MatchesRouting(outputs[i], routing) && r.value == Routed(EntryOf(outputs[i]))
  {
    if sdk >= M then
      match FirstRouted(outputs, routing)
      case None => None
      case Some(i) => Some(Routed(EntryOf(outputs[i])))
    else if a2dpOn then Some(Legacy(TYPE_BLUETOOTH_A2DP, "Bluetooth", "Bluetooth"))
    else if wiredOn then Some(Legacy(TYPE_WIRED_HEADSET, "Wired Headphones", "Wired Headphones"))
    else Some(Legacy(TYPE_BUILTIN_SPEAKER, "Phone Speaker", "Phone Speaker"))
  }
}
