/**
 * What the device bridge promises: the categories it gives, the shape of
 * the de-duplicated device list, and how the current device is chosen.
 */
module DeviceLaws {
  import opened Wrappers
  import Decimal
  import Dedup
  import opened AudioDevices

  // ---- categories ----

  /** Every type `categorizeDevice` does not list is "Other", whatever the name. */
  lemma UnlistedTypeIsOther(d: AudioDevice)
    requires d.kind !in ListedTypes
    ensures Categorize(d) == "Other"
  {
  }

  /** A Bluetooth A2DP device: "Android Auto" before "Car Audio" before "Bluetooth". */
  lemma A2dpCategory(d: AudioDevice)
    requires d.kind == TYPE_BLUETOOTH_A2DP
    ensures Categorize(d) == "Android Auto" <==> NameContains(d.productName, "Android Auto")
    ensures Categorize(d) == "Car Audio" <==>
              !NameContains(d.productName, "Android Auto") && NameContains(d.productName, "Car")
    ensures Categorize(d) == "Bluetooth" <==>
              !NameContains(d.productName, "Android Auto") && !NameContains(d.productName, "Car")
    ensures d.productName.None? ==> Categorize(d) == "Bluetooth"
  {
  }

  /** A USB device is "Android Auto" exactly when its name contains "Auto", and "USB Audio" otherwise. */
  lemma UsbCategory(d: AudioDevice)
    requires d.kind == TYPE_USB_DEVICE
    ensures Categorize(d) == (if NameContains(d.productName, "Auto") then "Android Auto" else "USB Audio")
  {
  }

  /** An occurrence of "Android Auto" is an occurrence of "Auto", eight characters on. */
  lemma {:induction false} AndroidAutoContainsAuto(s: string, i: nat)
    requires MatchesAt(s, "Android Auto", i)
    ensures MatchesAt(s, "Auto", i + 8)
  {
    var whole, part := s[i..i + 12], s[i + 8..i + 12];
    assert Lower(whole) == Lower("Android Auto");
    forall m | 0 <= m < 4 ensures Lower(part)[m] == Lower("Auto")[m] {
      assert part[m] == whole[m + 8];
      assert Lower(whole)[m + 8] == Lower("Android Auto")[m + 8];
    }
  }

  /**
   * A name that makes an A2DP device "Android Auto" makes a USB device
   * "Android Auto" too, case-insensitively.
   */
  lemma AndroidAutoOverBluetoothAlsoOverUsb(name: Option<string>, id: Int32, address: Option<string>)
    requires Categorize(AudioDevice(id, TYPE_BLUETOOTH_A2DP, name, address)) == "Android Auto"
    ensures Categorize(AudioDevice(id, TYPE_USB_DEVICE, name, address)) == "Android Auto"
  {
    var i: nat :| MatchesAt(name.value, "Android Auto", i);
    AndroidAutoContainsAuto(name.value, i);
  }

  /** An A2DP name with both "android auto" and "car" in it is "Android Auto", in any case. */
  lemma AndroidAutoWinsOverCar()
    ensures Categorize(AudioDevice(1, TYPE_BLUETOOTH_A2DP, Some("my ANDROID AUTO car"), None)) == "Android Auto"
  {
    assert MatchesAt("my ANDROID AUTO car", "Android Auto", 3);
  }

  // ---- the key string ----

  /** Splitting at the last ':' is unique when the part after it has no ':'. */
  lemma {:induction false} SplitAtLastColon(a1: string, b1: string, a2: string, b2: string)
    requires a1 + [':'] + b1 == a2 + [':'] + b2
    requires ':' !in b1 && ':' !in b2
    ensures a1 == a2 && b1 == b2
  {
    var s := a1 + [':'] + b1;
    assert s[|s| - |b1| - 1] == ':' && s[|s| - |b2| - 1] == ':';
    assert |b1| == |b2|;
    assert b1 == s[|s| - |b1|..] == b2;
    assert a1 == s[..|a1|] == a2;
  }

  lemma NoColonInCategory(c: string)
    requires c in Categories
    ensures ':' !in c
  {
  }

  /** The key string `"${productName}:${type}:${category}"` determines the name, the type and the category. */
  lemma KeyTextInjective(k1: DeviceKey, k2: DeviceKey)
    requires k1.category in Categories && k2.category in Categories
    requires KeyText(k1) == KeyText(k2)
    ensures k1 == k2
  {
    var t1, t2 := Decimal.IntToString(k1.kind as int), Decimal.IntToString(k2.kind as int);
    NoColonInCategory(k1.category);
    NoColonInCategory(k2.category);
    assert ':' !in t1 && ':' !in t2;
    assert KeyText(k1) == (k1.name + ":" + t1) + [':'] + k1.category;
    assert KeyText(k2) == (k2.name + ":" + t2) + [':'] + k2.category;
    SplitAtLastColon(k1.name + ":" + t1, k1.category, k2.name + ":" + t2, k2.category);
    assert k1.name + ":" + t1 == k1.name + [':'] + t1;
    assert k2.name + ":" + t2 == k2.name + [':'] + t2;
    SplitAtLastColon(k1.name, t1, k2.name, t2);
    if k1.kind < 0 {
      assert t1 == "-" + Decimal.NatToString(-(k1.kind as int));
      assert t1[1..] == Decimal.NatToString(-(k1.kind as int));
      Decimal.NatToStringInjective(-(k1.kind as int), -(k2.kind as int));
    } else {
      Decimal.NatToStringInjective(k1.kind as int, k2.kind as int);
    }
  }

  /** The name "null" contains none of the words `categorizeDevice` looks for. */
  lemma NullNameMatchesNoWord()
    ensures !NameContains(Some("null"), "Android Auto")
    ensures !NameContains(Some("null"), "Car")
    ensures !NameContains(Some("null"), "Auto")
  {
    forall i: nat ensures !MatchesAt("null", "Car", i) {
      if i + 3 <= 4 {
        assert Lower("null"[i..i + 3])[0] != Lower("Car")[0];
      }
    }
    forall i: nat ensures !MatchesAt("null", "Auto", i) {
      if i + 4 <= 4 {
        assert Lower("null"[i..i + 4])[0] != Lower("Auto")[0];
      }
    }
  }

  /**
   * A device without a product name and one named "null" of the same type
   * share a key, so only the first of them is listed.
   */
  lemma MissingNameCollidesWithNullName(d: AudioDevice, e: AudioDevice)
    requires d.productName.None? && e.productName == Some("null")
    requires d.kind == e.kind
    ensures KeyText(KeyOf(d)) == KeyText(KeyOf(e))
    ensures UniqueDevices([d, e]) == [d]
  {
    NullNameMatchesNoWord();
    assert KeyOf(d) == KeyOf(e);
    assert [d, e][1..] == [e] && [e][1..] == [];
    assert {} + {KeyOf(d)} == {KeyOf(d)};
    assert Dedup.KeptFrom([d, e], KeyOf, {}) == [d] + Dedup.KeptFrom([e], KeyOf, {KeyOf(d)});
    assert Dedup.KeptFrom([e], KeyOf, {KeyOf(d)}) == Dedup.KeptFrom([], KeyOf, {KeyOf(d)});
  }

  // ---- the de-duplicated list ----

  /**
   * The list `getAudioOutputDevices` reports from API 21 on: one entry per
   * key, the first device with that key, in the order keys first appear,
   * and no key of the input missing.
   */
  lemma UniqueDevicesAreFirstPerKey(ds: seq<AudioDevice>)
    ensures var r := UniqueDevices(ds);
      && |r| <= |ds|
      && Dedup.DistinctKeys(r, KeyOf)
      && Dedup.AreFirstOccurrences(ds, KeyOf, r)
      && Dedup.InFirstAppearanceOrder(ds, KeyOf, r)
      && Dedup.KeySet(r, KeyOf) == Dedup.KeySet(ds, KeyOf)
  {
    Dedup.FirstPerKey(ds, KeyOf);
  }

  /** Each listed entry carries the "Unknown" name and "" address defaults of its device. */
  lemma EntryDefaults(d: AudioDevice)
    ensures d.productName.None? ==> EntryOf(d).name == "Unknown"
    ensures d.address.None? ==> EntryOf(d).address == ""
    ensures d.productName.Some? ==> EntryOf(d).name == d.productName.value
    ensures d.address.Some? ==> EntryOf(d).address == d.address.value
  {
  }

  // ---- the current device ----

  /**
   * From API 23 on, the current device is the first output whose type
   * shares a bit with the routing mask, and there is none exactly when no
   * output does.
   */
  lemma CurrentDeviceIsFirstRouted(sdk: int, routing: Int32, outputs: seq<AudioDevice>, a2dpOn: bool, wiredOn: bool)
    requires sdk >= M
    ensures var r := CurrentAudioDevice(sdk, routing, outputs, a2dpOn, wiredOn);
      && (r.None? <==> forall j :: 0 <= j < |outputs| ==> !MatchesRouting(outputs[j], routing))
      && (r.Some? ==>
            exists i :: (0 <= i < |outputs| && r.value == Routed(EntryOf(outputs[i]))
              && MatchesRouting(outputs[i], routing)
              && forall j :: 0 <= j < i ==> !MatchesRouting(outputs[j], routing)))
  {
    var f := FirstRouted(outputs, routing);
    if f.Some? {
      var i := f.value;
      assert CurrentAudioDevice(sdk, routing, outputs, a2dpOn, wiredOn).value == Routed(EntryOf(outputs[i]));
    }
  }

  /**
   * Before API 23 the device is guessed: A2DP over wired headset over the
   * built-in speaker; its name and category are what `categorizeDevice`
   * gives a nameless device of that type.
   */
  lemma LegacyGuessAgreesWithCategories(sdk: int, routing: Int32, outputs: seq<AudioDevice>, a2dpOn: bool, wiredOn: bool)
    requires sdk < M
    ensures var r := CurrentAudioDevice(sdk, routing, outputs, a2dpOn, wiredOn);
      var t := if a2dpOn then TYPE_BLUETOOTH_A2DP else if wiredOn then TYPE_WIRED_HEADSET else TYPE_BUILTIN_SPEAKER;
      var c := Categorize(AudioDevice(0, t, None, None));
      r == Some(Legacy(t, c, c))
  {
  }

  /**
   * The routing test compares a device type with a bit mask: with the mask
   * 2 (`ROUTE_SPEAKER`), a wired headset (type 3) listed before the speaker
   * is reported as the current device.
   */
  lemma TypeBitsMatchUnrelatedRoute()
    ensures var headset := AudioDevice(1, TYPE_WIRED_HEADSET, None, None);
      var speaker := AudioDevice(2, TYPE_BUILTIN_SPEAKER, None, None);
      CurrentAudioDevice(M, 2, [headset, speaker], false, false) == Some(Routed(EntryOf(headset)))
  {
    var headset := AudioDevice(1, TYPE_WIRED_HEADSET, None, None);
    assert Bits(TYPE_WIRED_HEADSET) & Bits(2) == 2;
    assert MatchesRouting(headset, 2);
  }
}
