# Reverbio: plugin settings store and Android audio-device bridge

This project models two pieces of the Reverbio music player in Dafny and
proves properties about them.

**The plugin settings store** is in `app_plugins/src/template.js`. Every
plugin carries a `manifest` record with its name, version and live
`settings`. Three functions work on it:

- `merge(target, source)` walks the keys `for…in` enumerates on the source.
  When both values are "object"-typed (`typeof === "object"`: null, arrays
  and objects), it recurses into `target[key] || {}`. Otherwise the
  source's value overwrites the target's.
- `updateSettings(patch)` merges a patch into `manifest.settings` and
  replies `{message: "Settings updated!"}`.
- `loadSettings(defaults, user)` resets the settings to `{}`, then merges
  the defaults, then merges the user settings.

JavaScript values are the datatype `JsValue.Value`. An array is modelled as
the map from its index strings ("0", "1", …) to its elements, because that
map is all `for…in` and `target[key]` see of it. `JsValue.Entries` is what
`for…in` enumerates on any value:

- the properties of an array or object;
- one one-character string per index of a string;
- nothing for null, booleans and numbers.

`SettingsStore.Merged` is the merge as a function. `SettingsStore.Merge`
is the loop of `merge`, proved equal to it. `SettingsStore.Plugin` is the
manifest as a class whose `settings` field `UpdateSettings` and
`LoadSettings` reassign.

**The audio-device bridge** is `MainActivity.kt` in the Android app. It
answers three calls on the platform channel
`com.akashskypatel.reverbio/audio_device_channel`:

- `getAudioOutputDevices` lists the output devices, one entry per
  `"${productName}:${type}:${category}"` key, keeping the first device of
  each key.
- `setAudioOutputDevice(deviceId)` routes to a chosen output by writing the
  `AudioManager`'s mode, speakerphone and Bluetooth SCO settings. A null id
  resets to automatic routing.
- `getCurrentAudioDevice` reports the first output whose type shares a bit
  with the routing mask. Before API 23 it guesses from the A2DP and
  wired-headset flags.

`categorizeDevice` gives every device one of thirteen user-facing
categories. `AudioDevices` models the device list, the categories and the
current device. `AudioRouting` models the manager class and the two routing
operations. `AudioChannel` models the dispatch on the method name.
`Dedup` is the generic "first element of each key" filter behind the device
list.

How the model relates to the code:

- **Arrays and null in `merge`.** `merge` recurses into any two
  "object"-typed values, arrays included, so two arrays are merged index by
  index and never replaced or concatenated
  (`SettingsLaws.ArraysMergeIndexWise`). A null patch value over an existing
  container changes nothing (`SettingsLaws.NullOverContainerKeepsIt`).
- **The de-duplication key.** The key is the string
  `"${productName}:${type}:${category}"`. The model compares keys as the
  triple `AudioDevices.DeviceKey`. `DeviceLaws.KeyTextInjective` proves the
  string determines the triple, so the two ways of comparing agree. A
  missing product name renders as `"null"`, so a nameless device and a
  device named "null" of the same type share a key
  (`DeviceLaws.MissingNameCollidesWithNullName`).
- **The routing mask.** `getCurrentAudioDevice` tests
  `(device.type and routing) != 0`. That compares a device type number with
  the bits of a routing mask. With mask 2, a wired headset (type 3) matches
  (`DeviceLaws.TypeBitsMatchUnrelatedRoute`). The model states this
  behaviour as written.

## Model

| member | source | states |
|---|---|---|
| JsValue.IsObjectTyped | app_plugins/src/template.js:226 | `typeof v === "object"`: true of null, arrays and objects, and of nothing else |
| JsValue.Entries | app_plugins/src/template.js:225 | `for…in` enumerates exactly a container's own properties, nothing on null, booleans and numbers, and `StringEntries` on a string |
| JsValue.StringEntries | app_plugins/src/template.js:225 | the keys a string enumerates with the values read at them, as a map from index strings |
| JsValue.StringEntriesByIndex | app_plugins/src/template.js:225 | a string enumerates exactly the keys `IndexKey(i)` for `i < \|s\|`, and key `IndexKey(i)` holds the one-character string `s[i]` |
| SettingsStore.OrEmpty | app_plugins/src/template.js:227 | `target[key] \|\| {}` on an object-typed value: null becomes a fresh empty object, an array or object is kept as it is; the result is always a container |
| SettingsStore.Merged | app_plugins/src/template.js:224-233 | the merge keeps the target's kind. Its keys are the target's plus the source's. Keys the source lacks keep their values. A non-object source value overwrites |
| SettingsStore.MergedAt | app_plugins/src/template.js:226-230 | at a source key, the result is the recursive merge into `target[key] \|\| {}` when both values are object-typed, and the source value otherwise |
| SettingsStore.Merge | app_plugins/src/template.js:224-233 | the `for…in` loop, over the source's keys in any order, builds exactly `Merged(target, source)` |
| SettingsStore.WrittenSoFarStep | app_plugins/src/template.js:225-231 | writing the wanted value of one more key keeps the loop invariant: done keys hold their merged values, untouched target keys their old ones |
| SettingsStore.WrittenSoFarDone | app_plugins/src/template.js:225-232 | once every source key is done, the value built is the merge |
| SettingsStore.MergeProperty | app_plugins/src/template.js:226-230 | one iteration writes the merged value of its key |
| SettingsStore.LoadedSettings | app_plugins/src/template.js:240-244 | the loaded settings have exactly the keys of the defaults and the user settings |
| SettingsStore.Plugin.constructor | app_plugins/src/template.js:215-218 | a manifest holds its name, version and settings as given |
| SettingsStore.Plugin.PluginName | app_plugins/src/template.js:217 | `pluginName()` returns the manifest's name, which `UpdateSettings` and `LoadSettings` never change |
| SettingsStore.Plugin.PluginVersion | app_plugins/src/template.js:218 | `pluginVersion()` returns the manifest's version, which `UpdateSettings` and `LoadSettings` never change |
| SettingsStore.Plugin.UpdateSettings | app_plugins/src/template.js:235-238 | the settings become the merge of the patch into them. The reply is always `{message: "Settings updated!"}`. Name and version (what `pluginName`/`pluginVersion` return) are unchanged |
| SettingsStore.Plugin.LoadSettings | app_plugins/src/template.js:240-244 | the settings become `LoadedSettings(defaults, user)`, whatever they were before. Name and version are unchanged |
| SettingsLaws.EmptyPatchChangesNothing | app_plugins/src/template.js:224-233 | a patch that enumerates nothing (`{}`, `[]`, null, a number, a boolean, "") returns the target unchanged |
| SettingsLaws.MergedIntoEmpty | app_plugins/src/template.js:227 | merging into `{}` gives an object holding what the patch enumerates |
| SettingsLaws.MergedCoversPatch | app_plugins/src/template.js:225-231 | every key of the patch, at every depth, is in the result. Scalars are at their paths, and an object-typed value is wherever the patch has null |
| SettingsLaws.NullPatchIsNoOp | app_plugins/src/template.js:225 | merging null into a container changes nothing |
| SettingsLaws.NullOverContainerKeepsIt | app_plugins/src/template.js:226-227 | a null patch value over an array or object property leaves that property untouched |
| SettingsLaws.NullSlotBecomesObject | app_plugins/src/template.js:227 | a null target property under an array or object patch becomes a fresh object holding what the patch enumerates (`\|\| {}`) |
| SettingsLaws.MergedArrayAt | app_plugins/src/template.js:226-230 | index `i` of two merged arrays holds the element-wise merge of the two elements |
| SettingsLaws.ArraysMergeIndexWise | app_plugins/src/template.js:224-233 | merging two arrays gives the array of element-wise merges, as long as the longer one. Arrays are never replaced or concatenated |
| SettingsLaws.SelfMergeIsIdentity | app_plugins/src/template.js:224-233 | merging a null-free container into itself gives it back |
| SettingsLaws.NullFreePatchIsIdempotent | app_plugins/src/template.js:235-238 | applying a null-free patch a second time changes nothing more |
| SettingsLaws.NullPatchIsNotIdempotent | app_plugins/src/template.js:226-227 | with `{a: null}`, applying the patch twice differs from once (null, then `{}`) |
| SettingsLaws.NestedOverrideKeepsSiblings | app_plugins/src/template.js:224-233 | `merge({a:{b:1,c:2}}, {a:{b:5}})` is `{a:{b:5,c:2}}` |
| SettingsLaws.UserSettingsTakePrecedence | app_plugins/src/template.js:240-244 | after loading: keys only in the defaults keep the default value. A scalar user value wins over the default. All of the user settings are present at every depth |
| AudioDevices.ContainsIgnoreCase | android/app/src/main/kotlin/com/akashskypatel/reverbio/MainActivity.kt:89-96 | `contains(sub, ignoreCase = true)` holds exactly when `sub` occurs at some position, letters compared case-insensitively |
| AudioDevices.NameContains | android/app/src/main/kotlin/com/akashskypatel/reverbio/MainActivity.kt:89-96 | `productName?.contains(sub, ignoreCase = true) == true`: false for a missing name, and otherwise true iff `sub` occurs in the name ignoring case; never true of a name shorter than `sub` |
| AudioDevices.Categorize | android/app/src/main/kotlin/com/akashskypatel/reverbio/MainActivity.kt:85-122 | every device gets one of the thirteen categories |
| AudioDevices.EntryOf | android/app/src/main/kotlin/com/akashskypatel/reverbio/MainActivity.kt:68-74 | an entry carries the device's id, type and category. Its name defaults to "Unknown" and its address to "" |
| AudioDevices.NameText | android/app/src/main/kotlin/com/akashskypatel/reverbio/MainActivity.kt:66 | a product name as string interpolation writes it: the name itself, or "null" when it is missing |
| AudioDevices.KeyOf | android/app/src/main/kotlin/com/akashskypatel/reverbio/MainActivity.kt:66 | the key of a device carries its type, one of the categories, and its product name when it has one |
| AudioDevices.KeyText | android/app/src/main/kotlin/com/akashskypatel/reverbio/MainActivity.kt:66 | the key string starts with the name followed by ':' and ends with ':' followed by the category |
| Dedup.KeptFrom | android/app/src/main/kotlin/com/akashskypatel/reverbio/MainActivity.kt:64-76 | the loop that skips keys already present keeps a sub-list no longer than its input |
| AudioDevices.UniqueDevices | android/app/src/main/kotlin/com/akashskypatel/reverbio/MainActivity.kt:64-82 | the devices kept are drawn from the input, no more of them than it has, with pairwise distinct keys |
| AudioDevices.GetAudioOutputDevices | android/app/src/main/kotlin/com/akashskypatel/reverbio/MainActivity.kt:57-83 | below API 21 the list is empty. From API 21 on it is the entries of the first device of each key, in order |
| AudioDevices.CollectUniqueDevices | android/app/src/main/kotlin/com/akashskypatel/reverbio/MainActivity.kt:64-82 | the loop filling the insertion-ordered map, where a present key is skipped, yields the entries of `UniqueDevices(devices)` |
| AudioDevices.MatchesRouting | android/app/src/main/kotlin/com/akashskypatel/reverbio/MainActivity.kt:196 | `(device.type and routing) != 0` on 32-bit values; it can hold only when both the type and the mask are non-zero |
| AudioDevices.CurrentAudioDevice | android/app/src/main/kotlin/com/akashskypatel/reverbio/MainActivity.kt:184-226 | before API 23 there is always a guessed device; from API 23 on, a reported device is the entry of an output whose type shares a bit with the mask |
| AudioDevices.FirstRouted | android/app/src/main/kotlin/com/akashskypatel/reverbio/MainActivity.kt:194-197 | the index found is of a device whose type shares a bit with the mask, and no earlier device does |
| Dedup.KeptFromKeys | android/app/src/main/kotlin/com/akashskypatel/reverbio/MainActivity.kt:64-76 | kept elements have new, pairwise distinct keys, and every key of the input is either taken or kept |
| Dedup.KeptFromFirstOccurrences | android/app/src/main/kotlin/com/akashskypatel/reverbio/MainActivity.kt:64-76 | each kept element is the first of its key, and they come in order of first appearance |
| Dedup.FirstPerKey | android/app/src/main/kotlin/com/akashskypatel/reverbio/MainActivity.kt:64-82 | the filter keeps at most one element per key. Each is the first of its key, in order of first appearance, with no key lost |
| DeviceLaws.UnlistedTypeIsOther | android/app/src/main/kotlin/com/akashskypatel/reverbio/MainActivity.kt:120 | every type `categorizeDevice` does not list is "Other" |
| DeviceLaws.A2dpCategory | android/app/src/main/kotlin/com/akashskypatel/reverbio/MainActivity.kt:87-93 | for A2DP: "Android Auto" iff the name contains it; "Car Audio" iff not that but "Car"; otherwise "Bluetooth", also for a missing name |
| DeviceLaws.UsbCategory | android/app/src/main/kotlin/com/akashskypatel/reverbio/MainActivity.kt:94-99 | a USB device is "Android Auto" iff its name contains "Auto", else "USB Audio" |
| DeviceLaws.AndroidAutoOverBluetoothAlsoOverUsb | android/app/src/main/kotlin/com/akashskypatel/reverbio/MainActivity.kt:89-96 | a name that makes an A2DP device "Android Auto" makes a USB device "Android Auto" too |
| DeviceLaws.AndroidAutoWinsOverCar | android/app/src/main/kotlin/com/akashskypatel/reverbio/MainActivity.kt:89-90 | an A2DP name containing both "android auto" and "car", in any case, is "Android Auto" |
| DeviceLaws.KeyTextInjective | android/app/src/main/kotlin/com/akashskypatel/reverbio/MainActivity.kt:66 | the key string determines name, type and category |
| DeviceLaws.NullNameMatchesNoWord | android/app/src/main/kotlin/com/akashskypatel/reverbio/MainActivity.kt:89-99 | the name "null" contains none of "Android Auto", "Car" and "Auto", ignoring case |
| DeviceLaws.MissingNameCollidesWithNullName | android/app/src/main/kotlin/com/akashskypatel/reverbio/MainActivity.kt:66-67 | a nameless device and one named "null" of the same type, of any type, share a key, so only the first is listed |
| DeviceLaws.UniqueDevicesAreFirstPerKey | android/app/src/main/kotlin/com/akashskypatel/reverbio/MainActivity.kt:64-82 | the listed devices have distinct keys. Each is the first device of its key, in order of first appearance. Every key of the input is listed, and the list is no longer than the input |
| DeviceLaws.EntryDefaults | android/app/src/main/kotlin/com/akashskypatel/reverbio/MainActivity.kt:68-74 | the name is "Unknown" exactly for a missing product name, and the address "" for a missing address. Otherwise each is the device's own |
| DeviceLaws.CurrentDeviceIsFirstRouted | android/app/src/main/kotlin/com/akashskypatel/reverbio/MainActivity.kt:190-205 | from API 23 on, the reported device is the entry of the first output matching the mask. There is none iff no output matches |
| DeviceLaws.LegacyGuessAgreesWithCategories | android/app/src/main/kotlin/com/akashskypatel/reverbio/MainActivity.kt:206-224 | before API 23: A2DP over wired headset over speaker, with name and category equal to that type's category |
| DeviceLaws.TypeBitsMatchUnrelatedRoute | android/app/src/main/kotlin/com/akashskypatel/reverbio/MainActivity.kt:194-197 | with mask 2, a wired headset listed before the speaker is reported as current |
| AudioRouting.FirstWithId | android/app/src/main/kotlin/com/akashskypatel/reverbio/MainActivity.kt:135 | the index found is of a device with that id, and no earlier device has it |
| AudioRouting.AudioManager.constructor | android/app/src/main/kotlin/com/akashskypatel/reverbio/MainActivity.kt:126 | a manager starts with the given mode, speakerphone and SCO settings, device list, routing mask and A2DP and wired-headset flags |
| AudioRouting.AudioManager.State | android/app/src/main/kotlin/com/akashskypatel/reverbio/MainActivity.kt:137-175 | the three settings the bridge writes: mode, speakerphone and SCO |
| AudioRouting.Selection | android/app/src/main/kotlin/com/akashskypatel/reverbio/MainActivity.kt:129-161 | a failed selection leaves the settings as they were; a successful one leaves NORMAL mode, or IN_COMMUNICATION with SCO on; a successful selection by id names an id some output has |
| AudioRouting.ResetToAutomaticRouting | android/app/src/main/kotlin/com/akashskypatel/reverbio/MainActivity.kt:164-182 | returns true, leaving mode NORMAL, speakerphone off and SCO off |
| AudioRouting.SetAudioOutputDevice | android/app/src/main/kotlin/com/akashskypatel/reverbio/MainActivity.kt:124-162 | the reply and the new manager settings are those of `Selection` on the old settings |
| RoutingLaws.TargetKind | android/app/src/main/kotlin/com/akashskypatel/reverbio/MainActivity.kt:134-135 | a target device exists iff some output has the id |
| RoutingLaws.SelectionSucceedsIff | android/app/src/main/kotlin/com/akashskypatel/reverbio/MainActivity.kt:129-161 | success iff the id is null, or its first output is A2DP, wired, speaker or USB |
| RoutingLaws.FailedSelectionChangesNothing | android/app/src/main/kotlin/com/akashskypatel/reverbio/MainActivity.kt:135-160 | a failed selection (unknown id or unsupported type) writes nothing |
| RoutingLaws.SelectionIsIdempotent | android/app/src/main/kotlin/com/akashskypatel/reverbio/MainActivity.kt:129-161 | selecting the same id twice gives the same reply and settings as once |
| RoutingLaws.NullIdResets | android/app/src/main/kotlin/com/akashskypatel/reverbio/MainActivity.kt:129-131 | a null id gives true and the automatic-routing settings, whatever they were |
| RoutingLaws.A2dpSelection | android/app/src/main/kotlin/com/akashskypatel/reverbio/MainActivity.kt:138-160 | A2DP: true, IN_COMMUNICATION mode, SCO on, speakerphone as before. Any other selection writes nothing or leaves NORMAL mode |
| RoutingLaws.WiredSpeakerUsbSelection | android/app/src/main/kotlin/com/akashskypatel/reverbio/MainActivity.kt:144-159 | a successful non-A2DP selection leaves NORMAL mode, with the speakerphone on iff the built-in speaker was chosen |
| RoutingLaws.ScoSurvivesNonA2dpSelection | android/app/src/main/kotlin/com/akashskypatel/reverbio/MainActivity.kt:144-160 | a non-A2DP selection never changes SCO. Only a reset turns it off |
| RoutingLaws.FirstDeviceWithIdDecides | android/app/src/main/kotlin/com/akashskypatel/reverbio/MainActivity.kt:135 | when outputs share an id, the first decides |
| AudioChannel.MethodOf | android/app/src/main/kotlin/com/akashskypatel/reverbio/MainActivity.kt:33-47 | a name is dispatched iff it is one of the three method names, and to the method of that name |
| AudioChannel.MethodNamesRoundTrip | android/app/src/main/kotlin/com/akashskypatel/reverbio/MainActivity.kt:33-47 | each method is reached by its own name and by no other |
| AudioChannel.DeviceIdOf | android/app/src/main/kotlin/com/akashskypatel/reverbio/MainActivity.kt:39 | reading `deviceId` as `Int?` fails exactly for a non-integer or an integer beyond 32 bits. It gives null for a missing or null argument, and the integer otherwise |
| AudioChannel.DeviceIdRoundTrip | android/app/src/main/kotlin/com/akashskypatel/reverbio/MainActivity.kt:39 | every id a caller sends, null included, is read back unchanged |
| AudioChannel.HandleMethodCall | android/app/src/main/kotlin/com/akashskypatel/reverbio/MainActivity.kt:30-52 | unknown names reply not-implemented. Only `setAudioOutputDevice` writes the settings. A bad `deviceId` replies `AUDIO_ERROR` and writes nothing. Each known method replies with its operation's result |

## Left out

- JavaScript `undefined`, functions, symbols and prototype-inherited keys are not values of the model. `for…in` over inherited enumerable properties and `__proto__` assignment are not modelled.
- SettingsStore.Merge: returns a new value rather than mutating `target` in place. The aliasing this hides is not modelled: `loadSettings` mutating the caller's nested `defaults` objects, and a returned target being the same object as the argument.
- Array `length` and holes: an array is its index-keyed properties. Writing a non-index key into an array adds a property, as in JavaScript, but `length` is not tracked.
- Numbers are real numbers, not IEEE doubles. The merge never computes with them.
- `pluginManifest`, `pluginSettings`, `pluginWidgets`, `pluginHooks` (`JSON.stringify` of manifest parts), `print` (`Date` and `console`), the global shims, the AMD `define` and the manifest literal are not modelled.
- AudioRouting.ResetToAutomaticRouting: always returns true. The `catch` that returns false (MainActivity.kt lines 178-181) is not modelled, because the setters it guards are not modelled as throwing.
- JsValue.StringEntries: a Dafny `char` is a Unicode scalar value, while JavaScript indexes strings by UTF-16 code unit. A top-level string patch holding a character outside the Basic Multilingual Plane enumerates two keys (the two surrogates) in JavaScript and one in the model.
- AudioDevices.ContainsIgnoreCase: folds ASCII letters only. Kotlin's `ignoreCase` also folds non-ASCII letters.
- Platform readings (the output device list, the routing mask, the A2DP and wired-headset flags, the API level) are parameters or fields set from outside. `getSystemService` is not modelled.
- `startBluetoothSco`, `stopBluetoothSco` and `Log` calls have no effect in the model beyond the settings they accompany.
- `getDevices` and `AudioDeviceInfo` exist only from API 23. The model takes the device list as given at every API level. It does not model the `NoSuchMethodError` that `getAudioOutputDevices` on API 21–22, and `setAudioOutputDevice` with an id below API 23, would raise. That error is not an `Exception`, so the handlers would not catch it.
- Exceptions from the platform calls themselves are not modelled. This covers the `AUDIO_ERROR` replies, the null from `getCurrentAudioDevice`'s `catch` and the false from `resetToAutomaticRouting`'s `catch`. The only modelled exception is the failing `deviceId` cast. The error message (`localizedMessage`) is not part of the reply.
- `onCreate`, `isAndroidAutoConnected`, the Flutter engine and method-channel registration are not modelled. The Gradle build file is not part of this model.
- The host-side plugin loader, hook dispatcher, widget registry and sandbox are not part of this model.
