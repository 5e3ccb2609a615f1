/** Properties of manual output selection and of the reset to automatic routing. */
module RoutingLaws {
  import opened Wrappers
  import opened AudioDevices
  import opened AudioRouting

  /** The type of the device `setAudioOutputDevice` would pick for `id`, if any. */
  function TargetKind(outputs: seq<AudioDevice>, id: Int32): (r: Option<Int32>)
    ensures r.Some? <==> exists j :: 0 <= j < |outputs| && outputs[j].id == id
  {
    match FirstWithId(outputs, id)
    case None => None
    case Some(i) => Some(outputs[i].kind)
  }

  /**
   * Selection succeeds exactly for a null id, or for an id whose first output
   * has one of the five selectable types.
   */
  lemma SelectionSucceedsIff(st: RouteState, outputs: seq<AudioDevice>, deviceId: Option<Int32>)
    ensures Selection(st, outputs, deviceId).0 <==>
      deviceId.None? ||
      (TargetKind(outputs, deviceId.value).Some? && TargetKind(outputs, deviceId.value).value in SelectableTypes)
  {
  }

  /** A selection that reports failure writes nothing. */
  lemma FailedSelectionChangesNothing(st: RouteState, outputs: seq<AudioDevice>, deviceId: Option<Int32>)
    ensures !Selection(st, outputs, deviceId).0 ==> Selection(st, outputs, deviceId).1 == st
  {
  }

  /** Selecting the same output twice is the same as selecting it once. */
  lemma SelectionIsIdempotent(st: RouteState, outputs: seq<AudioDevice>, deviceId: Option<Int32>)
    ensures var (ok, st') := Selection(st, outputs, deviceId);
      Selection(st', outputs, deviceId) == (ok, st')
  {
  }

  /** A null id resets the settings to automatic routing, whatever they were. */
  lemma NullIdResets(st: RouteState, outputs: seq<AudioDevice>)
    ensures Selection(st, outputs, None) == (true, AutomaticRouting)
  {
  }

  /**
   * Selecting an A2DP output enters communication mode with SCO on and the
   * speakerphone as it was; any other selection either writes nothing or
   * leaves normal mode.
   */
  lemma A2dpSelection(st: RouteState, outputs: seq<AudioDevice>, id: Int32)
    ensures var (ok, st') := Selection(st, outputs, Some(id));
      if TargetKind(outputs, id) == Some(TYPE_BLUETOOTH_A2DP) then
        ok && st' == RouteState(MODE_IN_COMMUNICATION, st.speakerphoneOn, true)
      else
        st' == st || st'.mode == MODE_NORMAL
  {
  }

  /**
   * After a successful non-A2DP selection the mode is normal and the
   * speakerphone is on exactly when the built-in speaker was chosen.
   */
  lemma WiredSpeakerUsbSelection(st: RouteState, outputs: seq<AudioDevice>, id: Int32)
    requires TargetKind(outputs, id).Some? && TargetKind(outputs, id) != Some(TYPE_BLUETOOTH_A2DP)
    ensures var (ok, st') := Selection(st, outputs, Some(id));
      ok ==> st'.mode == MODE_NORMAL && (st'.speakerphoneOn <==> TargetKind(outputs, id) == Some(TYPE_BUILTIN_SPEAKER))
  {
  }

  /**
   * A non-A2DP selection never touches SCO: after choosing a Bluetooth
   * output, choosing the speaker leaves SCO on in normal mode, and only a
   * reset turns it off.
   */
  lemma ScoSurvivesNonA2dpSelection(st: RouteState, outputs: seq<AudioDevice>, id: Int32)
    requires TargetKind(outputs, id) != Some(TYPE_BLUETOOTH_A2DP)
    ensures Selection(st, outputs, Some(id)).1.scoOn == st.scoOn
  {
  }

  /** When two outputs share an id, the first one decides. */
  lemma FirstDeviceWithIdDecides(st: RouteState, d: AudioDevice, rest: seq<AudioDevice>)
    ensures Selection(st, [d] + rest, Some(d.id)) == Selection(st, [d], Some(d.id))
  {
    assert FirstWithId([d] + rest, d.id) == Some(0);
    assert FirstWithId([d], d.id) == Some(0);
  }
}
