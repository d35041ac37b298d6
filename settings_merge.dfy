/** `ClientSettingsUpdate.mergingCameraAndMicrophoneSettings`: force the camera's and the
    microphone's `isEnabled` to given values inside a sparse settings update, leaving every
    other field as it was and building whatever sub-structure is missing. */
module SettingsMerge {
  import opened Rtvi

  /** The other fields of the update's inputs: those of `s` when its inputs are set, none otherwise. */
  function InputOthers(s: ClientSettingsUpdate): map<string, Setting>
  {
    if s.inputs.Set? then s.inputs.v.others else map[]
  }

  /** The camera's fields other than `isEnabled` that `s` sets. */
  function CameraOthers(s: ClientSettingsUpdate): map<string, Setting>
  {
    if s.inputs.Set? && s.inputs.v.camera.Set? then s.inputs.v.camera.v.others else map[]
  }

  /** The microphone's fields other than `isEnabled` that `s` sets. */
  function MicrophoneOthers(s: ClientSettingsUpdate): map<string, Setting>
  {
    if s.inputs.Set? && s.inputs.v.microphone.Set? then s.inputs.v.microphone.v.others else map[]
  }

  /** What the merge promises of its result `r`, field by field: `publishing` is passed through;
      inputs, camera and microphone are all set; the two `isEnabled` fields hold the requested
      values; and every other field at every level is what `s` had there (unset where `s` had no
      such sub-structure). */
  ghost predicate IsMergeOf(r: ClientSettingsUpdate, s: ClientSettingsUpdate, enableCam: bool, enableMic: bool)
  {
    && r.publishing == s.publishing
    && r.inputs.Set?
    && r.inputs.v.others == InputOthers(s)
    && r.inputs.v.camera.Set?
    && r.inputs.v.camera.v.isEnabled == Set(enableCam)
    && r.inputs.v.camera.v.others == CameraOthers(s)
    && r.inputs.v.microphone.Set?
    && r.inputs.v.microphone.v.isEnabled == Set(enableMic)
    && r.inputs.v.microphone.v.others == MicrophoneOthers(s)
  }

  /** The merge as a value: an unset inputs, camera or microphone reads as an update that sets
      nothing, and the two `isEnabled` fields are then overwritten. */
  function Merged(s: ClientSettingsUpdate, enableCam: bool, enableMic: bool): (r: ClientSettingsUpdate)
    ensures IsMergeOf(r, s, enableCam, enableMic)
  {
    var inputs := s.inputs.OrElse(NewInputSettings(Unset, Unset));
    var camera := inputs.camera.OrElse(NewCameraSettings(Unset));
    var microphone := inputs.microphone.OrElse(NewMicrophoneSettings(Unset));
    s.(inputs := Set(inputs.(camera := Set(camera.(isEnabled := Set(enableCam))),
                             microphone := Set(microphone.(isEnabled := Set(enableMic))))))
  }

  /** The merge as the extension performs it, on local copies of the value types. */
  method MergingCameraAndMicrophoneSettings(self: ClientSettingsUpdate, enableCam: bool, enableMic: bool)
    returns (merged: ClientSettingsUpdate)
    ensures merged == Merged(self, enableCam, enableMic)
  {
    var mergedInputs := self.inputs;

    match mergedInputs {
      case Set(inputSettings) =>
        match inputSettings.camera {
          case Set(cameraSettings) =>
            cameraSettings := cameraSettings.(isEnabled := Set(enableCam));
            inputSettings := inputSettings.(camera := Set(cameraSettings));
          case Unset =>
            inputSettings := inputSettings.(camera := Set(NewCameraSettings(Set(enableCam))));
        }

        match inputSettings.microphone {
          case Set(micSettings) =>
            micSettings := micSettings.(isEnabled := Set(enableMic));
            inputSettings := inputSettings.(microphone := Set(micSettings));
          case Unset =>
            inputSettings := inputSettings.(microphone := Set(NewMicrophoneSettings(Set(enableMic))));
        }

        mergedInputs := Set(inputSettings);
      case Unset =>
        mergedInputs := Set(NewInputSettings(
          Set(NewCameraSettings(Set(enableCam))),
          Set(NewMicrophoneSettings(Set(enableMic)))));
    }

    merged := ClientSettingsUpdate(mergedInputs, self.publishing);
  }

  /** `IsMergeOf` pins the result down: the merge is the only update with those fields. */
  lemma MergeOfIsUnique(r: ClientSettingsUpdate, s: ClientSettingsUpdate, enableCam: bool, enableMic: bool)
    ensures IsMergeOf(r, s, enableCam, enableMic) <==> r == Merged(s, enableCam, enableMic)
  {
  }

  /** When `s` already set camera (or microphone) settings, only their `isEnabled` changes. */
  lemma MergeOverwritesOnlyIsEnabled(s: ClientSettingsUpdate, enableCam: bool, enableMic: bool)
    requires s.inputs.Set?
    ensures s.inputs.v.camera.Set? ==>
      Merged(s, enableCam, enableMic).inputs.v.camera == Set(s.inputs.v.camera.v.(isEnabled := Set(enableCam)))
    ensures s.inputs.v.microphone.Set? ==>
      Merged(s, enableCam, enableMic).inputs.v.microphone == Set(s.inputs.v.microphone.v.(isEnabled := Set(enableMic)))
  {
  }

  /** With no inputs in `s`, the merge builds them fresh, populating only the two `isEnabled` fields. */
  lemma MergeBuildsMissingInputs(s: ClientSettingsUpdate, enableCam: bool, enableMic: bool)
    requires s.inputs.Unset?
    ensures Merged(s, enableCam, enableMic) ==
      ClientSettingsUpdate(
        Set(NewInputSettings(Set(NewCameraSettings(Set(enableCam))),
                             Set(NewMicrophoneSettings(Set(enableMic))))),
        s.publishing)
  {
  }

  /** Merging a second time with other flags is merging once with the later flags. */
  lemma MergeLastWins(s: ClientSettingsUpdate, cam1: bool, mic1: bool, cam2: bool, mic2: bool)
    ensures Merged(Merged(s, cam1, mic1), cam2, mic2) == Merged(s, cam2, mic2)
  {
  }

  /** The merge is idempotent. */
  lemma MergeIdempotent(s: ClientSettingsUpdate, enableCam: bool, enableMic: bool)
    ensures Merged(Merged(s, enableCam, enableMic), enableCam, enableMic) == Merged(s, enableCam, enableMic)
  {
    MergeLastWins(s, enableCam, enableMic, enableCam, enableMic);
  }
}
