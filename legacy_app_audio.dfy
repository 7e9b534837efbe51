/**
  `audio_handle_info` of the earlier revision (src/main/app_audio.c): the
  five original sound types are played from the brightness recordings,
  while the five `SOUND_TYPE_BRIGHTNESS_<n>` values, and any value outside
  the enumeration, are refused with `ESP_ERR_INVALID_ARG`. The opened file
  is handed to the audio player and not closed here.
 */
module LegacyAppAudio {
  import opened Esp
  import opened SoundTypes
  import AppAudio
  import Decimal

  /** Size of `char filepath[30]`. */
  const FilePathSize: nat := 30

  /**
    Longest mount point for which `sprintf("%s/%s", …)` stays inside
    `filepath`: "/" and "brightness_100.mp3" take 19 characters and the
    terminating NUL the thirtieth byte.
   */
  const MaxMountLength: nat := 10

  /** Brightness recording each original sound type is played from. */
  function RecordingLevel(t: SoundType): (n: nat)
    requires !IsBrightness(t)
    ensures n <= 100
  {
    match t
    case Knob => 100
    case Snore => 75
    case WashEndCn => 50
    case WashEndEn => 25
    case Factory => 0
  }

  /** The brightness sound type the current revision uses for the same recording. */
  function CurrentEquivalent(t: SoundType): (b: SoundType)
    requires !IsBrightness(t)
    ensures IsBrightness(b) && Level(b) == RecordingLevel(t)
  {
    match t
    case Knob => Brightness100
    case Snore => Brightness75
    case WashEndCn => Brightness50
    case WashEndEn => Brightness25
    case Factory => Brightness0
  }

  /** The `switch` of this revision's audio_handle_info. */
  function Resolve(mount: string, voice: Int32): (r: AppAudio.Resolution)
    requires |mount| <= MaxMountLength
    ensures r.Path? <==> Decode(voice).Some? && !IsBrightness(Decode(voice).value)
    ensures r.Path? ==> r.path == AppAudio.BrightnessAsset(mount, RecordingLevel(Decode(voice).value))
    ensures r.Path? ==> |r.path| + 1 <= FilePathSize
    ensures r.Reject? ==> r.err == ESP_ERR_INVALID_ARG
  {
    SplitNames(mount);
    match Decode(voice)
    case Some(Knob) => AppAudio.Path(mount + "/" + "brightness_100.mp3")
    case Some(Snore) => AppAudio.Path(mount + "/" + "brightness_75.mp3")
    case Some(WashEndCn) => AppAudio.Path(mount + "/" + "brightness_50.mp3")
    case Some(WashEndEn) => AppAudio.Path(mount + "/" + "brightness_25.mp3")
    case Some(Factory) => AppAudio.Path(mount + "/" + "brightness_0.mp3")
    case Some(_) => AppAudio.Reject(ESP_ERR_INVALID_ARG)
    case None => AppAudio.Reject(ESP_ERR_INVALID_ARG)
  }

  /** `"%s/%s"` with the mount point and `brightness_<n>.mp3` spells the asset of level n. */
  lemma JoinedName(mount: string, level: nat, name: string)
    requires name == "brightness_" + Decimal.NatToDecimal(level) + ".mp3"
    ensures mount + "/" + name == AppAudio.BrightnessAsset(mount, level)
  {
  }

  /** The `"%s/%s"` format gives the same strings as the current revision's formats. */
  lemma SplitNames(mount: string)
    ensures mount + "/" + "brightness_0.mp3" == AppAudio.BrightnessAsset(mount, 0)
    ensures mount + "/" + "brightness_25.mp3" == AppAudio.BrightnessAsset(mount, 25)
    ensures mount + "/" + "brightness_50.mp3" == AppAudio.BrightnessAsset(mount, 50)
    ensures mount + "/" + "brightness_75.mp3" == AppAudio.BrightnessAsset(mount, 75)
    ensures mount + "/" + "brightness_100.mp3" == AppAudio.BrightnessAsset(mount, 100)
  {
    AppAudio.LevelDigits();
    JoinedName(mount, 0, "brightness_0.mp3");
    JoinedName(mount, 25, "brightness_25.mp3");
    JoinedName(mount, 50, "brightness_50.mp3");
    JoinedName(mount, 75, "brightness_75.mp3");
    JoinedName(mount, 100, "brightness_100.mp3");
  }

  /**
    The whole of this revision's audio_handle_info: `fileOpened` and `played`
    are the outcomes of `fopen` and `audio_player_play`.
   */
  function HandleInfo(mount: string, voice: Int32, fileOpened: bool, played: EspErr): (h: AppAudio.Handled)
    requires |mount| <= MaxMountLength
    ensures Resolve(mount, voice).Reject? ==> h == AppAudio.Handled(ESP_ERR_INVALID_ARG, [])
    ensures Resolve(mount, voice).Path? ==>
      var p := Resolve(mount, voice).path;
      && |h.calls| >= 1 && h.calls[0] == FOpen(p)
      && (fileOpened ==> h.ret == played && h.calls == [FOpen(p), PlayerPlay(p)])
      && (!fileOpened ==> h.ret == ESP_FAIL && h.calls == [FOpen(p)])
    ensures AppAudio.PlayerCalled(h.calls) <==> Resolve(mount, voice).Path? && fileOpened
    ensures h.ret == ESP_OK ==> AppAudio.PlayerCalled(h.calls) && played == ESP_OK
    ensures forall i :: 0 <= i < |h.calls| ==> !h.calls[i].FClose?
  {
    match Resolve(mount, voice)
    case Reject(e) => AppAudio.Handled(e, [])
    case Path(p) =>
      if !fileOpened then AppAudio.Handled(ESP_FAIL, [FOpen(p)])
      else
        var h := AppAudio.Handled(played, [FOpen(p), PlayerPlay(p)]);
        assert h.calls[1].PlayerPlay?;
        h
  }

  /**
    The earlier revision is the current one with its sound types relabelled:
    each original sound type resolves exactly as its brightness equivalent
    does in the current revision.
   */
  lemma ResolveIsRelabelling(mount: string, t: SoundType)
    requires |mount| <= MaxMountLength
    requires !IsBrightness(t)
    ensures Resolve(mount, Ordinal(t)) == AppAudio.Resolve(mount, Ordinal(CurrentEquivalent(t)))
  {
  }

  /**
    Within the enumeration each value is accepted by exactly one of the two
    revisions; outside it both refuse, with different codes.
   */
  lemma RevisionsPartitionSoundTypes(mount: string, voice: Int32)
    requires |mount| <= MaxMountLength
    ensures 0 <= voice < 10 ==> (Resolve(mount, voice).Path? <==> AppAudio.Resolve(mount, voice).Reject?)
    ensures !(0 <= voice < 10) ==>
      Resolve(mount, voice) == AppAudio.Reject(ESP_ERR_INVALID_ARG)
      && AppAudio.Resolve(mount, voice) == AppAudio.Reject(ESP_FAIL)
  {
  }

  /** The five paths this revision resolves are pairwise distinct. */
  lemma PathsDistinct(mount: string, v1: Int32, v2: Int32)
    requires |mount| <= MaxMountLength
    requires Resolve(mount, v1).Path? && Resolve(mount, v2).Path?
    requires v1 != v2
    ensures Resolve(mount, v1).path != Resolve(mount, v2).path
  {
    var t1, t2 := Decode(v1).value, Decode(v2).value;
    assert RecordingLevel(t1) != RecordingLevel(t2);
    if Resolve(mount, v1).path == Resolve(mount, v2).path {
      AppAudio.BrightnessAssetInjective(mount, RecordingLevel(t1), RecordingLevel(t2));
    }
  }
}
