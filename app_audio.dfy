/**
  `audio_handle_info` of the current revision (main/app_audio.c): the five
  `SOUND_TYPE_BRIGHTNESS_<n>` values name `<mount>/brightness_<n>.mp3`;
  every other value is refused with `ESP_FAIL`. A resolved file is opened,
  handed to the audio player and closed again.
 */
module AppAudio {
  import opened Esp
  import opened SoundTypes
  import opened Decimal

  /** Size of `char filepath[50]`. */
  const FilePathSize: nat := 50

  /**
    Longest mount point for which `sprintf` stays inside `filepath`: the
    longest suffix, "/brightness_100.mp3", has 19 characters, and the
    terminating NUL takes the fiftieth byte.
   */
  const MaxMountLength: nat := 30

  datatype Resolution = Path(path: string) | Reject(err: EspErr)

  /** What one call did: its return value and the foreign calls it made, in order. */
  datatype Handled = Handled(ret: EspErr, calls: seq<FileCall>)

  /** The asset the firmware keeps for a brightness level under a mount point. */
  function BrightnessAsset(mount: string, level: nat): string {
    mount + "/brightness_" + NatToDecimal(level) + ".mp3"
  }

  predicate PlayerCalled(calls: seq<FileCall>) {
    exists i :: 0 <= i < |calls| && calls[i].PlayerPlay?
  }

  /** The `switch` of audio_handle_info: the path `sprintf` writes, or the early return. */
  function Resolve(mount: string, voice: Int32): (r: Resolution)
    requires |mount| <= MaxMountLength
    ensures r.Path? <==> Decode(voice).Some? && IsBrightness(Decode(voice).value)
    ensures r.Path? ==> r.path == BrightnessAsset(mount, Level(Decode(voice).value))
    ensures r.Path? ==> |r.path| + 1 <= FilePathSize
    ensures r.Reject? ==> r.err == ESP_FAIL
  {
    AssetNames(mount);
    match Decode(voice)
    case Some(Brightness0) => Path(mount + "/brightness_0.mp3")
    case Some(Brightness25) => Path(mount + "/brightness_25.mp3")
    case Some(Brightness50) => Path(mount + "/brightness_50.mp3")
    case Some(Brightness75) => Path(mount + "/brightness_75.mp3")
    case Some(Brightness100) => Path(mount + "/brightness_100.mp3")
    case _ => Reject(ESP_FAIL)
  }

  /**
    The whole of audio_handle_info. `fileOpened` is whether `fopen` returned a
    file and `played` what `audio_player_play` returned; both are outcomes
    of code outside the model.
   */
  function HandleInfo(mount: string, voice: Int32, fileOpened: bool, played: EspErr): (h: Handled)
    requires |mount| <= MaxMountLength
    ensures Resolve(mount, voice).Reject? ==> h == Handled(ESP_FAIL, [])
    ensures Resolve(mount, voice).Path? ==>
      var p := Resolve(mount, voice).path;
      && |h.calls| >= 1 && h.calls[0] == FOpen(p)
      && (fileOpened ==> h.ret == played && h.calls == [FOpen(p), PlayerPlay(p), FClose(p)])
      && (!fileOpened ==> h.ret == ESP_FAIL && h.calls == [FOpen(p)])
    ensures PlayerCalled(h.calls) <==> Resolve(mount, voice).Path? && fileOpened
    ensures h.ret == ESP_OK ==> PlayerCalled(h.calls) && played == ESP_OK
  {
    match Resolve(mount, voice)
    case Reject(e) => Handled(e, [])
    case Path(p) =>
      if !fileOpened then Handled(ESP_FAIL, [FOpen(p)])
      else
        var h := Handled(played, [FOpen(p), PlayerPlay(p), FClose(p)]);
        assert h.calls[1].PlayerPlay?;
        h
  }

  /** How `%d` prints the five brightness levels. */
  lemma LevelDigits()
    ensures NatToDecimal(0) == "0" && NatToDecimal(25) == "25" && NatToDecimal(50) == "50"
    ensures NatToDecimal(75) == "75" && NatToDecimal(100) == "100"
  {
  }

  /** The five asset names as the `sprintf` formats spell them out. */
  lemma AssetNames(mount: string)
    ensures BrightnessAsset(mount, 0) == mount + "/brightness_0.mp3"
    ensures BrightnessAsset(mount, 25) == mount + "/brightness_25.mp3"
    ensures BrightnessAsset(mount, 50) == mount + "/brightness_50.mp3"
    ensures BrightnessAsset(mount, 75) == mount + "/brightness_75.mp3"
    ensures BrightnessAsset(mount, 100) == mount + "/brightness_100.mp3"
  {
    LevelDigits();
  }

  lemma {:induction false} BrightnessAssetInjective(mount: string, a: nat, b: nat)
    requires BrightnessAsset(mount, a) == BrightnessAsset(mount, b)
    ensures a == b
  {
    var s := BrightnessAsset(mount, a);
    var da, db := NatToDecimal(a), NatToDecimal(b);
    var lo := |mount| + |"/brightness_"|;
    assert |da| == |db| && s[lo..|s| - 4] == da && s[lo..|s| - 4] == db;
    NatToDecimalRoundTrip(a);
    NatToDecimalRoundTrip(b);
  }

  /** Distinct brightness sound types never share an asset path. */
  lemma BrightnessPathsDistinct(mount: string, v1: Int32, v2: Int32)
    requires |mount| <= MaxMountLength
    requires Resolve(mount, v1).Path? && Resolve(mount, v2).Path?
    requires v1 != v2
    ensures Resolve(mount, v1).path != Resolve(mount, v2).path
  {
    var t1, t2 := Decode(v1).value, Decode(v2).value;
    assert Level(t1) != Level(t2);
    if Resolve(mount, v1).path == Resolve(mount, v2).path {
      BrightnessAssetInjective(mount, Level(t1), Level(t2));
    }
  }
}
