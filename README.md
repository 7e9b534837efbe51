# Knob panel audio core, modelled in Dafny

The knob panel firmware (ESP32, LVGL, FreeRTOS) speaks the light's
brightness through a codec. This project models the firmware's own logic
behind that feature and proves properties of it:

- **Asset resolution** (`audio_handle_info`) in both revisions of
  `app_audio.c`. The current revision (`main/`) maps the five
  `SOUND_TYPE_BRIGHTNESS_<n>` values to `<mount>/brightness_<n>.mp3` and
  refuses every other value with `ESP_FAIL`. The earlier revision (`src/main/`)
  plays the same five recordings for the five original sound types (KNOB →
  100, SNORE → 75, WASH_END_CN → 50, WASH_END_EN → 25, FACTORY → 0). It
  refuses the brightness values, and any value outside the enumeration,
  with `ESP_ERR_INVALID_ARG`. After resolution the file is opened and
  given to the audio player. The current revision closes it afterwards;
  the earlier one leaves it to the player.
- **Codec sink** (`bsp_audio_reconfig_clk`, `bsp_audio_write`,
  `app_audio_write`). The playback handle is a `Codec` object in state
  `Closed` or `Opened(format)`. Reconfiguring always closes, then opens
  with the new format only if the close succeeded. A write reports either
  the whole length or zero bytes. The driver's answers are parameters.
- **Brightness announcer** (`main/voice_announcement.c`). An `Announcer`
  object holds `current_brightness` and the single event bit.
  `update_brightness` sets the bit only when the value changes. One pass
  of the announcement task consumes and clears the bit, then formats
  `/spiffs/brightness_<current>.mp3`. It plays that file only if `fopen`
  finds it.

Modules: `Esp` (C integer widths, `esp_err_t` codes, records of foreign
calls), `Decimal` (what `%d` prints, with a parser that inverts it),
`SoundTypes`, `AppAudio`, `LegacyAppAudio`, `CodecSink`, `VoiceAnnouncement`.

Everything outside the model is a parameter: whether `fopen` finds the
file, the results of `audio_player_play` and `play_audio_file`, and the
results of `esp_codec_dev_close`/`_open`/`_write`. The file operations
record the foreign calls they make, in order, and the codec records its
`esp_codec_dev_close`/`_open` calls; writes are not recorded.

The firmware has no debounce window and no priority among several bits.
`bsp_audio_reconfig_clk` closes and reopens even when the format is
unchanged, and `bsp_audio_write` does not check that the device is open.

## Model

| member | source | states |
|---|---|---|
| `SoundTypes.Decode` | main/app_audio.h:6-17 | an `int` decodes to a sound type exactly when it is 0..9, and to the enumerator with that value |
| `SoundTypes.DecodeOrdinal` | main/app_audio.h:6-17 | each enumerator's value decodes back to that enumerator |
| `Decimal.NatToDecimal` | main/voice_announcement.c:40 | `%d` of a non-negative value is a non-empty string of digits with no leading zero |
| `Decimal.IntToDecimal` | main/voice_announcement.c:40 | `%d` of an `int` is well-formed decimal and starts with '-' exactly for negative values |
| `Decimal.NatToDecimalRoundTrip` | main/voice_announcement.c:40 | reading the printed digits back gives the printed value |
| `Decimal.IntToDecimalRoundTrip` | main/voice_announcement.c:40 | parsing what `%d` printed gives back the `int` |
| `Decimal.IntToDecimalInjective` | main/voice_announcement.c:40 | distinct integers print differently |
| `Decimal.NatToDecimalLength` | main/voice_announcement.c:40 | for k ≥ 1, a value below 10^k prints in at most k digits |
| `Decimal.Int32DecimalLength` | main/voice_announcement.c:39-40 | any 32-bit `int` prints in at most 11 characters |
| `AppAudio.Resolve` | main/app_audio.c:51-74 | a path results exactly for the five brightness types, and it is `<mount>/brightness_<n>.mp3` for that level; the path plus NUL fits the 50-byte buffer when the mount point has at most 30 characters; every other value, outside the enumeration too, is refused with ESP_FAIL |
| `AppAudio.HandleInfo` | main/app_audio.c:49-86 | a refused type returns ESP_FAIL and makes no call; otherwise the file is opened first; if `fopen` fails the result is ESP_FAIL and the player is never called; if it succeeds the calls are exactly `fopen`, `audio_player_play` and `fclose` on that path, in that order, and the result is the player's; ESP_OK only when the player ran and returned ESP_OK |
| `AppAudio.BrightnessAssetInjective` | main/app_audio.c:55-70 | two brightness levels that name the same asset under one mount point are equal |
| `AppAudio.BrightnessPathsDistinct` | main/app_audio.c:55-70 | the five brightness paths are pairwise distinct |
| `LegacyAppAudio.RecordingLevel` | src/main/app_audio.c:55-69 | the recording level used for each original sound type is a brightness of at most 100 |
| `LegacyAppAudio.CurrentEquivalent` | src/main/app_audio.c:55-69 | each original sound type has a brightness type of the current revision naming the same recording |
| `LegacyAppAudio.Resolve` | src/main/app_audio.c:49-86 | a path results exactly for KNOB, SNORE, WASH_END_CN, WASH_END_EN and FACTORY, and it is `<mount>/brightness_<100/75/50/25/0>.mp3`; it fits the 30-byte buffer when the mount point has at most 10 characters; the brightness types and out-of-range values are refused with ESP_ERR_INVALID_ARG |
| `LegacyAppAudio.HandleInfo` | src/main/app_audio.c:49-96 | a refused type returns ESP_ERR_INVALID_ARG and opens nothing; a failed `fopen` gives ESP_FAIL without calling the player; otherwise the calls are exactly `fopen` and `audio_player_play` on that path and the result is the player's; this revision never calls `fclose` |
| `LegacyAppAudio.ResolveIsRelabelling` | src/main/app_audio.c:54-69 | each original sound type resolves to exactly the path of its brightness equivalent in the current revision |
| `LegacyAppAudio.RevisionsPartitionSoundTypes` | src/main/app_audio.c:54-86 | within the enumeration each value is accepted by exactly one revision; outside it the earlier revision refuses with ESP_ERR_INVALID_ARG and the current one with ESP_FAIL |
| `LegacyAppAudio.PathsDistinct` | src/main/app_audio.c:55-69 | the five paths this revision resolves are pairwise distinct, so different sound types never play the same recording |
| `CodecSink.Reconfigured` | main/app_audio.c:120-141 | close is always the first driver call; a failed close is returned as is, and open is not attempted and the state is unchanged; after a successful close the result is open's with the new format; the device ends open with that format exactly when the result is ESP_OK, and closed otherwise; same-format requests are not skipped (src/main/app_audio.c:130-151 is identical) |
| `CodecSink.ReconfigKeepsCloseBeforeOpen` | main/app_audio.c:130-136 | appending one reconfiguration's driver calls to a log in which every open follows a close keeps that property |
| `CodecSink.RunKeepsCloseBeforeOpen` | main/app_audio.c:130-140 | for any sequence of reconfigurations and any driver answers, every open on the handle comes straight after a close |
| `CodecSink.OpenedOnlyBySuccess` | main/app_audio.c:130-140 | after any run the device is open with a format only if it began so or some attempt for that format had both its close and its open succeed |
| `CodecSink.ReopenFailureLeavesClosed` | main/app_audio.c:136-140 | a reopen that fails after a successful close leaves the device closed, even when the format was unchanged |
| `CodecSink.Codec.constructor` | main/app_audio.c:150-154 | the handle starts closed with an empty driver-call log |
| `CodecSink.Codec.ReconfigClk` | main/app_audio.c:120-141 | the method's return value, new state and appended driver calls are those of `Reconfigured`, and it keeps the close-before-open log invariant |
| `CodecSink.Codec.BspWrite` | main/app_audio.c:143-148 | returns the driver's result; `bytes_written` is the whole length on ESP_OK and 0 otherwise; the timeout is unused (src/main/app_audio.c:153-158 is identical) |
| `CodecSink.Codec.AppWrite` | main/app_audio.c:37-47 | returns ESP_OK exactly when the driver write succeeded and ESP_FAIL for any driver error; all-or-nothing `bytes_written`; the caller's timeout has no effect (src/main/app_audio.c:37-47 is identical) |
| `VoiceAnnouncement.Updated` | main/voice_announcement.c:22-28 | afterwards the stored value is the argument; the bit is raised exactly when the argument differs from the stored value (or it was already set); a repeated value changes nothing |
| `VoiceAnnouncement.Raised` | main/voice_announcement.c:26 | setting the change bit sets it and leaves the value alone |
| `VoiceAnnouncement.RaiseIdempotent` | main/voice_announcement.c:26 | setting the bit twice is the same as setting it once |
| `VoiceAnnouncement.Consumed` | main/voice_announcement.c:34 | a wake-up reports the bit and clears it, keeping the value |
| `VoiceAnnouncement.ChangesInCons` | main/voice_announcement.c:22-28 | a burst changes the value exactly when its first call does or the rest of it does |
| `VoiceAnnouncement.BurstCoalesces` | main/voice_announcement.c:22-28 | after any burst of updates the single bit is set exactly when it was already set or some update changed the value, however many did, and the stored value is the last one passed |
| `VoiceAnnouncement.AnnouncePath` | main/voice_announcement.c:39-40 | the path is "/spiffs/brightness_", the `%d` rendering of the brightness value and ".mp3"; the numeral has no leading zero (and is not "-0") and parses back to the value |
| `VoiceAnnouncement.AnnouncePathFits` | main/voice_announcement.c:39-40 | the announced path has at most 34 characters for any 32-bit value, so it fits the 50-byte buffer with its NUL |
| `VoiceAnnouncement.AnnouncePathInjective` | main/voice_announcement.c:39-40 | different brightness values are announced from different files |
| `VoiceAnnouncement.AnnouncePathMatchesAsset` | main/voice_announcement.c:40 | for the five brightness levels the announcer's path is the one the current `audio_handle_info` resolves under "/spiffs" |
| `VoiceAnnouncement.Iterate` | main/voice_announcement.c:31-61 | with the bit clear nothing happens; otherwise the bit is cleared and the path is built from the current value; the calls are `fopen`, `fclose`, `play_audio_file` on that path when the file is found and `fopen` alone otherwise; playback happens exactly when the file was found, and only then the 100 ms delay; the playback result does not change the value or the bit |
| `VoiceAnnouncement.LatestValueAnnouncedOnce` | main/voice_announcement.c:31-40 | after a burst that starts with the bit clear, the next pass wakes and builds the path of the last value exactly when some update changed it; it plays only if the file is found; the following pass blocks |
| `VoiceAnnouncement.RepeatedThenChangedBurst` | main/voice_announcement.c:22-40 | updates 50, 50, 50, 75 from start-up give one announcement, for 75 |
| `VoiceAnnouncement.RevertedBurstStillAnnounces` | main/voice_announcement.c:22-40 | updates 50, 0 from start-up still raise the bit, so 0 is announced although the value ends where it began |
| `VoiceAnnouncement.Announcer.constructor` | main/voice_announcement.c:19 | the stored brightness starts at 0 with the bit clear, so a first `update_brightness(0)` raises nothing |
| `VoiceAnnouncement.Announcer.Raise` | main/voice_announcement.c:26 | the object's state becomes `Raised` of the old state |
| `VoiceAnnouncement.Announcer.UpdateBrightness` | main/voice_announcement.c:22-28 | the object's state becomes `Updated` of the old state |
| `VoiceAnnouncement.Announcer.WaitBits` | main/voice_announcement.c:34 | returns the bit and leaves the object as `Consumed` says |
| `VoiceAnnouncement.Announcer.TaskIteration` | main/voice_announcement.c:31-61 | the step, driver calls, delay and new state are those of `Iterate` on the old state |

## Left out

- `app_main.c` is not part of this model: NVS, SPIFFS mounting and listing, display start, task creation and the compiled-out memory monitor are board and RTOS plumbing.
- `ui_light_2color.c` builds LVGL widgets only. Its own event group is never set or read.
- `audio_play_start` and `bsp_codec_init` only register callbacks with the audio player and create the codec handle. `app_mute_function` always returns ESP_OK, `audio_callback` only logs, and `audio_force_quite` forwards to `audio_player_stop`.
- `voice_announcement_init` only creates the event group and the task.
- `play_audio_file` is declared in `main/app_audio.h` but is not part of this model. Its result is a parameter.
- The behaviour of `fopen`, `fclose`, `audio_player_play` and the `esp_codec_dev_*` driver is outside the model. The model does not say what the driver does when asked to write to a closed device.
- Concurrency and timing are not modelled. The model leaves out real blocking in `xEventGroupWaitBits` and the length of the 100 ms delay; it records only whether the delay is taken. It also leaves out the unsynchronised sharing of `current_brightness` between the lighting task and the announcement task. Producer calls and task passes are modelled one at a time, in some order.
- `CodecSink.Codec.BspWrite` and `CodecSink.Codec.AppWrite` do not record the `esp_codec_dev_write` call in `Codec.calls`. The call log serves the close-before-open property only, and a write does not change the device state.
- Logging is left out. In the task, the playback result only selects a log message.
- `AppAudio.Resolve` and `LegacyAppAudio.Resolve` do not model `sprintf` overflowing `filepath`. They require a mount point short enough that no overflow happens. `CONFIG_BSP_SPIFFS_MOUNT_POINT` is a build-time constant ("/spiffs").
- `AppAudio.Resolve` and `LegacyAppAudio.Resolve` treat the mount point as a string without NUL characters, as a C string is.
