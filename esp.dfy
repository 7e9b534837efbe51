/**
  C integer widths, ESP-IDF error codes and the records of foreign calls
  shared by the audio modules.
 */
module Esp {

  /** A C `int` on the ESP32 (32-bit two's complement); `esp_err_t` is one. */
  type Int32 = x: int | -0x8000_0000 <= x < 0x8000_0000

  /** A C `uint32_t`. */
  type UInt32 = x: int | 0 <= x < 0x1_0000_0000

  type EspErr = Int32

  const ESP_OK: EspErr := 0
  const ESP_FAIL: EspErr := -1
  const ESP_ERR_INVALID_ARG: EspErr := 0x102

  datatype Option<+T> = None | Some(value: T)

  /**
    A call into code outside the model, recorded in the order it is made:
    the C library's `fopen`/`fclose`, the audio player's `audio_player_play`
    (which receives the opened file) and the application's `play_audio_file`.
   */
  datatype FileCall =
    | FOpen(path: string)
    | FClose(path: string)
    | PlayerPlay(path: string)
    | PlayAudioFile(path: string)
}
