/**
  The playback codec as the audio player drives it through the callbacks
  `bsp_audio_reconfig_clk` (clock/format change) and `app_audio_write`
  (PCM output). Both revisions of app_audio.c define these identically.

  The device handle `play_dev_handle` is a `Codec` object whose state is
  `Closed` or `Opened(format)`. What `esp_codec_dev_close`, `_open` and
  `_write` return is decided by the hardware driver, so each method takes
  those results as parameters. The ghost field `calls` records the driver
  calls made on the handle, in order.
 */
module CodecSink {
  import opened Esp

  /** `i2s_slot_mode_t`. */
  datatype SlotMode = Mono | Stereo

  /** The `esp_codec_dev_sample_info_t` bsp_audio_reconfig_clk fills in. */
  datatype Format = Format(rate: UInt32, bits: UInt32, ch: SlotMode)

  datatype DevState = Closed | Opened(fmt: Format)

  /** A driver call on the playback handle. */
  datatype DevCall = Close | Open(fmt: Format)

  /** One reconfiguration: its return value, the state it leaves and the calls it made. */
  datatype Reconfig = Reconfig(ret: EspErr, after: DevState, calls: seq<DevCall>)

  /** A reconfiguration request together with the driver's answers to it. */
  datatype Attempt = Attempt(fmt: Format, closeRes: EspErr, openRes: EspErr)

  /**
    Effect of bsp_audio_reconfig_clk on a device in state `s`: close, and
    only if the close succeeded, open with the new format. A failed close
    leaves the device as it was; a failed open leaves it closed. There is no
    shortcut when `s` already has the requested format.
   */
  function Reconfigured(s: DevState, fmt: Format, closeRes: EspErr, openRes: EspErr): (r: Reconfig)
    ensures |r.calls| >= 1 && r.calls[0] == Close
    ensures closeRes != ESP_OK ==> r.ret == closeRes && r.after == s && r.calls == [Close]
    ensures closeRes == ESP_OK ==> r.ret == openRes && r.calls == [Close, Open(fmt)]
    ensures closeRes == ESP_OK ==> (r.after == Opened(fmt) <==> r.ret == ESP_OK)
    ensures closeRes == ESP_OK && r.ret != ESP_OK ==> r.after == Closed
    ensures r.ret == ESP_OK ==> r.after == Opened(fmt)
  {
    if closeRes != ESP_OK then Reconfig(closeRes, s, [Close])
    else if openRes == ESP_OK then Reconfig(ESP_OK, Opened(fmt), [Close, Open(fmt)])
    else Reconfig(openRes, Closed, [Close, Open(fmt)])
  }

  /** Every open on the handle comes straight after a close. */
  ghost predicate CloseBeforeOpen(calls: seq<DevCall>) {
    forall i :: 0 <= i < |calls| && calls[i].Open? ==> i > 0 && calls[i - 1] == Close
  }

  lemma ReconfigKeepsCloseBeforeOpen(calls: seq<DevCall>, s: DevState, fmt: Format, closeRes: EspErr, openRes: EspErr)
    requires CloseBeforeOpen(calls)
    ensures CloseBeforeOpen(calls + Reconfigured(s, fmt, closeRes, openRes).calls)
  {
  }

  /** A run of reconfigurations: the final return value, state and call log. */
  function Run(s: DevState, attempts: seq<Attempt>): (r: Reconfig)
    ensures attempts == [] ==> r == Reconfig(ESP_OK, s, [])
    decreases |attempts|
  {
    if attempts == [] then Reconfig(ESP_OK, s, [])
    else
      var a := attempts[0];
      var first := Reconfigured(s, a.fmt, a.closeRes, a.openRes);
      var rest := Run(first.after, attempts[1..]);
      Reconfig(if |attempts| == 1 then first.ret else rest.ret, rest.after, first.calls + rest.calls)
  }

  /** However the driver answers, a run of reconfigurations never opens without closing first. */
  lemma {:induction false} RunKeepsCloseBeforeOpen(calls: seq<DevCall>, s: DevState, attempts: seq<Attempt>)
    requires CloseBeforeOpen(calls)
    ensures CloseBeforeOpen(calls + Run(s, attempts).calls)
    decreases |attempts|
  {
    if attempts != [] {
      var a := attempts[0];
      var first := Reconfigured(s, a.fmt, a.closeRes, a.openRes);
      ReconfigKeepsCloseBeforeOpen(calls, s, a.fmt, a.closeRes, a.openRes);
      RunKeepsCloseBeforeOpen(calls + first.calls, first.after, attempts[1..]);
      assert calls + Run(s, attempts).calls == (calls + first.calls) + Run(first.after, attempts[1..]).calls;
    }
  }

  /**
    After a run the device is open with format `f` only if it started that
    way or some attempt for `f` had both its close and its open succeed.
   */
  lemma {:induction false} OpenedOnlyBySuccess(s: DevState, attempts: seq<Attempt>, f: Format)
    requires Run(s, attempts).after == Opened(f)
    ensures s == Opened(f) || exists i :: 0 <= i < |attempts| && attempts[i] == Attempt(f, ESP_OK, ESP_OK)
    decreases |attempts|
  {
    if attempts != [] {
      var a := attempts[0];
      var first := Reconfigured(s, a.fmt, a.closeRes, a.openRes);
      OpenedOnlyBySuccess(first.after, attempts[1..], f);
      if first.after == Opened(f) {
        if s != Opened(f) {
          assert attempts[0] == Attempt(f, ESP_OK, ESP_OK);
        }
      } else {
        var i :| 0 <= i < |attempts| - 1 && attempts[1..][i] == Attempt(f, ESP_OK, ESP_OK);
        assert attempts[i + 1] == Attempt(f, ESP_OK, ESP_OK);
      }
    }
  }

  /**
    The scenario where the reopen fails after a successful close: the
    device is left closed even if it was open with the same format before.
   */
  lemma ReopenFailureLeavesClosed(fmt: Format, openRes: EspErr)
    requires openRes != ESP_OK
    ensures Reconfigured(Opened(fmt), fmt, ESP_OK, openRes) == Reconfig(openRes, Closed, [Close, Open(fmt)])
  {
  }

  class Codec {
    var state: DevState
    ghost var calls: seq<DevCall>

    ghost predicate Valid()
      reads this
    {
      CloseBeforeOpen(calls)
    }

    /** The handle bsp_audio_codec_speaker_init returns: created, not yet opened. */
    constructor ()
      ensures Valid() && state == Closed && calls == []
    {
      state := Closed;
      calls := [];
    }

    /** bsp_audio_reconfig_clk(rate, bits_cfg, ch). */
    method ReconfigClk(rate: UInt32, bitsCfg: UInt32, ch: SlotMode, closeRes: EspErr, openRes: EspErr)
      returns (ret: EspErr)
      requires Valid()
      modifies this
      ensures Valid()
      ensures var r := Reconfigured(old(state), Format(rate, bitsCfg, ch), closeRes, openRes);
        ret == r.ret && state == r.after && calls == old(calls) + r.calls
    {
      var fs := Format(rate, bitsCfg, ch);
      ReconfigKeepsCloseBeforeOpen(calls, state, fs, closeRes, openRes);
      ret := closeRes;
      calls := calls + [Close];
      if ret != ESP_OK {
        return;
      }
      state := Closed;
      ret := openRes;
      calls := calls + [Open(fs)];
      if ret == ESP_OK {
        state := Opened(fs);
      }
    }

    /**
      bsp_audio_write: all or nothing. `*bytes_written` is the whole length
      when the driver accepted the buffer and 0 otherwise; `timeoutMs` is
      not used.
     */
    method BspWrite(len: UInt32, timeoutMs: UInt32, devRes: EspErr) returns (ret: EspErr, bytesWritten: UInt32)
      ensures ret == devRes
      ensures ret == ESP_OK ==> bytesWritten == len
      ensures ret != ESP_OK ==> bytesWritten == 0
    {
      ret := devRes;
      bytesWritten := if ret == ESP_OK then len else 0;
    }

    /**
      app_audio_write, the player's write callback: any driver error is
      reported as ESP_FAIL, and the caller's timeout is replaced by 1000 ms,
      which the write then ignores.
     */
    method AppWrite(len: UInt32, timeoutMs: UInt32, devRes: EspErr) returns (ret: EspErr, bytesWritten: UInt32)
      ensures ret == ESP_OK || ret == ESP_FAIL
      ensures ret == ESP_OK <==> devRes == ESP_OK
      ensures ret == ESP_OK ==> bytesWritten == len
      ensures ret != ESP_OK ==> bytesWritten == 0
    {
      ret := ESP_OK;
      var written;
      written, bytesWritten := BspWrite(len, 1000, devRes);
      if written != ESP_OK {
        ret := ESP_FAIL;
      }
    }
  }
}
