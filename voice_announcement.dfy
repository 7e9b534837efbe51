/**
  The brightness announcer of main/voice_announcement.c. The lighting code
  calls `update_brightness`, which stores the value in `current_brightness`
  and, only when it differs from the stored one, sets the single event bit
  EVENT_BIT_BRIGHTNESS_CHANGED. The announcement task waits for that bit,
  clears it on wake-up, and plays `/spiffs/brightness_<current>.mp3` if the
  file exists.

  The producer and the consumer are modelled one call at a time on an
  `Announcer` object that holds both the stored value and the bit.
 */
module VoiceAnnouncement {
  import opened Esp
  import opened Decimal
  import opened SoundTypes
  import AppAudio

  /** Size of `char filepath[50]` in voice_announcement_task. */
  const FilePathSize: nat := 50

  const SpiffsMount: string := "/spiffs"

  /** `current_brightness` together with the event bit. */
  datatype Signal = Signal(current: Int32, changed: bool)

  /** `static int current_brightness = 0`, and a freshly created event group. */
  const Initial: Signal := Signal(0, false)

  /** The effect of update_brightness(b). */
  function Updated(s: Signal, b: Int32): (t: Signal)
    ensures t.current == b
    ensures t.changed == (s.changed || b != s.current)
    ensures b == s.current ==> t == s
  {
    if b != s.current then Signal(b, true) else s
  }

  /** xEventGroupSetBits on the change bit. */
  function Raised(s: Signal): (t: Signal)
    ensures t.changed && t.current == s.current
  {
    s.(changed := true)
  }

  /** Setting the bit twice is setting it once. */
  lemma RaiseIdempotent(s: Signal)
    ensures Raised(Raised(s)) == Raised(s)
  {
  }

  /**
    A wake-up of xEventGroupWaitBits with clear-on-exit: whether the bit was
    set, and the state with the bit cleared.
   */
  function Consumed(s: Signal): (r: (bool, Signal))
    ensures r.0 == s.changed
    ensures r.1 == Signal(s.current, false)
  {
    (s.changed, s.(changed := false))
  }

  /** A burst of update_brightness calls, in order, with no wake-up in between. */
  function Burst(s: Signal, bs: seq<Int32>): Signal
    decreases |bs|
  {
    if bs == [] then s else Burst(Updated(s, bs[0]), bs[1..])
  }

  /** The value stored just before the `i`-th call of a burst that starts from `c`. */
  function Before(c: Int32, bs: seq<Int32>, i: nat): Int32
    requires i < |bs|
  {
    if i == 0 then c else bs[i - 1]
  }

  /** Some call of the burst passes a value different from the one stored at that moment. */
  ghost predicate ChangesIn(c: Int32, bs: seq<Int32>) {
    exists i :: 0 <= i < |bs| && bs[i] != Before(c, bs, i)
  }

  lemma ChangesInCons(c: Int32, bs: seq<Int32>)
    requires bs != []
    ensures ChangesIn(c, bs) <==> bs[0] != c || ChangesIn(bs[0], bs[1..])
  {
  }

  /**
    Coalescing: after any burst the bit is set exactly when it was already
    set or some call changed the value, however many calls changed it, and
    the stored value is the last one passed.
   */
  lemma {:induction false} BurstCoalesces(s: Signal, bs: seq<Int32>)
    ensures Burst(s, bs).changed == (s.changed || ChangesIn(s.current, bs))
    ensures Burst(s, bs).current == if bs == [] then s.current else bs[|bs| - 1]
    decreases |bs|
  {
    if bs != [] {
      BurstCoalesces(Updated(s, bs[0]), bs[1..]);
      ChangesInCons(s.current, bs);
    }
  }

  /**
    What `sprintf(filepath, "/spiffs/brightness_%d.mp3", current_brightness)`
    writes: the numeral is the `%d` rendering, with no leading zero and no "-0".
   */
  function AnnouncePath(b: Int32): (p: string)
    ensures |p| > 23 && p[..19] == "/spiffs/brightness_" && p[|p| - 4..] == ".mp3"
    ensures IsDecimal(p[19..|p| - 4]) && ParseInt(p[19..|p| - 4]) == b
    ensures p[19..|p| - 4] == IntToDecimal(b)
    ensures |p| > 24 ==> p[19] != '0' && (p[19] == '-' ==> p[20] != '0')
  {
    IntToDecimalRoundTrip(b);
    var d := IntToDecimal(b);
    var p := SpiffsMount + "/brightness_" + d + ".mp3";
    assert p[19..|p| - 4] == d;
    p
  }

  /** The path fits `filepath` with its NUL for every C `int`: at most 34 characters. */
  lemma AnnouncePathFits(b: Int32)
    ensures |AnnouncePath(b)| <= 34 && |AnnouncePath(b)| + 1 <= FilePathSize
  {
    Int32DecimalLength(b);
  }

  /** Different brightness values are announced from different files. */
  lemma AnnouncePathInjective(a: Int32, b: Int32)
    requires AnnouncePath(a) == AnnouncePath(b)
    ensures a == b
  {
    var s := AnnouncePath(a);
    var lo := |SpiffsMount + "/brightness_"|;
    assert |IntToDecimal(a)| == |IntToDecimal(b)|;
    assert s[lo..|s| - 4] == IntToDecimal(a) && s[lo..|s| - 4] == IntToDecimal(b);
    IntToDecimalInjective(a, b);
  }

  /**
    The announcer looks for the same file that audio_handle_info plays for
    the matching SOUND_TYPE_BRIGHTNESS_<n> when SPIFFS is mounted at "/spiffs".
   */
  lemma AnnouncePathMatchesAsset(t: SoundType)
    requires IsBrightness(t)
    ensures AppAudio.Resolve(SpiffsMount, Ordinal(t)) == AppAudio.Path(AnnouncePath(Level(t)))
  {
  }

  /** Where one iteration of voice_announcement_task ended. */
  datatype Step =
    | Blocked                              // still waiting for the bit
    | Missing(path: string)                // `fopen` failed: `continue`, no delay
    | Announced(path: string, ret: EspErr) // play_audio_file returned `ret`

  datatype Iteration = Iteration(step: Step, calls: seq<FileCall>, delayed: bool, after: Signal)

  predicate PlaybackCalled(calls: seq<FileCall>) {
    exists i :: 0 <= i < |calls| && calls[i].PlayAudioFile?
  }

  /**
    One pass of the task's loop. `found` is whether `fopen` found the file
    and `played` what play_audio_file returned.
   */
  function Iterate(s: Signal, found: bool, played: EspErr): (it: Iteration)
    ensures !s.changed ==> it == Iteration(Blocked, [], false, s)
    ensures s.changed ==> it.after == Signal(s.current, false)
    ensures s.changed ==> !it.step.Blocked? && it.step.path == AnnouncePath(s.current)
    ensures s.changed ==>
      var p := AnnouncePath(s.current);
      it.calls == if found then [FOpen(p), FClose(p), PlayAudioFile(p)] else [FOpen(p)]
    ensures it.step.Announced? <==> s.changed && found
    ensures it.step.Announced? ==> it.step.ret == played
    ensures PlaybackCalled(it.calls) <==> it.step.Announced?
    ensures it.delayed <==> it.step.Announced?
  {
    var (woke, t) := Consumed(s);
    if !woke then Iteration(Blocked, [], false, s)
    else
      var p := AnnouncePath(t.current);
      if !found then Iteration(Missing(p), [FOpen(p)], false, t)
      else
        var calls := [FOpen(p), FClose(p), PlayAudioFile(p)];
        assert calls[2].PlayAudioFile?;
        Iteration(Announced(p, played), calls, true, t)
  }

  /**
    After a burst of updates that starts with the bit clear, the next pass
    wakes exactly when some update changed the value, and then builds the
    path of the last value (it plays only if the file is found); the pass
    after it, with no update in between, blocks.
   */
  lemma LatestValueAnnouncedOnce(s: Signal, bs: seq<Int32>, found: bool, played: EspErr, found2: bool, played2: EspErr)
    requires !s.changed
    ensures var first := Iterate(Burst(s, bs), found, played);
      && (first.step.Blocked? <==> !ChangesIn(s.current, bs))
      && (!first.step.Blocked? ==> first.step.path == AnnouncePath(bs[|bs| - 1]))
      && Iterate(first.after, found2, played2).step.Blocked?
  {
    BurstCoalesces(s, bs);
  }

  /** Updates [50, 50, 50, 75] from start-up: one announcement, for 75. */
  lemma RepeatedThenChangedBurst(found: bool, played: EspErr)
    ensures var first := Iterate(Burst(Initial, [50, 50, 50, 75]), true, played);
      first.step == Announced(AnnouncePath(75), played)
      && Iterate(first.after, found, played).step.Blocked?
  {
  }

  /**
    Updates [50, 0] from start-up: the bit is set although the value is back
    where it started, so 0 is announced; the task sees only the latest value.
   */
  lemma RevertedBurstStillAnnounces(played: EspErr)
    ensures Iterate(Burst(Initial, [50, 0]), true, played).step == Announced(AnnouncePath(0), played)
  {
  }

  class Announcer {
    var currentBrightness: Int32
    var changed: bool

    function State(): Signal
      reads this
    {
      Signal(currentBrightness, changed)
    }

    constructor ()
      ensures State() == Initial
    {
      currentBrightness := 0;
      changed := false;
    }

    /** xEventGroupSetBits(event_group, EVENT_BIT_BRIGHTNESS_CHANGED). */
    method Raise()
      modifies this
      ensures State() == Raised(old(State()))
    {
      changed := true;
    }

    /** update_brightness(brightness). */
    method UpdateBrightness(brightness: Int32)
      modifies this
      ensures State() == Updated(old(State()), brightness)
    {
      if brightness != currentBrightness {
        currentBrightness := brightness;
        Raise();
      }
    }

    /** xEventGroupWaitBits(…, pdTRUE, …): report the bit and clear it. */
    method WaitBits() returns (woke: bool)
      modifies this
      ensures (woke, State()) == Consumed(old(State()))
    {
      woke := changed;
      changed := false;
    }

    /** One pass of voice_announcement_task's `while (1)` loop. */
    method TaskIteration(found: bool, played: EspErr) returns (step: Step, calls: seq<FileCall>, delayed: bool)
      modifies this
      ensures Iteration(step, calls, delayed, State()) == Iterate(old(State()), found, played)
    {
      calls, delayed := [], false;
      var woke := WaitBits();
      if !woke {
        step := Blocked;
        return;
      }
      var filepath := AnnouncePath(currentBrightness);
      calls := calls + [FOpen(filepath)];
      if !found {
        step := Missing(filepath);
        return;
      }
      calls := calls + [FClose(filepath)];
      var ret := played;
      calls := calls + [PlayAudioFile(filepath)];
      step := Announced(filepath, ret);
      delayed := true;
    }
  }
}
