/** The volume-threshold voice activity detector of the client (`VoiceActivityDetector`):
    a debounced state machine over the loudness level sampled once per animation frame.
    The level itself (an RMS over analyser bins) is an input here; so is the clock. */
module VoiceActivity {
  import opened Common

  /** Tuning of the detector; timings are milliseconds. */
  datatype VadOptions = VadOptions(
    speechThreshold: real,
    silenceThreshold: real,
    silenceTimeout: int,
    minSpeechDuration: int,
    maxDuration: int)

  /** The defaults the constructor starts from. */
  const DefaultOptions := VadOptions(0.3, 0.1, 1500, 250, 60000)

  /** A `Partial<VADOptions>`: the fields a caller passes. */
  datatype VadOptionsUpdate = VadOptionsUpdate(
    speechThreshold: Option<real>,
    silenceThreshold: Option<real>,
    silenceTimeout: Option<int>,
    minSpeechDuration: Option<int>,
    maxDuration: Option<int>)

  const NoUpdate := VadOptionsUpdate(None, None, None, None, None)

  /** `{ ...o, ...u }` / `Object.assign(o, u)`: a field the caller passes replaces the
      current one, every other field is kept. */
  function MergeOptions(o: VadOptions, u: VadOptionsUpdate): (r: VadOptions)
    ensures u == NoUpdate ==> r == o
    ensures u.speechThreshold.Some? ==> r.speechThreshold == u.speechThreshold.value
    ensures u.silenceThreshold.Some? ==> r.silenceThreshold == u.silenceThreshold.value
    ensures u.silenceTimeout.Some? ==> r.silenceTimeout == u.silenceTimeout.value
    ensures u.minSpeechDuration.Some? ==> r.minSpeechDuration == u.minSpeechDuration.value
    ensures u.maxDuration.Some? ==> r.maxDuration == u.maxDuration.value
  {
    VadOptions(
      u.speechThreshold.GetOr(o.speechThreshold),
      u.silenceThreshold.GetOr(o.silenceThreshold),
      u.silenceTimeout.GetOr(o.silenceTimeout),
      u.minSpeechDuration.GetOr(o.minSpeechDuration),
      u.maxDuration.GetOr(o.maxDuration))
  }

  /** Callbacks the detector invokes, in the order it invokes them. */
  datatype VadEvent = VolumeChange(level: real) | SpeechStart | SpeechEnd

  /** The session fields `isListening`, `isSpeaking`, `speechStartTime`,
      `silenceStartTime` (both `number | null`) and `totalSpeechTime`. */
  datatype VadState = VadState(
    listening: bool,
    speaking: bool,
    speechStart: Option<int>,
    silenceStart: Option<int>,
    totalSpeechTime: int)

  /** The state `start()` establishes before its first tick. */
  const Fresh := VadState(true, false, None, None, 0)

  /** A timestamp field tested by JavaScript truthiness: `null` and `0` both read as unset. */
  predicate IsSet(t: Option<int>) {
    t.Some? && t.value != 0
  }

  /** Number of occurrences of `e` in `es`. */
  function Count(es: seq<VadEvent>, e: VadEvent): nat {
    if es == [] then 0 else (if es[0] == e then 1 else 0) + Count(es[1..], e)
  }

  /** Counting distributes over concatenation of event logs. */
  lemma {:induction false} CountAppend(a: seq<VadEvent>, b: seq<VadEvent>, e: VadEvent)
    ensures Count(a + b, e) == Count(a, e) + Count(b, e)
  {
    if a == [] {
      assert a + b == b;
    } else {
      assert (a + b)[1..] == a[1..] + b;
      CountAppend(a[1..], b, e);
    }
  }

  /** `now - (speechStartTime || now)`: time since speech started, 0 if the timer is unset. */
  function SpeechElapsed(s: VadState, now: int): int {
    now - (if IsSet(s.speechStart) then s.speechStart.value else now)
  }

  /** The condition under which a quiet tick confirms the end of speech. */
  predicate SilenceExpired(o: VadOptions, s: VadState, level: real, now: int) {
    level < o.silenceThreshold && IsSet(s.silenceStart) && now - s.silenceStart.value >= o.silenceTimeout
  }

  /** The condition under which a loud tick confirms the start of speech. */
  predicate SpeechConfirmed(o: VadOptions, s: VadState, level: real, now: int) {
    level >= o.speechThreshold && IsSet(s.speechStart) && now - s.speechStart.value >= o.minSpeechDuration
  }

  /** While speaking, the speech timer is set; one only speaks while listening. */
  predicate Consistent(s: VadState) {
    s.speaking ==> s.listening && IsSet(s.speechStart)
  }

  /** One call of `monitor()` with the sampled `level` at time `now`: the new session
      state and the callbacks fired, in order. */
  function Monitor(o: VadOptions, s: VadState, level: real, now: int): (r: (VadState, seq<VadEvent>))
    // a tick while not listening changes nothing and emits nothing
    ensures !s.listening ==> r.0 == s && r.1 == []
    // a tick while listening reports the level first, and only once
    ensures s.listening ==> r.0.listening && |r.1| >= 1 && r.1[0] == VolumeChange(level)
    ensures forall k | 1 <= k < |r.1| :: !r.1[k].VolumeChange?
    // speech start is debounced
    ensures Count(r.1, SpeechStart) == (if s.listening && !s.speaking && SpeechConfirmed(o, s, level, now) then 1 else 0)
    ensures s.listening && !s.speaking && level >= o.speechThreshold && !IsSet(s.speechStart) ==>
              r.0 == s.(speechStart := Some(now))
    ensures s.listening && !s.speaking && level < o.speechThreshold ==> r.0 == s.(speechStart := None)
    // a loud idle frame short of `minSpeechDuration` keeps the state
    ensures (s.listening && !s.speaking && level >= o.speechThreshold && IsSet(s.speechStart) &&
             !SpeechConfirmed(o, s, level, now)) ==> r.0 == s
    ensures Count(r.1, SpeechStart) > 0 ==> r.0 == s.(speaking := true, silenceStart := None)
    // speech end: after sustained silence, and at the hard cap; both can fire in one tick
    ensures Count(r.1, SpeechEnd) ==
              if s.listening && s.speaking then
                (if SilenceExpired(o, s, level, now) then 1 else 0) +
                (if SpeechElapsed(s, now) >= o.maxDuration then 1 else 0)
              else 0
    ensures s.listening && s.speaking && Count(r.1, SpeechEnd) > 0 ==>
              r.0 == s.(speaking := false, speechStart := None, silenceStart := None,
                        totalSpeechTime := SpeechElapsed(s, now))
    ensures s.listening && s.speaking && Count(r.1, SpeechEnd) == 0 ==>
              r.0 == s.(totalSpeechTime := SpeechElapsed(s, now),
                        silenceStart := if level >= o.silenceThreshold then None
                                        else if IsSet(s.silenceStart) then s.silenceStart
                                        else Some(now))
    // speaking flips exactly on the events emitted
    ensures r.0.speaking == (if Count(r.1, SpeechStart) > 0 then true
                             else if Count(r.1, SpeechEnd) > 0 then false
                             else s.speaking)
    ensures Consistent(s) ==> Consistent(r.0)
  {
    if !s.listening then (s, [])
    else
      var step := if !s.speaking then SpeechStartStep(o, s, level, now) else SpeechEndStep(o, s, level, now);
      CountAfterVolume(level, step.1);
      CountShort(step.1);
      (step.0, [VolumeChange(level)] + step.1)
  }

  /** The leading volume report is neither a speech-start nor a speech-end. */
  lemma CountAfterVolume(level: real, es: seq<VadEvent>)
    ensures Count([VolumeChange(level)] + es, SpeechStart) == Count(es, SpeechStart)
    ensures Count([VolumeChange(level)] + es, SpeechEnd) == Count(es, SpeechEnd)
  {
    assert ([VolumeChange(level)] + es)[1..] == es;
  }

  /** Counting in the logs of at most two events a branch of `monitor()` emits. */
  lemma CountShort(es: seq<VadEvent>)
    requires |es| <= 2
    ensures Count(es, SpeechStart) == (if SpeechStart in es then (if es == [SpeechStart, SpeechStart] then 2 else 1) else 0)
    ensures Count(es, SpeechEnd) == (if SpeechEnd in es then (if es == [SpeechEnd, SpeechEnd] then 2 else 1) else 0)
  {
    if |es| == 2 {
      assert es[1..] == [es[1]] && es[1..][1..] == [];
    } else if |es| == 1 {
      assert es[1..] == [];
    }
  }

  /** The not-speaking branch of `monitor()`: watch for the start of speech. */
  function SpeechStartStep(o: VadOptions, s: VadState, level: real, now: int): (r: (VadState, seq<VadEvent>))
    ensures r.1 == (if SpeechConfirmed(o, s, level, now) then [SpeechStart] else [])
    ensures SpeechConfirmed(o, s, level, now) ==> r.0 == s.(speaking := true, silenceStart := None)
    ensures !SpeechConfirmed(o, s, level, now) ==> r.0.speaking == s.speaking
    // the first loud frame only starts the debounce timer
    ensures level >= o.speechThreshold && !IsSet(s.speechStart) ==> r == (s.(speechStart := Some(now)), [])
    // a loud frame short of `minSpeechDuration` keeps the state as it is
    ensures level >= o.speechThreshold && IsSet(s.speechStart) && !SpeechConfirmed(o, s, level, now) ==> r == (s, [])
    // a frame below the speech threshold clears the debounce timer
    ensures level < o.speechThreshold ==> r == (s.(speechStart := None), [])
    ensures Consistent(s) && s.listening && !s.speaking ==> Consistent(r.0)
  {
    if level >= o.speechThreshold then
      if !IsSet(s.speechStart) then (s.(speechStart := Some(now)), [])
      else if now - s.speechStart.value >= o.minSpeechDuration then
        (s.(speaking := true, silenceStart := None), [SpeechStart])
      else (s, [])
    else (s.(speechStart := None), [])
  }

  /** The speaking branch of `monitor()`: refresh `totalSpeechTime` (before anything
      else), watch for sustained silence, then check the hard cap against that value. */
  function SpeechEndStep(o: VadOptions, s: VadState, level: real, now: int): (r: (VadState, seq<VadEvent>))
    ensures r.1 == (if SilenceExpired(o, s, level, now) then [SpeechEnd] else []) +
                   (if SpeechElapsed(s, now) >= o.maxDuration then [SpeechEnd] else [])
    ensures r.1 != [] ==> r.0 == s.(speaking := false, speechStart := None, silenceStart := None,
                                    totalSpeechTime := SpeechElapsed(s, now))
    ensures r.1 == [] ==> r.0 == s.(totalSpeechTime := SpeechElapsed(s, now),
                                    silenceStart := if level >= o.silenceThreshold then None
                                                    else if IsSet(s.silenceStart) then s.silenceStart
                                                    else Some(now))
    ensures Consistent(s) ==> Consistent(r.0)
  {
    var total := SpeechElapsed(s, now);
    var s1 := s.(totalSpeechTime := total);
    var (s2, ends) :=
      if level < o.silenceThreshold then
        if !IsSet(s1.silenceStart) then (s1.(silenceStart := Some(now)), [])
        else if now - s1.silenceStart.value >= o.silenceTimeout then
          (s1.(speaking := false, speechStart := None, silenceStart := None), [SpeechEnd])
        else (s1, [])
      else (s1.(silenceStart := None), []);
    if total >= o.maxDuration then
      (s2.(speaking := false, speechStart := None, silenceStart := None), ends + [SpeechEnd])
    else (s2, ends)
  }

  /** `stop()`: stop listening and, if speech was in progress, close it with a speech-end.
      The timers are left as they are. */
  function StopSession(s: VadState): (r: (VadState, seq<VadEvent>))
    ensures !r.0.listening && !r.0.speaking
    ensures r.0.speechStart == s.speechStart && r.0.silenceStart == s.silenceStart
    ensures r.0.totalSpeechTime == s.totalSpeechTime
    ensures r.1 == (if s.speaking then [SpeechEnd] else [])
    ensures Consistent(r.0)
  {
    (s.(listening := false, speaking := false), if s.speaking then [SpeechEnd] else [])
  }

  /** One sampled frame: the level and the clock. */
  datatype Sample = Sample(level: real, now: int)

  /** The detector fed a sequence of frames, one `monitor()` per frame. */
  function Run(o: VadOptions, s: VadState, samples: seq<Sample>): (VadState, seq<VadEvent>)
    decreases |samples|
  {
    if samples == [] then (s, [])
    else
      var first := Monitor(o, s, samples[0].level, samples[0].now);
      var rest := Run(o, first.0, samples[1..]);
      (rest.0, first.1 + rest.1)
  }

  ghost predicate AllLoud(o: VadOptions, samples: seq<Sample>) {
    forall i | 0 <= i < |samples| :: samples[i].level >= o.speechThreshold
  }

  ghost predicate AllQuiet(o: VadOptions, samples: seq<Sample>) {
    forall i | 0 <= i < |samples| :: samples[i].level < o.silenceThreshold
  }

  /** Every frame is less than `span` after `t0`. */
  ghost predicate AllBefore(samples: seq<Sample>, t0: int, span: int) {
    forall i | 0 <= i < |samples| :: samples[i].now - t0 < span
  }

  /** Some frame is at least `span` after `t0`. */
  ghost predicate SomeReaches(samples: seq<Sample>, t0: int, span: int) {
    exists i | 0 <= i < |samples| :: samples[i].now - t0 >= span
  }

  lemma TailFacts(o: VadOptions, samples: seq<Sample>, t0: int, span: int)
    requires samples != []
    ensures AllLoud(o, samples) ==> AllLoud(o, samples[1..])
    ensures AllQuiet(o, samples) ==> AllQuiet(o, samples[1..])
    ensures AllBefore(samples, t0, span) ==> AllBefore(samples[1..], t0, span)
    ensures SomeReaches(samples, t0, span) <==>
              samples[0].now - t0 >= span || SomeReaches(samples[1..], t0, span)
  {
    if SomeReaches(samples, t0, span) && samples[0].now - t0 < span {
      var i :| 0 <= i < |samples| && samples[i].now - t0 >= span;
      assert samples[1..][i - 1] == samples[i];
    }
    if SomeReaches(samples[1..], t0, span) {
      var i :| 0 <= i < |samples[1..]| && samples[1..][i].now - t0 >= span;
      assert samples[i + 1] == samples[1..][i];
    }
  }

  /** While speaking loudly and short of the hard cap, nothing but volume is reported. */
  lemma {:induction false} LoudSpeakingRun(o: VadOptions, s: VadState, t0: int, samples: seq<Sample>)
    requires s.listening && s.speaking && s.speechStart == Some(t0) && t0 != 0
    requires o.silenceThreshold <= o.speechThreshold
    requires AllLoud(o, samples) && AllBefore(samples, t0, o.maxDuration)
    ensures Count(Run(o, s, samples).1, SpeechStart) == 0
    ensures Count(Run(o, s, samples).1, SpeechEnd) == 0
    decreases |samples|
  {
    if samples != [] {
      TailFacts(o, samples, t0, o.maxDuration);
      var first := Monitor(o, s, samples[0].level, samples[0].now);
      LoudSpeakingRun(o, first.0, t0, samples[1..]);
    }
  }

  /** A loud stretch that has already started the speech timer at `t0` fires one
      speech-start exactly when some frame is `minSpeechDuration` past `t0`. */
  lemma {:induction false} PendingSpeechRun(o: VadOptions, s: VadState, t0: int, samples: seq<Sample>)
    requires s.listening && !s.speaking && s.speechStart == Some(t0) && t0 != 0
    requires o.silenceThreshold <= o.speechThreshold
    requires AllLoud(o, samples) && AllBefore(samples, t0, o.maxDuration)
    ensures Count(Run(o, s, samples).1, SpeechEnd) == 0
    ensures Count(Run(o, s, samples).1, SpeechStart) ==
              if SomeReaches(samples, t0, o.minSpeechDuration) then 1 else 0
    decreases |samples|
  {
    if samples != [] {
      TailFacts(o, samples, t0, o.maxDuration);
      TailFacts(o, samples, t0, o.minSpeechDuration);
      var first := Monitor(o, s, samples[0].level, samples[0].now);
      if samples[0].now - t0 >= o.minSpeechDuration {
        LoudSpeakingRun(o, first.0, t0, samples[1..]);
      } else {
        PendingSpeechRun(o, first.0, t0, samples[1..]);
      }
    }
  }

  /** Sustained loudness from an idle detector: the first frame only records the speech
      timer; exactly one speech-start fires if some later frame is `minSpeechDuration` past
      the first, and none otherwise; no speech-end fires short of `maxDuration`. */
  lemma SustainedSpeechStartsOnce(o: VadOptions, s: VadState, samples: seq<Sample>)
    requires s.listening && !s.speaking && !IsSet(s.speechStart)
    requires |samples| > 0 && samples[0].now != 0
    requires o.silenceThreshold <= o.speechThreshold
    requires AllLoud(o, samples) && AllBefore(samples[1..], samples[0].now, o.maxDuration)
    ensures Count(Run(o, s, samples).1, SpeechEnd) == 0
    ensures Count(Run(o, s, samples).1, SpeechStart) ==
              if SomeReaches(samples[1..], samples[0].now, o.minSpeechDuration) then 1 else 0
  {
    TailFacts(o, samples, 0, 0);
    var first := Monitor(o, s, samples[0].level, samples[0].now);
    PendingSpeechRun(o, first.0, samples[0].now, samples[1..]);
  }

  /** Quiet frames never wake an idle detector. */
  lemma {:induction false} QuietIdleRun(o: VadOptions, s: VadState, samples: seq<Sample>)
    requires s.listening && !s.speaking
    requires o.silenceThreshold <= o.speechThreshold
    requires AllQuiet(o, samples)
    ensures Count(Run(o, s, samples).1, SpeechStart) == 0
    ensures Count(Run(o, s, samples).1, SpeechEnd) == 0
    decreases |samples|
  {
    if samples != [] {
      TailFacts(o, samples, 0, 0);
      var first := Monitor(o, s, samples[0].level, samples[0].now);
      QuietIdleRun(o, first.0, samples[1..]);
    }
  }

  /** Silence that has already started its timer at `t1` ends speech once, at the first
      frame `silenceTimeout` past `t1`, and never otherwise. */
  lemma {:induction false} PendingSilenceRun(o: VadOptions, s: VadState, ts: int, t1: int, samples: seq<Sample>)
    requires s.listening && s.speaking && s.speechStart == Some(ts) && ts != 0
    requires s.silenceStart == Some(t1) && t1 != 0
    requires o.silenceThreshold <= o.speechThreshold
    requires AllQuiet(o, samples) && AllBefore(samples, ts, o.maxDuration)
    ensures Count(Run(o, s, samples).1, SpeechStart) == 0
    ensures Count(Run(o, s, samples).1, SpeechEnd) ==
              if SomeReaches(samples, t1, o.silenceTimeout) then 1 else 0
    decreases |samples|
  {
    if samples != [] {
      TailFacts(o, samples, ts, o.maxDuration);
      TailFacts(o, samples, t1, o.silenceTimeout);
      var first := Monitor(o, s, samples[0].level, samples[0].now);
      if samples[0].now - t1 >= o.silenceTimeout {
        QuietIdleRun(o, first.0, samples[1..]);
      } else {
        PendingSilenceRun(o, first.0, ts, t1, samples[1..]);
      }
    }
  }

  /** Sustained silence while speaking: the first quiet frame only starts the silence
      timer; exactly one speech-end fires if some later frame is `silenceTimeout` past it,
      none otherwise, and no speech-start fires. */
  lemma SustainedSilenceEndsOnce(o: VadOptions, s: VadState, samples: seq<Sample>)
    requires s.listening && s.speaking && IsSet(s.speechStart) && !IsSet(s.silenceStart)
    requires |samples| > 0 && samples[0].now != 0
    requires o.silenceThreshold <= o.speechThreshold
    requires AllQuiet(o, samples) && AllBefore(samples, s.speechStart.value, o.maxDuration)
    ensures Count(Run(o, s, samples).1, SpeechStart) == 0
    ensures Count(Run(o, s, samples).1, SpeechEnd) ==
              if SomeReaches(samples[1..], samples[0].now, o.silenceTimeout) then 1 else 0
  {
    TailFacts(o, samples, s.speechStart.value, o.maxDuration);
    var first := Monitor(o, s, samples[0].level, samples[0].now);
    PendingSilenceRun(o, first.0, s.speechStart.value, samples[0].now, samples[1..]);
  }

  /** The quiet dips of a stretch of frames while speaking stay shorter than
      `silenceTimeout`: `open` is the silence timer as it stands before the first frame;
      a quiet frame with the timer unset starts it, one with the timer set must come less
      than `silenceTimeout` after it, and a frame at or above the silence threshold
      clears it. */
  ghost predicate ShortDips(o: VadOptions, samples: seq<Sample>, open: Option<int>)
    decreases |samples|
  {
    if samples == [] then true
    else if samples[0].level >= o.silenceThreshold then ShortDips(o, samples[1..], None)
    else if IsSet(open) then
      samples[0].now - open.value < o.silenceTimeout && ShortDips(o, samples[1..], open)
    else ShortDips(o, samples[1..], Some(samples[0].now))
  }

  /** Speech broken by pauses shorter than `silenceTimeout`, short of the hard cap, neither
      ends nor restarts: the detector is still speaking after the whole stretch. */
  lemma {:induction false} IntermittentDips(o: VadOptions, s: VadState, ts: int, samples: seq<Sample>)
    requires s.listening && s.speaking && s.speechStart == Some(ts) && ts != 0
    requires AllBefore(samples, ts, o.maxDuration)
    requires ShortDips(o, samples, s.silenceStart)
    ensures Count(Run(o, s, samples).1, SpeechEnd) == 0
    ensures Count(Run(o, s, samples).1, SpeechStart) == 0
    ensures Run(o, s, samples).0.speaking
    decreases |samples|
  {
    if samples != [] {
      TailFacts(o, samples, ts, o.maxDuration);
      var first := Monitor(o, s, samples[0].level, samples[0].now);
      var rest := Run(o, first.0, samples[1..]);
      IntermittentDips(o, first.0, ts, samples[1..]);
      CountAppend(first.1, rest.1, SpeechEnd);
      CountAppend(first.1, rest.1, SpeechStart);
    }
  }

  function SpeakingBit(s: VadState): nat {
    if s.speaking then 1 else 0
  }

  /** Over any run, every speech-start is answered by a speech-end or by the detector
      still speaking at the end. */
  lemma {:induction false} RunBalance(o: VadOptions, s: VadState, samples: seq<Sample>)
    ensures Count(Run(o, s, samples).1, SpeechStart) + SpeakingBit(s) <=
            Count(Run(o, s, samples).1, SpeechEnd) + SpeakingBit(Run(o, s, samples).0)
    decreases |samples|
  {
    if samples != [] {
      var first := Monitor(o, s, samples[0].level, samples[0].now);
      RunBalance(o, first.0, samples[1..]);
      var rest := Run(o, first.0, samples[1..]);
      CountAppend(first.1, rest.1, SpeechStart);
      CountAppend(first.1, rest.1, SpeechEnd);
    }
  }

  /** A listening session (`start()`, frames, `stop()`) that began idle never leaves a
      speech-start without a speech-end. */
  lemma SessionBalanced(o: VadOptions, samples: seq<Sample>)
    ensures var run := Run(o, Fresh, samples);
            var stop := StopSession(run.0);
            Count(run.1 + stop.1, SpeechStart) <= Count(run.1 + stop.1, SpeechEnd)
  {
    RunBalance(o, Fresh, samples);
    var run := Run(o, Fresh, samples);
    var stop := StopSession(run.0);
    CountAppend(run.1, stop.1, SpeechStart);
    CountAppend(run.1, stop.1, SpeechEnd);
  }

  /** One tick can fire speech-end twice: the silence timeout and the hard cap expire
      together (the cap is checked after the silence branch has already ended speech). */
  lemma DoubleSpeechEndInOneTick()
    ensures var s := VadState(true, true, Some(1000), Some(59000), 0);
            Monitor(DefaultOptions, s, 0.0, 61000).1 == [VolumeChange(0.0), SpeechEnd, SpeechEnd]
  {
  }

  /** A speech timer started at time 0 reads as unset: the next loud tick restarts it
      instead of confirming speech. */
  lemma ZeroTimestampRestartsDebounce()
    ensures var s := VadState(true, false, Some(0), None, 0);
            Monitor(DefaultOptions, s, 0.5, 5000) == (s.(speechStart := Some(5000)), [VolumeChange(0.5)])
  {
    assert [VolumeChange(0.5)] + [] == [VolumeChange(0.5)];
  }

  /** The detector object. Device handles and the animation-frame loop are not modelled:
      each call of `Tick` is one frame. */
  class VoiceActivityDetector {
    var options: VadOptions
    var hasStream: bool
    var isListening: bool
    var isSpeaking: bool
    var speechStartTime: Option<int>
    var silenceStartTime: Option<int>
    var totalSpeechTime: int
    /** The callbacks fired so far (`onVolumeChange`, `onSpeechStart`, `onSpeechEnd`). */
    var events: seq<VadEvent>

    function State(): VadState
      reads this
    {
      VadState(isListening, isSpeaking, speechStartTime, silenceStartTime, totalSpeechTime)
    }

    ghost predicate Valid()
      reads this
    {
      Consistent(State())
    }

    constructor (u: VadOptionsUpdate)
      ensures Valid() && options == MergeOptions(DefaultOptions, u)
      ensures !hasStream && State() == VadState(false, false, None, None, 0) && events == []
    {
      options := MergeOptions(DefaultOptions, u);
      hasStream := false;
      isListening := false;
      isSpeaking := false;
      speechStartTime := None;
      silenceStartTime := None;
      totalSpeechTime := 0;
      events := [];
    }

    /** `start()`: open the microphone if needed (`denial` is the reason the request for
        it is refused, if it is), reset the session, start listening and run the first
        frame. */
    method Start(denial: Option<string>, level: real, now: int) returns (r: Result<()>)
      requires Valid()
      modifies this
      ensures Valid() && options == old(options)
      ensures !old(hasStream) && denial.Some? ==>
                r == Err("Microphone access denied: " + denial.value) && !hasStream &&
                State() == old(State()) && events == old(events)
      ensures old(hasStream) || denial.None? ==>
                r == Ok(()) && hasStream &&
                State() == Monitor(options, Fresh, level, now).0 &&
                events == old(events) + Monitor(options, Fresh, level, now).1
    {
      if !hasStream {
        if denial.Some? {
          return Err("Microphone access denied: " + denial.value);
        }
        hasStream := true;
      }
      isListening := true;
      isSpeaking := false;
      speechStartTime := None;
      silenceStartTime := None;
      totalSpeechTime := 0;
      Tick(level, now);
      r := Ok(());
    }

    /** `stop()`. */
    method Stop()
      requires Valid()
      modifies this
      ensures Valid() && options == old(options) && hasStream == old(hasStream)
      ensures State() == StopSession(old(State())).0
      ensures events == old(events) + StopSession(old(State())).1
    {
      isListening := false;
      if isSpeaking {
        isSpeaking := false;
        events := events + [SpeechEnd];
      }
    }

    /** `updateOptions(options)`. */
    method UpdateOptions(u: VadOptionsUpdate)
      modifies this`options
      ensures options == MergeOptions(old(options), u)
    {
      options := MergeOptions(options, u);
    }

    /** `monitor()`: one animation frame with the sampled `level` at time `now`. */
    method Tick(level: real, now: int)
      requires Valid()
      modifies this
      ensures Valid() && options == old(options) && hasStream == old(hasStream)
      ensures State() == Monitor(options, old(State()), level, now).0
      ensures events == old(events) + Monitor(options, old(State()), level, now).1
    {
      if !isListening {
        return;
      }
      ghost var was := State();
      events := events + [VolumeChange(level)];
      if !isSpeaking {
        WatchForSpeechStart(level, now);
        assert State() == Monitor(options, was, level, now).0;
        assert events == old(events) + Monitor(options, was, level, now).1;
      } else {
        WatchForSpeechEnd(level, now);
        assert State() == Monitor(options, was, level, now).0;
        assert events == old(events) + Monitor(options, was, level, now).1;
      }
    }

    method WatchForSpeechStart(level: real, now: int)
      modifies this
      ensures options == old(options) && hasStream == old(hasStream)
      ensures State() == SpeechStartStep(options, old(State()), level, now).0
      ensures events == old(events) + SpeechStartStep(options, old(State()), level, now).1
    {
      if level >= options.speechThreshold {
        if !IsSet(speechStartTime) {
          speechStartTime := Some(now);
        } else if now - speechStartTime.value >= options.minSpeechDuration {
          isSpeaking := true;
          silenceStartTime := None;
          events := events + [SpeechStart];
        }
      } else {
        speechStartTime := None;
      }
    }

    method WatchForSpeechEnd(level: real, now: int)
      modifies this
      ensures options == old(options) && hasStream == old(hasStream)
      ensures State() == SpeechEndStep(options, old(State()), level, now).0
      ensures events == old(events) + SpeechEndStep(options, old(State()), level, now).1
    {
      ghost var before := events;
      totalSpeechTime := now - (if IsSet(speechStartTime) then speechStartTime.value else now);
      ghost var ends: seq<VadEvent> := [];
      if level < options.silenceThreshold {
        if !IsSet(silenceStartTime) {
          silenceStartTime := Some(now);
        } else if now - silenceStartTime.value >= options.silenceTimeout {
          isSpeaking := false;
          speechStartTime := None;
          silenceStartTime := None;
          events := events + [SpeechEnd];
          ends := [SpeechEnd];
        }
      } else {
        silenceStartTime := None;
      }
      assert events == before + ends;
      if totalSpeechTime >= options.maxDuration {
        isSpeaking := false;
        speechStartTime := None;
        silenceStartTime := None;
        events := events + [SpeechEnd];
        assert events == before + (ends + [SpeechEnd]);
      }
    }

    /** `dispose()`: stop, then release the microphone. */
    method Dispose()
      requires Valid()
      modifies this
      ensures Valid() && !hasStream && options == old(options)
      ensures State() == StopSession(old(State())).0
      ensures events == old(events) + StopSession(old(State())).1
    {
      Stop();
      hasStream := false;
    }
  }
}
