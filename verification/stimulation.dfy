/** The stimulation protocol (`Stim`): its configuration as `setup` computes
    it from the parameter vector, and `check_stim` as a pure transition on the
    protocol state. A call reports the values it passed to the thalamus's
    `set_input`, in order, and appends start markers to the state.

    Mode 0 (and every mode other than 1 and 2) stimulates never; mode 1 fires
    semi-periodically at `time_to_stimuli`; mode 2 fires by phase: after the
    cortical voltage drops to `threshold`, after the next rise (the minimum)
    and after a further delay. A running stimulus switches off after
    `duration` calls; an event of several stimuli is followed, in mode 2, by a
    pause of `ISI` calls. */
module Stimulation {
  import opened Settings
  import opened CArith

  /** The fields `setup` fixes and `check_stim` only reads. */
  datatype Config = Config(
    mode: int,
    strength: real,
    duration: int,
    isi: int,
    isiRange: int,
    numberOfStimuli: int,
    timeBetweenStimuli: int,
    threshold: real,
    burstEnabled: bool,
    burstLength: int,
    burstIsi: int,
    onsetCorrection: int)

  /** The fields `check_stim` changes, and the marker list. */
  datatype State = State(
    timeToStimuli: int,
    started: bool,
    thresholdCrossed: bool,
    minimumFound: bool,
    paused: bool,
    burstStarted: bool,
    countStimuli: int,
    countBursts: int,
    countDuration: int,
    countToStart: int,
    countPause: int,
    vpOld: real,
    markers: seq<int>)

  /** A protocol: its configuration and its state. */
  datatype Stim = Stim(cfg: Config, st: State)

  /** The state after one phase of `check_stim`, and the `set_input` values
      that phase issued, in order. */
  datatype Outcome = Outcome(st: State, issued: seq<real>)

  /** The declared defaults of the state fields; `time_to_stimuli` is given. */
  function Fresh(timeToStimuli: int): (s: State)
    ensures s.countStimuli == 1 && s.markers == []
    ensures !s.started && !s.thresholdCrossed && !s.minimumFound && !s.paused && s.burstStarted
  {
    State(timeToStimuli, false, false, false, false, true, 1, 0, 0, 0, 0, 0.0, [])
  }

  /** The parameter vector is long enough for `setup`: entries 0..6 are always
      read, entry 7 only when the mode is not 1. */
  predicate SetupReadable(v: seq<real>) {
    |v| >= 7 && (Trunc(v[0]) != 1 ==> |v| >= 8)
  }

  /** `setup`: converts the parameter vector to time steps of `Dt` ms.
      `(int) v[k] * res / 1000` truncates the entry first, then scales. */
  function Setup(v: seq<real>): (s: Stim)
    requires SetupReadable(v)
    // Durations given in ms become steps of Dt ms; intervals given in s become steps of 1/Res s.
    ensures s.cfg.duration as real * Dt == Trunc(v[2]) as real
    ensures s.cfg.timeBetweenStimuli as real * Dt == Trunc(v[6]) as real
    ensures s.cfg.isi == Trunc(v[3]) * Res && s.cfg.isiRange == Trunc(v[4]) * Res
    ensures s.cfg.strength * 1000.0 == v[1]
    ensures s.cfg.mode == Trunc(v[0]) && s.cfg.numberOfStimuli == Trunc(v[5])
    // Bursts of 2 ms separated by 28 ms of silence; markers count from the end of the onset.
    ensures s.cfg.burstLength as real * Dt == 2.0 && s.cfg.burstIsi as real * Dt == 28.0
    ensures s.cfg.onsetCorrection == Onset * Res
    // Mode 1 first fires one second after the onset; otherwise the delay is entry 7, in ms.
    ensures s.cfg.mode == 1 ==> s.st.timeToStimuli == s.cfg.onsetCorrection + Res
    ensures s.cfg.mode != 1 ==> s.st.timeToStimuli as real * Dt == Trunc(v[7]) as real
    ensures s.st == Fresh(s.st.timeToStimuli)
    ensures Inv(s)
  {
    var mode := Trunc(v[0]);
    var cfg := Config(
      mode,
      v[1] / 1000.0,
      MsToSteps(Trunc(v[2])),
      Trunc(v[3]) * Res,
      Trunc(v[4]) * Res,
      Trunc(v[5]),
      MsToSteps(Trunc(v[6])),
      -68.0,
      false,
      MsToSteps(2),
      MsToSteps(28),
      Onset * Res);
    var tts := if mode == 1 then (Onset + 1) * Res else MsToSteps(Trunc(v[7]));
    Stim(cfg, Fresh(tts))
  }

  /** `k * res / 1000` in C's integer arithmetic: `k` ms as a number of
      steps of `Dt` ms, exact because `res` is a multiple of 1000. */
  function MsToSteps(k: int): (r: int)
    ensures r as real * Dt == k as real
  {
    assert k * Res == (k * 10) * 1000;
    Quotient(k * Res, 1000)
  }

  /** What every reachable protocol satisfies between calls. */
  predicate Inv(s: Stim) {
    && 1 <= s.st.countStimuli <= Max(1, s.cfg.numberOfStimuli)
    && !(s.st.thresholdCrossed && s.st.minimumFound)
    && (s.st.paused ==> !s.st.thresholdCrossed && !s.st.minimumFound)
    && (s.cfg.mode != 1 && s.cfg.mode != 2 ==>
          !s.st.started && !s.st.paused && !s.st.thresholdCrossed && !s.st.minimumFound)
  }

  function Max(a: int, b: int): int {
    if a >= b then a else b
  }

  /** The uniform draw of mode 1 lies in `[ISI - ISI_range, ISI + ISI_range]`
      when the range is non-zero; it is not used otherwise. */
  predicate DrawInRange(cfg: Config, draw: int) {
    cfg.isiRange != 0 ==> cfg.isi - cfg.isiRange <= draw <= cfg.isi + cfg.isiRange
  }

  /** The start of a stimulus, common to modes 1 and 2: the marker
      `time - onset_correction` is recorded for the first stimulus of an
      event only. */
  function Start(cfg: Config, st: State, time: int): (r: State)
    ensures r.started
    ensures st.countStimuli == 1 ==> r.markers == st.markers + [time - cfg.onsetCorrection]
    ensures st.countStimuli != 1 ==> r.markers == st.markers
    ensures r.(started := st.started, markers := st.markers) == st
  {
    st.(started := true,
        markers := if st.countStimuli == 1 then st.markers + [time - cfg.onsetCorrection] else st.markers)
  }

  /** Mode 1: at `time == time_to_stimuli` start a stimulus and move the
      timer, by `time_between_stimuli` within an event and by the ISI (or the
      drawn interval) after its last stimulus, when the counter restarts. */
  function Periodic(cfg: Config, st: State, time: int, draw: int): (o: Outcome)
    ensures time != st.timeToStimuli ==> o == Outcome(st, [])
    ensures time == st.timeToStimuli ==> o.issued == [cfg.strength] && o.st.started
    ensures time == st.timeToStimuli && st.countStimuli < cfg.numberOfStimuli ==>
              o.st.timeToStimuli == st.timeToStimuli + cfg.timeBetweenStimuli && o.st.countStimuli == st.countStimuli + 1
    ensures time == st.timeToStimuli && st.countStimuli >= cfg.numberOfStimuli ==>
              && o.st.countStimuli == 1
              && (cfg.isiRange == 0 ==> o.st.timeToStimuli == st.timeToStimuli + cfg.isi)
              && (cfg.isiRange != 0 ==> o.st.timeToStimuli == st.timeToStimuli + draw)
    ensures MarkedIfFirst(cfg, st, o.st, time)
    ensures o.st.(started := st.started, markers := st.markers, timeToStimuli := st.timeToStimuli,
                  countStimuli := st.countStimuli) == st
  {
    if time == st.timeToStimuli then
      var s1 := Start(cfg, st, time);
      if st.countStimuli < cfg.numberOfStimuli then
        Outcome(s1.(timeToStimuli := st.timeToStimuli + cfg.timeBetweenStimuli,
                    countStimuli := st.countStimuli + 1), [cfg.strength])
      else
        Outcome(s1.(timeToStimuli := st.timeToStimuli + (if cfg.isiRange == 0 then cfg.isi else draw),
                    countStimuli := 1), [cfg.strength])
    else
      Outcome(st, [])
  }

  /** The marker list of `st'` is that of `st`, or that of `st` plus the
      marker `time - onset_correction` when `st`'s stimulus was the first of
      its event. */
  predicate MarkedIfFirst(cfg: Config, st: State, st': State, time: int) {
    || st'.markers == st.markers
    || (st.countStimuli == 1 && st'.markers == st.markers + [time - cfg.onsetCorrection])
  }

  /** The threshold search of mode 2: it runs only while nothing is running,
      found or pausing and after the onset, and then only sets the flag. */
  function SearchThreshold(cfg: Config, st: State, time: int, vp: real): (r: State)
    ensures r.thresholdCrossed
        <==> st.thresholdCrossed
             || (!st.started && !st.minimumFound && !st.paused && time > cfg.onsetCorrection && vp <= cfg.threshold)
    ensures r.(thresholdCrossed := st.thresholdCrossed) == st
  {
    if !st.started && !st.minimumFound && !st.thresholdCrossed && time > cfg.onsetCorrection && !st.paused
       && vp <= cfg.threshold
    then st.(thresholdCrossed := true)
    else st
  }

  /** The minimum search of mode 2: once the threshold is crossed, the first
      rise of the voltage above its previous sample marks the minimum. */
  function SearchMinimum(st: State, vp: real): (r: State)
    ensures st.thresholdCrossed && vp > st.vpOld ==> !r.thresholdCrossed && r.minimumFound && r.vpOld == 0.0
    ensures st.thresholdCrossed && vp <= st.vpOld ==> r == st.(vpOld := vp)
    ensures !st.thresholdCrossed ==> r == st
    ensures r.(thresholdCrossed := st.thresholdCrossed, minimumFound := st.minimumFound, vpOld := st.vpOld) == st
  {
    if st.thresholdCrossed then
      if vp > st.vpOld then st.(thresholdCrossed := false, minimumFound := true, vpOld := 0.0)
      else st.(vpOld := vp)
    else st
  }

  /** The call count at which the k-th stimulus of an event starts, counted
      from the minimum, k = `count_stimuli`. */
  function StartCount(cfg: Config, st: State): int {
    st.timeToStimuli + (st.countStimuli - 1) * cfg.timeBetweenStimuli
  }

  /** The delayed start of mode 2: `count_to_start` counts calls since the
      minimum; a stimulus starts when it reaches the start count. After the
      last stimulus of an event the protocol pauses and the counters restart;
      `count_to_start` is incremented after its reset, so it ends at 1. */
  function AwaitStart(cfg: Config, st: State, time: int): (o: Outcome)
    ensures !st.minimumFound ==> o == Outcome(st, [])
    ensures st.minimumFound && st.countToStart != StartCount(cfg, st) ==>
              o == Outcome(st.(countToStart := st.countToStart + 1), [])
    ensures st.minimumFound && st.countToStart == StartCount(cfg, st) ==> o.issued == [cfg.strength] && o.st.started
    ensures st.minimumFound && st.countToStart == StartCount(cfg, st) && st.countStimuli < cfg.numberOfStimuli ==>
              && o.st.countStimuli == st.countStimuli + 1 && o.st.countToStart == st.countToStart + 1
              && o.st.minimumFound && o.st.paused == st.paused
    ensures st.minimumFound && st.countToStart == StartCount(cfg, st) && st.countStimuli >= cfg.numberOfStimuli ==>
              !o.st.minimumFound && o.st.paused && o.st.countStimuli == 1 && o.st.countToStart == 1
    ensures MarkedIfFirst(cfg, st, o.st, time)
    ensures o.st.(started := st.started, markers := st.markers, minimumFound := st.minimumFound,
                  paused := st.paused, countStimuli := st.countStimuli, countToStart := st.countToStart) == st
  {
    if st.minimumFound then
      if st.countToStart == StartCount(cfg, st) then
        var s1 := Start(cfg, st, time);
        if st.countStimuli < cfg.numberOfStimuli then
          Outcome(s1.(countStimuli := st.countStimuli + 1, countToStart := st.countToStart + 1), [cfg.strength])
        else
          Outcome(s1.(minimumFound := false, paused := true, countStimuli := 1, countToStart := 1), [cfg.strength])
      else
        Outcome(st.(countToStart := st.countToStart + 1), [])
    else
      Outcome(st, [])
  }

  /** Mode 2: threshold search, minimum search, delayed start. A stimulus is
      issued only once a minimum has been found, at this call or earlier;
      outside the search window and with no search under way nothing
      happens; the timer is left alone. */
  function PhaseDependent(cfg: Config, st: State, time: int, vp: real): (o: Outcome)
    ensures o.issued == [] || (o.issued == [cfg.strength] && o.st.started)
    ensures o.issued != [] ==> st.minimumFound || vp > st.vpOld
    ensures !st.minimumFound && !st.thresholdCrossed && (st.started || st.paused || time <= cfg.onsetCorrection)
            ==> o == Outcome(st, [])
    ensures MarkedIfFirst(cfg, st, o.st, time)
    ensures o.st.timeToStimuli == st.timeToStimuli
  {
    AwaitStart(cfg, SearchMinimum(SearchThreshold(cfg, st, time, vp), vp), time)
  }

  /** The switch on `mode`: any mode other than 1 and 2 does nothing. A
      call issues at most one value, `strength`, and only when it starts a
      stimulus; only mode 2 begins a pause, and mode 1 leaves the voltage
      search alone. */
  function ModeStep(cfg: Config, st: State, time: int, vp: real, draw: int): (o: Outcome)
    ensures cfg.mode != 1 && cfg.mode != 2 ==> o == Outcome(st, [])
    ensures o.issued == [] || (o.issued == [cfg.strength] && o.st.started)
    ensures o.st.paused ==> st.paused || cfg.mode == 2
    ensures cfg.mode == 1 ==> o.st.thresholdCrossed == st.thresholdCrossed && o.st.minimumFound == st.minimumFound
                              && o.st.vpOld == st.vpOld
    ensures MarkedIfFirst(cfg, st, o.st, time)
  {
    if cfg.mode == 1 then Periodic(cfg, st, time, draw)
    else if cfg.mode == 2 then PhaseDependent(cfg, st, time, vp)
    else Outcome(st, [])
  }

  /** Every value in `issued` is `strength` or 0. */
  predicate OnlyBinary(issued: seq<real>, strength: real) {
    forall i | 0 <= i < |issued| :: issued[i] == 0.0 || issued[i] == strength
  }

  /** The running stimulus: switch off when `count_duration` reaches
      `duration`, then advance both counters, then (with bursts enabled) gate
      the input on and off every `burst_length` and `burst_ISI` calls. */
  function Active(cfg: Config, st: State): (o: Outcome)
    requires cfg.burstEnabled ==> cfg.burstLength > 0 && cfg.burstIsi > 0
    ensures !st.started ==> o == Outcome(st, [])
    ensures st.started && st.countDuration == cfg.duration ==>
              && !o.st.started && o.st.countDuration == 1
              && |o.issued| >= 1 && o.issued[0] == 0.0
              && (!cfg.burstEnabled ==> o.issued == [0.0] && o.st.burstStarted && o.st.countBursts == 1)
    ensures st.started && st.countDuration != cfg.duration ==>
              o.st.started && o.st.countDuration == st.countDuration + 1
              && (!cfg.burstEnabled ==> o.issued == [] && o.st.countBursts == st.countBursts + 1)
    ensures OnlyBinary(o.issued, cfg.strength)
    ensures o.st.(started := st.started, burstStarted := st.burstStarted, countDuration := st.countDuration,
                  countBursts := st.countBursts) == st
  {
    if st.started then
      var off := st.countDuration == cfg.duration;
      var s1 := if off then st.(started := false, burstStarted := true, countDuration := 0, countBursts := 0) else st;
      var i1: seq<real> := if off then [0.0] else [];
      var s2 := s1.(countDuration := s1.countDuration + 1, countBursts := s1.countBursts + 1);
      if cfg.burstEnabled then
        if s2.burstStarted then
          if Remainder(s2.countBursts, cfg.burstLength) == 0 then
            Outcome(s2.(countBursts := 0, burstStarted := false), i1 + [0.0])
          else Outcome(s2, i1)
        else
          if Remainder(s2.countBursts, cfg.burstIsi) == 0 then
            Outcome(s2.(countBursts := 0, burstStarted := true), i1 + [cfg.strength])
          else Outcome(s2, i1)
      else Outcome(s2, i1)
    else
      Outcome(st, [])
  }

  /** The pause between events: it ends when `count_pause` reaches `ISI`;
      the counter is reset and then incremented, so it ends the call at 1. */
  function Pause(cfg: Config, st: State): (r: State)
    ensures !st.paused ==> r == st
    ensures st.paused && st.countPause == cfg.isi ==> !r.paused && r.countPause == 1
    ensures st.paused && st.countPause != cfg.isi ==> r.paused && r.countPause == st.countPause + 1
    ensures r.(paused := st.paused, countPause := st.countPause) == st
  {
    if st.paused then
      if st.countPause == cfg.isi then st.(paused := false, countPause := 1)
      else st.(countPause := st.countPause + 1)
    else st
  }

  /** `check_stim(time)`: the mode switch, the running stimulus, the pause.
      `vp` is the cortical voltage sampled for mode 2; `draw` the uniform ISI
      draw mode 1 consumes after the last stimulus of an event. Every value
      passed to `set_input` is `strength` or 0, and the marker list grows by
      at most the marker of a first stimulus. */
  function CheckStim(s: Stim, time: int, vp: real, draw: int): (o: Outcome)
    requires s.cfg.burstEnabled ==> s.cfg.burstLength > 0 && s.cfg.burstIsi > 0
    requires s.cfg.mode == 1 ==> DrawInRange(s.cfg, draw)
    ensures OnlyBinary(o.issued, s.cfg.strength)
    ensures s.st.markers <= o.st.markers
    ensures o.st.markers != s.st.markers ==>
              s.st.countStimuli == 1 && o.st.markers == s.st.markers + [time - s.cfg.onsetCorrection]
  {
    var m := ModeStep(s.cfg, s.st, time, vp, draw);
    var a := Active(s.cfg, m.st);
    Outcome(Pause(s.cfg, a.st), m.issued + a.issued)
  }

  /** The thalamic input after a call: the last value issued, if any. */
  function InputAfter(input: real, issued: seq<real>): (r: real)
    ensures r == input || r in issued
    ensures issued == [] ==> r == input
    ensures issued != [] ==> r == issued[|issued| - 1]
  {
    if issued == [] then input else issued[|issued| - 1]
  }

  /** Each `set_input` overwrites the previous one: the input after one more
      call is that call's value, and issuing `a` then `b` leaves what `b`
      leaves when started from the input `a` left. */
  lemma InputAfterSequential(input: real, a: seq<real>, b: seq<real>, x: real)
    ensures InputAfter(input, a + [x]) == x
    ensures InputAfter(input, a + b) == InputAfter(InputAfter(input, a), b)
  {
    if b != [] {
      assert (a + b)[|a + b| - 1] == b[|b| - 1];
    } else {
      assert a + b == a;
    }
  }

  /** `set_input` is only ever called with `strength` or 0, so an input that
      starts as one of the two stays one of the two. */
  lemma InputStaysBinary(s: Stim, time: int, vp: real, draw: int, input: real)
    requires s.cfg.burstEnabled ==> s.cfg.burstLength > 0 && s.cfg.burstIsi > 0
    requires s.cfg.mode == 1 ==> DrawInRange(s.cfg, draw)
    requires input == 0.0 || input == s.cfg.strength
    ensures var r := InputAfter(input, CheckStim(s, time, vp, draw).issued);
            r == 0.0 || r == s.cfg.strength
  {
  }

  /** Every call keeps the invariant: the stimulus counter stays within
      `[1, max(1, number_of_stimuli)]`, the threshold and minimum flags are
      never both set, and outside modes 1 and 2 nothing starts or pauses. */
  lemma CheckStimKeepsInv(s: Stim, time: int, vp: real, draw: int)
    requires s.cfg.burstEnabled ==> s.cfg.burstLength > 0 && s.cfg.burstIsi > 0
    requires s.cfg.mode == 1 ==> DrawInRange(s.cfg, draw)
    requires Inv(s)
    ensures Inv(Stim(s.cfg, CheckStim(s, time, vp, draw).st))
  {
  }

  /** Outside modes 1 and 2 a reachable protocol never changes: no state
      change, no `set_input`, no marker. */
  lemma OtherModesIdle(s: Stim, time: int, vp: real, draw: int)
    requires s.cfg.burstEnabled ==> s.cfg.burstLength > 0 && s.cfg.burstIsi > 0
    requires Inv(s) && s.cfg.mode != 1 && s.cfg.mode != 2
    ensures CheckStim(s, time, vp, draw) == Outcome(s.st, [])
  {
  }

  /** Mode 1 firing schedule: the timer moves only on the call where `time`
      reaches it; within an event by `time_between_stimuli`, after its last
      stimulus by `ISI`, or by a draw within `ISI_range` of `ISI`. */
  lemma PeriodicSchedule(s: Stim, time: int, vp: real, draw: int)
    requires s.cfg.burstEnabled ==> s.cfg.burstLength > 0 && s.cfg.burstIsi > 0
    requires s.cfg.mode == 1 && DrawInRange(s.cfg, draw)
    ensures var t := s.st.timeToStimuli;
            var t' := CheckStim(s, time, vp, draw).st.timeToStimuli;
            && (time != t ==> t' == t)
            && (time == t && s.st.countStimuli < s.cfg.numberOfStimuli ==> t' == t + s.cfg.timeBetweenStimuli)
            && (time == t && s.st.countStimuli >= s.cfg.numberOfStimuli && s.cfg.isiRange == 0 ==> t' == t + s.cfg.isi)
            && (time == t && s.st.countStimuli >= s.cfg.numberOfStimuli && s.cfg.isiRange != 0 ==>
                  t + s.cfg.isi - s.cfg.isiRange <= t' <= t + s.cfg.isi + s.cfg.isiRange)
  {
  }

  /** The threshold is searched only while no stimulus runs, no minimum is
      pending, no pause runs and the onset is over: outside that window a call
      neither crosses the threshold nor finds a minimum. */
  lemma ThresholdWindow(s: Stim, time: int, vp: real, draw: int)
    requires s.cfg.burstEnabled ==> s.cfg.burstLength > 0 && s.cfg.burstIsi > 0
    requires s.cfg.mode == 2 && !s.st.thresholdCrossed
    requires s.st.started || s.st.minimumFound || s.st.paused || time <= s.cfg.onsetCorrection || vp > s.cfg.threshold
    ensures var o := CheckStim(s, time, vp, draw);
            !o.st.thresholdCrossed && (o.st.minimumFound ==> s.st.minimumFound)
  {
  }

  /** Switching off: a running stimulus whose duration counter has reached
      `duration` sets the input to 0 and stops; the counter is reset and then
      incremented, so it ends the call at 1. Without bursts the burst counter
      ends at 1 as well and the burst flag is set. */
  lemma SwitchOff(s: Stim, time: int, vp: real, draw: int)
    requires s.cfg.burstEnabled ==> s.cfg.burstLength > 0 && s.cfg.burstIsi > 0
    requires s.cfg.mode == 1 ==> DrawInRange(s.cfg, draw)
    requires s.st.started && s.st.countDuration == s.cfg.duration
    ensures var o := CheckStim(s, time, vp, draw);
            && !o.st.started && o.st.countDuration == 1
            && (!s.cfg.burstEnabled ==> InputAfter(1.0, o.issued) == 0.0 && o.st.burstStarted && o.st.countBursts == 1)
  {
  }

  /** The last stimulus of a phase-dependent event: the minimum is consumed,
      the stimulus counter restarts at 1 and `count_to_start` ends at 1. The
      pause begins unless `count_pause`, which is not reset when a pause
      begins, already equals `ISI`. */
  lemma LastStimulusPauses(s: Stim, time: int, vp: real, draw: int)
    requires s.cfg.burstEnabled ==> s.cfg.burstLength > 0 && s.cfg.burstIsi > 0
    requires Inv(s) && s.cfg.mode == 2 && s.st.minimumFound
    requires s.st.countToStart == StartCount(s.cfg, s.st) && s.st.countStimuli >= s.cfg.numberOfStimuli
    ensures var o := CheckStim(s, time, vp, draw);
            && !o.st.minimumFound && o.st.countStimuli == 1 && o.st.countToStart == 1
            && (o.st.paused <==> s.st.countPause != s.cfg.isi)
            && InputAfter(0.0, o.issued) in {0.0, s.cfg.strength}
  {
  }

  /** A pause ends on the call where `count_pause` reaches `ISI`; that counter
      is reset and then incremented, so it ends the call at 1. Before that the
      pause goes on and the counter grows by one. */
  lemma PauseTiming(s: Stim, time: int, vp: real, draw: int)
    requires s.cfg.burstEnabled ==> s.cfg.burstLength > 0 && s.cfg.burstIsi > 0
    requires s.cfg.mode == 1 ==> DrawInRange(s.cfg, draw)
    requires Inv(s) && s.st.paused
    ensures var o := CheckStim(s, time, vp, draw);
            && (s.st.countPause == s.cfg.isi ==> !o.st.paused && o.st.countPause == 1)
            && (s.st.countPause != s.cfg.isi ==> o.st.paused && o.st.countPause == s.st.countPause + 1)
  {
  }
}
