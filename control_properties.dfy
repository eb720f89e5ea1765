/**
 * What the control-loop handler promises, proved about its specification
 * Dispatch.ControlLoopSpec: sticky errors, when each error bit is raised,
 * the fixed callback schedule with its timestamps, and Kirchhoff's law for
 * every current handed to a callback.
 */
module ControlProperties {
  import opened Wrappers
  import opened U32
  import opened MotorErrors
  import opened CurrentSense
  import opened PhaseTracker
  import opened Dispatch

  /** Error bits are only ever added: no bit of either motor is cleared by the handler. */
  lemma ErrorsOnlyGrow(cfg: Config, s: Snapshot, inputs: ControlInputs)
    requires cfg.Valid() && PwmFits(|s.gpioPwm|, cfg.pwmGpios, inputs.pwmInputs)
    ensures s.errors0 <= ControlLoopSpec(cfg, s, inputs).after.errors0
    ensures s.errors1 <= ControlLoopSpec(cfg, s, inputs).after.errors1
  {
    PreemptedErrors(cfg, s, inputs);
  }

  /** The preempting updates change errors only by TIMER_UPDATE_MISSED, and the tracker as the phase tracker does. */
  lemma PreemptedErrors(cfg: Config, s: Snapshot, inputs: ControlInputs)
    requires cfg.Valid() && PwmFits(|s.gpioPwm|, cfg.pwmGpios, inputs.pwmInputs)
    ensures var s1 := FirstWindow(cfg, s, inputs).state;
            var s2 := UpdatesSpec(cfg, s1, inputs.preempt, inputs.pwmInputs);
            && s2.errors0 == RaiseIf(s1.errors0, AnyMissed(s.tracker, inputs.preempt), TimerUpdateMissed)
            && s2.errors1 == RaiseIf(s1.errors1, AnyMissed(s.tracker, inputs.preempt), TimerUpdateMissed)
            && s2.tracker == Run(cfg.Increment(), s.tracker, inputs.preempt)
  {
    var s1 := FirstWindow(cfg, s, inputs).state;
    UpdatesErrors(cfg, s1, inputs.preempt, inputs.pwmInputs);
    UpdatesTrackRun(cfg, s1, inputs.preempt, inputs.pwmInputs);
  }

  /**
   * BAD_TIMING is set on a motor after the handler exactly when it was set
   * before, or the first window's ADCs were not all done, or ADC1's DMA
   * transfer had not completed, or the calibration window's ADCs were not
   * all done. It is raised on both motors alike.
   */
  lemma BadTimingIff(cfg: Config, s: Snapshot, inputs: ControlInputs)
    requires cfg.Valid() && PwmFits(|s.gpioPwm|, cfg.pwmGpios, inputs.pwmInputs)
    ensures var r := ControlLoopSpec(cfg, s, inputs).after;
            var failed := !AllAdcsDone(inputs.realWindow) || !inputs.dmaComplete || !AllAdcsDone(inputs.calibWindow);
            && (BadTiming in r.errors0 <==> BadTiming in s.errors0 || failed)
            && (BadTiming in r.errors1 <==> BadTiming in s.errors1 || failed)
  {
    PreemptedErrors(cfg, s, inputs);
  }

  /**
   * CONTROL_DEADLINE_MISSED is set on a motor after the handler exactly when
   * it was set before, or the timestamp is not the captured one plus one
   * increment; that is, when the number of timer updates accepted while the
   * handler ran is not exactly one.
   */
  lemma DeadlineMissedIff(cfg: Config, s: Snapshot, inputs: ControlInputs)
    requires cfg.Valid() && PwmFits(|s.gpioPwm|, cfg.pwmGpios, inputs.pwmInputs)
    requires (Accepted(s.tracker, inputs.preempt) + 1) * cfg.Increment() < Modulus
    ensures var r := ControlLoopSpec(cfg, s, inputs).after;
            var late := Accepted(s.tracker, inputs.preempt) != 1;
            && (ControlDeadlineMissed in r.errors0 <==> ControlDeadlineMissed in s.errors0 || late)
            && (ControlDeadlineMissed in r.errors1 <==> ControlDeadlineMissed in s.errors1 || late)
            && r.tracker == Run(cfg.Increment(), s.tracker, inputs.preempt)
  {
    var first := FirstWindow(cfg, s, inputs);
    var s2 := UpdatesSpec(cfg, first.state, inputs.preempt, inputs.pwmInputs);
    var second := SecondWindow(cfg, s2, inputs, first.current0, first.current1);
    assert ControlLoopSpec(cfg, s, inputs).after == Finish(cfg, second.state, s.tracker.timestamp);
    PreemptedErrors(cfg, s, inputs);
    DeadlineCheckCountsUpdates(cfg.Increment(), s.tracker, inputs.preempt);
    assert ControlDeadlineMissed in first.state.errors0 <==> ControlDeadlineMissed in s.errors0;
    assert ControlDeadlineMissed in first.state.errors1 <==> ControlDeadlineMissed in s.errors1;
    assert ControlDeadlineMissed in second.state.errors0 <==> ControlDeadlineMissed in s2.errors0;
    assert ControlDeadlineMissed in second.state.errors1 <==> ControlDeadlineMissed in s2.errors1;
  }

  /**
   * The saturation bit is only ever raised on motor 0: it appears there when
   * either window saw an out-of-range code on a ready motor's channel, of
   * either motor, and motor 1's bit never changes.
   */
  lemma SaturationLandsOnMotor0(cfg: Config, s: Snapshot, inputs: ControlInputs)
    requires cfg.Valid() && PwmFits(|s.gpioPwm|, cfg.pwmGpios, inputs.pwmInputs)
    ensures var r := ControlLoopSpec(cfg, s, inputs).after;
            && (CurrentSenseSaturation in r.errors1 <==> CurrentSenseSaturation in s.errors1)
            && (CurrentSenseSaturation in r.errors0 <==>
                  || CurrentSenseSaturation in s.errors0
                  || FetchSaturates(inputs.realWindow, inputs.ready0, inputs.ready1)
                  || FetchSaturates(inputs.calibWindow, inputs.ready0, inputs.ready1))
  {
    PreemptedErrors(cfg, s, inputs);
  }

  /**
   * The handler never short-circuits: whatever the inputs, it reports both
   * motors' currents (motor 0 at the captured timestamp less TIM1_INIT_COUNT),
   * runs the control loop at the captured timestamp, and after the
   * preempting updates' sampling callbacks hands out the DC-calibration
   * samples one increment later and the PWM and brake-resistor updates three
   * increments later.
   */
  lemma CallbackSchedule(cfg: Config, s: Snapshot, inputs: ControlInputs)
    requires cfg.Valid() && PwmFits(|s.gpioPwm|, cfg.pwmGpios, inputs.pwmInputs)
    ensures var ev := ControlLoopSpec(cfg, s, inputs).events;
            var ts := s.tracker.timestamp;
            var inc := cfg.Increment();
            var init := cfg.tim1InitCount;
            var n := |ev|;
            && n >= 9
            && ev[0].CurrentMeasCb? && ev[0].motor == 0 && ev[0].timestamp == Wrap(ts - init)
            && ev[1].CurrentMeasCb? && ev[1].motor == 1 && ev[1].timestamp == ts
            && ev[2] == ControlLoopCb(ts)
            && (forall k | 3 <= k < n - 6 :: ev[k] == SamplingCb)
            && ev[n - 6].DcCalibCb? && ev[n - 6].motor == 0 && ev[n - 6].timestamp == Wrap(ts + inc - init)
            && ev[n - 5].DcCalibCb? && ev[n - 5].motor == 1 && ev[n - 5].timestamp == Wrap(ts + inc)
            && ev[n - 4] == PwmUpdateCb(0, Wrap(ts + 3 * inc - init))
            && ev[n - 3] == PwmUpdateCb(1, Wrap(ts + 3 * inc))
            && ev[n - 2] == BrakeResistorUpdate
            && ev[n - 1] == BrakeResistorOutputUpdate(Wrap(ts + 3 * inc - init))
  {
    var s1 := FirstWindow(cfg, s, inputs).state;
    OnlySamplingCallbacks(cfg, s1, inputs.preempt, inputs.pwmInputs);
  }

  predicate OnlySampling(ev: seq<Event>) {
    forall k | 0 <= k < |ev| :: ev[k] == SamplingCb
  }

  /** The timer updates make no callback but sampling_cb. */
  lemma {:induction false} OnlySamplingCallbacks(cfg: Config, s: Snapshot, observed: seq<bool>, pwmInputs: seq<seq<real>>)
    requires PwmFits(|s.gpioPwm|, cfg.pwmGpios, pwmInputs)
    ensures OnlySampling(UpdatesLog(cfg, s, observed, pwmInputs))
    decreases |observed|
  {
    if observed != [] {
      OnlySamplingCallbacks(cfg, s, observed[..|observed| - 1], pwmInputs);
    }
  }

  /** Every current the handler reports, measured or calibrating, is either absent or sums to zero over the three phases. */
  predicate KirchhoffHolds(e: Event) {
    (e.CurrentMeasCb? || e.DcCalibCb?) && e.current.Some? ==> SumsToZero(e.current.value)
  }

  /** Every event of the series satisfies Kirchhoff's law. */
  predicate AllKirchhoff(ev: seq<Event>) {
    forall k | 0 <= k < |ev| :: KirchhoffHolds(ev[k])
  }

  predicate CurrentSumsToZero(current: Option<Iph>) {
    current.Some? ==> SumsToZero(current.value)
  }

  /** The real-current window hands out no current, the zero current, or a reconstructed triple. */
  lemma FirstWindowKirchhoff(cfg: Config, s: Snapshot, inputs: ControlInputs)
    requires cfg.Valid()
    ensures CurrentSumsToZero(FirstWindow(cfg, s, inputs).current0)
    ensures CurrentSumsToZero(FirstWindow(cfg, s, inputs).current1)
  {
  }

  /** The calibration window keeps the currents it is given or replaces them by reconstructed triples. */
  lemma SecondWindowKirchhoff(cfg: Config, s: Snapshot, inputs: ControlInputs, current0: Option<Iph>, current1: Option<Iph>)
    requires cfg.Valid() && CurrentSumsToZero(current0) && CurrentSumsToZero(current1)
    ensures CurrentSumsToZero(SecondWindow(cfg, s, inputs, current0, current1).current0)
    ensures CurrentSumsToZero(SecondWindow(cfg, s, inputs, current0, current1).current1)
  {
  }

  lemma PreemptedKirchhoff(cfg: Config, s: Snapshot, observed: seq<bool>, pwmInputs: seq<seq<real>>)
    requires PwmFits(|s.gpioPwm|, cfg.pwmGpios, pwmInputs)
    ensures AllKirchhoff(UpdatesLog(cfg, s, observed, pwmInputs))
  {
    OnlySamplingCallbacks(cfg, s, observed, pwmInputs);
  }

  lemma ConcatKirchhoff(first: seq<Event>, second: seq<Event>)
    requires AllKirchhoff(first) && AllKirchhoff(second)
    ensures AllKirchhoff(first + second)
  {
    forall k | 0 <= k < |first + second|
      ensures KirchhoffHolds((first + second)[k])
    {
      if k >= |first| {
        assert (first + second)[k] == second[k - |first|];
      }
    }
  }

  /** The handler's fixed callbacks carry the stages' currents, so they obey Kirchhoff's law when those do. */
  lemma ScheduleKirchhoff(cfg: Config, captured: u32, first: Stage, preempted: seq<Event>, second: Stage)
    requires CurrentSumsToZero(first.current0) && CurrentSumsToZero(first.current1)
    requires CurrentSumsToZero(second.current0) && CurrentSumsToZero(second.current1)
    requires AllKirchhoff(preempted)
    ensures AllKirchhoff(ControlEvents(cfg, captured, first, preempted, second))
  {
    var head, tail := HeadEvents(cfg, captured, first), TailEvents(cfg, captured, second);
    assert AllKirchhoff(head);
    assert AllKirchhoff(tail);
    ConcatKirchhoff(head, preempted);
    ConcatKirchhoff(head + preempted, tail);
  }

  lemma CurrentsObeyKirchhoff(cfg: Config, s: Snapshot, inputs: ControlInputs)
    requires cfg.Valid() && PwmFits(|s.gpioPwm|, cfg.pwmGpios, inputs.pwmInputs)
    ensures AllKirchhoff(ControlLoopSpec(cfg, s, inputs).events)
  {
    var first := FirstWindow(cfg, s, inputs);
    var preempted := UpdatesLog(cfg, first.state, inputs.preempt, inputs.pwmInputs);
    var s2 := UpdatesSpec(cfg, first.state, inputs.preempt, inputs.pwmInputs);
    var second := SecondWindow(cfg, s2, inputs, first.current0, first.current1);
    FirstWindowKirchhoff(cfg, s, inputs);
    SecondWindowKirchhoff(cfg, s2, inputs, first.current0, first.current1);
    PreemptedKirchhoff(cfg, first.state, inputs.preempt, inputs.pwmInputs);
    ScheduleKirchhoff(cfg, s.tracker.timestamp, first, preempted, second);
    assert ControlLoopSpec(cfg, s, inputs).events == ControlEvents(cfg, s.tracker.timestamp, first, preempted, second);
  }

  /** Where the handler's fixed callbacks sit in its series, around those of the preempting updates. */
  lemma ControlEventsAt(cfg: Config, captured: u32, first: Stage, preempted: seq<Event>, second: Stage)
    ensures var ev := ControlEvents(cfg, captured, first, preempted, second);
            && |ev| == |preempted| + 9
            && ev[0] == HeadEvents(cfg, captured, first)[0]
            && ev[1] == HeadEvents(cfg, captured, first)[1]
            && ev[|ev| - 6] == TailEvents(cfg, captured, second)[0]
            && ev[|ev| - 5] == TailEvents(cfg, captured, second)[1]
  {
    var head, tail := HeadEvents(cfg, captured, first), TailEvents(cfg, captured, second);
    var ev := head + preempted + tail;
    assert ev[|ev| - 6] == tail[0] && ev[|ev| - 5] == tail[1];
  }

  /**
   * Which current each motor's callbacks receive. current_meas_cb gets the
   * all-zero current for a power stage that is not switching, and otherwise
   * the real-current window's reconstructed triple, or none when that fetch
   * failed (ADCs not done, driver not ready, a code out of range).
   * dc_calib_cb gets the calibration window's triple when there is one, and
   * otherwise the value current_meas_cb got.
   */
  lemma ReportedCurrents(cfg: Config, s: Snapshot, inputs: ControlInputs)
    requires cfg.Valid() && PwmFits(|s.gpioPwm|, cfg.pwmGpios, inputs.pwmInputs)
    ensures var ev := ControlLoopSpec(cfg, s, inputs).events;
            var ts, inc, init, shunt := s.tracker.timestamp, cfg.Increment(), cfg.tim1InitCount, cfg.shuntResistance;
            var m0 := if inputs.moe0 then FreshCurrent0(inputs.realWindow, inputs.ready0, inputs.revGain0, shunt)
                      else Some(ZeroCurrent);
            var m1 := if inputs.moe1 then FreshCurrent1(inputs.realWindow, inputs.ready1, inputs.revGain1, shunt)
                      else Some(ZeroCurrent);
            && |ev| >= 9
            && ev[0] == CurrentMeasCb(0, Wrap(ts - init), m0)
            && ev[1] == CurrentMeasCb(1, ts, m1)
            && ev[|ev| - 6] == DcCalibCb(0, Wrap(ts + inc - init),
                                         Latest(FreshCurrent0(inputs.calibWindow, inputs.ready0, inputs.revGain0, shunt), m0))
            && ev[|ev| - 5] == DcCalibCb(1, Wrap(ts + inc),
                                         Latest(FreshCurrent1(inputs.calibWindow, inputs.ready1, inputs.revGain1, shunt), m1))
  {
    var first := FirstWindow(cfg, s, inputs);
    var preempted := UpdatesLog(cfg, first.state, inputs.preempt, inputs.pwmInputs);
    var s2 := UpdatesSpec(cfg, first.state, inputs.preempt, inputs.pwmInputs);
    var second := SecondWindow(cfg, s2, inputs, first.current0, first.current1);
    ControlEventsAt(cfg, s.tracker.timestamp, first, preempted, second);
    assert ControlLoopSpec(cfg, s, inputs).events == ControlEvents(cfg, s.tracker.timestamp, first, preempted, second);
  }

  /** A power stage that is not switching reports an all-zero current for the real-current window. */
  lemma MoeClearReportsZero(cfg: Config, s: Snapshot, inputs: ControlInputs)
    requires cfg.Valid() && PwmFits(|s.gpioPwm|, cfg.pwmGpios, inputs.pwmInputs)
    ensures var ev := ControlLoopSpec(cfg, s, inputs).events;
            && (!inputs.moe0 ==> ev[0].current == Some(ZeroCurrent))
            && (!inputs.moe1 ==> ev[1].current == Some(ZeroCurrent))
  {
  }

  /**
   * A calibration window that cannot be used (not all ADCs done, or a motor
   * whose driver is not ready) hands the DC-calibration callback the same
   * value the current-measurement callback got.
   */
  lemma StaleCalibrationRepeatsMeasurement(cfg: Config, s: Snapshot, inputs: ControlInputs)
    requires cfg.Valid() && PwmFits(|s.gpioPwm|, cfg.pwmGpios, inputs.pwmInputs)
    requires !AllAdcsDone(inputs.calibWindow) || !inputs.ready0
    ensures var ev := ControlLoopSpec(cfg, s, inputs).events;
            ev[|ev| - 6].current == ev[0].current
  {
  }

  /**
   * End to end, a nominal period: ADCs and DMA done in both windows, every
   * sampled code in range, and exactly one timer update (the peak) while the
   * handler runs. No error bit is added to either motor and the timestamp
   * has advanced by exactly one increment.
   */
  lemma NominalPeriodIsClean(cfg: Config, s: Snapshot, inputs: ControlInputs)
    requires cfg.Valid() && PwmFits(|s.gpioPwm|, cfg.pwmGpios, inputs.pwmInputs)
    requires 2 * cfg.Increment() < Modulus
    requires AllAdcsDone(inputs.realWindow) && inputs.dmaComplete && AllAdcsDone(inputs.calibWindow)
    requires !FetchSaturates(inputs.realWindow, inputs.ready0, inputs.ready1)
    requires !FetchSaturates(inputs.calibWindow, inputs.ready0, inputs.ready1)
    requires !s.tracker.countingDown && inputs.preempt == [true]
    ensures ControlLoopSpec(cfg, s, inputs).after.errors0 == s.errors0
    ensures ControlLoopSpec(cfg, s, inputs).after.errors1 == s.errors1
    ensures ControlLoopSpec(cfg, s, inputs).after.tracker.timestamp == Wrap(s.tracker.timestamp + cfg.Increment())
  {
    PreemptedErrors(cfg, s, inputs);
    assert Alternates(s.tracker.countingDown, inputs.preempt);
    AlternatingRun(cfg.Increment(), s.tracker, inputs.preempt);
  }

  /**
   * Task timers are one-shot: a trough update enables them if they are armed,
   * and the control-loop handler that update raises clears both the enable
   * and the armed flag, even when its own peak update is the one preempting it.
   */
  lemma TaskTimersAreOneShot(cfg: Config, s: Snapshot, pwmInputs: seq<seq<real>>, inputs: ControlInputs)
    requires cfg.Valid() && PwmFits(|s.gpioPwm|, cfg.pwmGpios, pwmInputs)
    requires s.tracker.countingDown
    requires inputs.pwmInputs == pwmInputs && inputs.preempt == [true]
    ensures var trough := UpdateSpec(cfg, s, false, pwmInputs);
            var r := ControlLoopSpec(cfg, trough, inputs).after;
            && trough.taskTimerEnabled == s.taskTimersArmed
            && !r.taskTimerEnabled && !r.taskTimersArmed
  {
    var trough := UpdateSpec(cfg, s, false, pwmInputs);
    var s1 := FirstWindow(cfg, trough, inputs).state;
    assert inputs.preempt[..0] == [];
  }
}
