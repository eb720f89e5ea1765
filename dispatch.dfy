/**
 * The two interrupt handlers of the v3 board layer, stated as functions of
 * the board state they touch: the half-cycle timer-update handler
 * (TIM8_UP_TIM13_IRQHandler) and the control-loop handler
 * (ControlLoop_IRQHandler). The class in BoardSupport implements both and is
 * proved against these functions; the lemmas here state what they promise.
 */
module Dispatch {
  import opened Wrappers
  import opened U32
  import opened MotorErrors
  import opened CurrentSense
  import opened PhaseTracker

  /**
   * Build-time constants of the board: TIM_1_8_PERIOD_CLOCKS, TIM_1_8_RCR,
   * TIM1_INIT_COUNT, SHUNT_RESISTANCE and the pwm_gpios table.
   */
  datatype Config = Config(periodClocks: nat, rcr: nat, tim1InitCount: nat, shuntResistance: real, pwmGpios: seq<nat>)
  {
    /** Timer clocks per timer-update event: TIM_1_8_PERIOD_CLOCKS * (TIM_1_8_RCR + 1). */
    function Increment(): nat { periodClocks * (rcr + 1) }

    /** The compare value of a 50% duty cycle: TIM_1_8_PERIOD_CLOCKS / 2. */
    function NeutralCompare(): nat { periodClocks / 2 }

    predicate Valid() { shuntResistance > 0.0 && 0 < Increment() }
  }

  /** Every PWM-input GPIO indexes the value table, and its capture value exists (four channels per input). */
  predicate PwmFits(gpioCount: nat, gpios: seq<nat>, pwmInputs: seq<seq<real>>) {
    forall i | 0 <= i < |gpios| :: gpios[i] < gpioCount && i / 4 < |pwmInputs| && |pwmInputs[i / 4]| == 4
  }

  /** board.gpio_pwm_values after the first n iterations of the copy loop over pwm_gpios. */
  function PwmCopy(values: seq<real>, gpios: seq<nat>, pwmInputs: seq<seq<real>>, n: nat): (r: seq<real>)
    requires n <= |gpios| && PwmFits(|values|, gpios, pwmInputs)
    ensures |r| == |values|
    // A GPIO that is not among the first n table entries keeps its value.
    ensures forall g | 0 <= g < |values| && g !in gpios[..n] :: r[g] == values[g]
  {
    if n == 0 then values
    else
      assert gpios[..n] == gpios[..n - 1] + [gpios[n - 1]];
      PwmCopy(values, gpios, pwmInputs, n - 1)[gpios[n - 1] := pwmInputs[(n - 1) / 4][(n - 1) % 4]]
  }

  /**
   * With distinct GPIOs, the copy leaves GPIO pwm_gpios[j] holding channel
   * j % 4 of input j / 4, and every other GPIO untouched.
   */
  lemma {:induction false} PwmCopyAt(values: seq<real>, gpios: seq<nat>, pwmInputs: seq<seq<real>>, n: nat, g: nat)
    requires n <= |gpios| && PwmFits(|values|, gpios, pwmInputs)
    requires forall i, j | 0 <= i < j < |gpios| :: gpios[i] != gpios[j]
    requires g < |values|
    ensures forall j | 0 <= j < n && gpios[j] == g :: PwmCopy(values, gpios, pwmInputs, n)[g] == pwmInputs[j / 4][j % 4]
    ensures g !in gpios[..n] ==> PwmCopy(values, gpios, pwmInputs, n)[g] == values[g]
  {
    if n > 0 {
      PwmCopyAt(values, gpios, pwmInputs, n - 1, g);
      assert gpios[..n] == gpios[..n - 1] + [gpios[n - 1]];
    }
  }

  /** The callbacks and hardware updates the handlers call out to, in the order they are made. */
  datatype Event =
    | SamplingCb
    | CurrentMeasCb(motor: nat, timestamp: u32, current: Option<Iph>)
    | ControlLoopCb(timestamp: u32)
    | DcCalibCb(motor: nat, timestamp: u32, current: Option<Iph>)
    | PwmUpdateCb(motor: nat, timestamp: u32)
    | BrakeResistorUpdate
    | BrakeResistorOutputUpdate(timestamp: u32)

  /**
   * The board state the handlers read and write: timestamp_ and
   * counting_down_, both motors' error bitmasks, the six compare registers
   * TIM1->CCR1..3 and TIM8->CCR1..3, board.gpio_pwm_values, the pending bit
   * of the control-loop interrupt, TaskTimer::enabled,
   * odrv.task_timers_armed_, the ADC registers and ADC1's DMA
   * transfer-complete flag.
   */
  datatype Snapshot = Snapshot(
    tracker: Tracker,
    errors0: ErrorSet,
    errors1: ErrorSet,
    ccr: seq<int>,
    gpioPwm: seq<real>,
    controlIrqPending: bool,
    taskTimerEnabled: bool,
    taskTimersArmed: bool,
    adcs: AdcBank,
    adcDmaComplete: bool)

  function NeutralCcr(cfg: Config): (r: seq<int>)
    ensures |r| == 6 && forall k | 0 <= k < 6 :: r[k] == cfg.NeutralCompare()
  {
    seq(6, _ => cfg.NeutralCompare())
  }

  /** One run of the timer-update handler that observed counting direction `observedDown`. */
  function UpdateSpec(cfg: Config, s: Snapshot, observedDown: bool, pwmInputs: seq<seq<real>>): (r: Snapshot)
    requires PwmFits(|s.gpioPwm|, cfg.pwmGpios, pwmInputs)
    ensures |r.gpioPwm| == |s.gpioPwm|
    // A repeated direction: both motors get TIMER_UPDATE_MISSED and nothing else changes.
    ensures observedDown == s.tracker.countingDown ==>
              r == s.(errors0 := s.errors0 + {TimerUpdateMissed}, errors1 := s.errors1 + {TimerUpdateMissed})
    // A flipped direction: it is stored and the timestamp advances by one increment, modulo 2^32.
    ensures observedDown != s.tracker.countingDown ==>
              && r.tracker == Tracker(Wrap(s.tracker.timestamp + cfg.Increment()), observedDown)
              && r.errors0 == s.errors0 && r.errors1 == s.errors1
              && r.adcs == s.adcs && r.adcDmaComplete == s.adcDmaComplete && r.taskTimersArmed == s.taskTimersArmed
    // Trough (counting up): task timers follow the armed flag and the control-loop interrupt is raised.
    ensures observedDown != s.tracker.countingDown && !observedDown ==>
              && r.controlIrqPending && r.taskTimerEnabled == s.taskTimersArmed
              && r.ccr == s.ccr
              && r.gpioPwm == PwmCopy(s.gpioPwm, cfg.pwmGpios, pwmInputs, |cfg.pwmGpios|)
    // Peak (counting down): all six compare registers go to 50% duty and nothing is raised.
    ensures observedDown != s.tracker.countingDown && observedDown ==>
              && r.ccr == NeutralCcr(cfg)
              && r.controlIrqPending == s.controlIrqPending && r.taskTimerEnabled == s.taskTimerEnabled
              && r.gpioPwm == s.gpioPwm
  {
    if observedDown == s.tracker.countingDown then
      s.(errors0 := DisarmWithError(s.errors0, TimerUpdateMissed),
         errors1 := DisarmWithError(s.errors1, TimerUpdateMissed))
    else
      var advanced := s.(tracker := Tracker(Wrap(s.tracker.timestamp + cfg.Increment()), observedDown));
      if !observedDown then
        advanced.(taskTimerEnabled := s.taskTimersArmed,
                  gpioPwm := PwmCopy(s.gpioPwm, cfg.pwmGpios, pwmInputs, |cfg.pwmGpios|),
                  controlIrqPending := true)
      else
        advanced.(ccr := NeutralCcr(cfg))
  }

  /** The sampling callback is made exactly on an accepted trough update. */
  function UpdateEvents(t: Tracker, observedDown: bool): seq<Event> {
    if observedDown != t.countingDown && !observedDown then [SamplingCb] else []
  }

  /** The state after a series of timer updates (the last one applied last). */
  function UpdatesSpec(cfg: Config, s: Snapshot, observed: seq<bool>, pwmInputs: seq<seq<real>>): (r: Snapshot)
    requires PwmFits(|s.gpioPwm|, cfg.pwmGpios, pwmInputs)
    ensures |r.gpioPwm| == |s.gpioPwm|
    // Timer updates never touch the ADCs, the DMA flag or the armed flag, and add no error but TIMER_UPDATE_MISSED.
    ensures r.adcs == s.adcs && r.adcDmaComplete == s.adcDmaComplete && r.taskTimersArmed == s.taskTimersArmed
    ensures s.errors0 <= r.errors0 && r.errors0 - s.errors0 <= {TimerUpdateMissed}
    ensures s.errors1 <= r.errors1 && r.errors1 - s.errors1 <= {TimerUpdateMissed}
  {
    if observed == [] then s
    else UpdateSpec(cfg, UpdatesSpec(cfg, s, observed[..|observed| - 1], pwmInputs), observed[|observed| - 1], pwmInputs)
  }

  /** The callbacks a series of timer updates makes. */
  function UpdatesLog(cfg: Config, s: Snapshot, observed: seq<bool>, pwmInputs: seq<seq<real>>): seq<Event>
    requires PwmFits(|s.gpioPwm|, cfg.pwmGpios, pwmInputs)
  {
    if observed == [] then []
    else
      var prefix := observed[..|observed| - 1];
      UpdatesLog(cfg, s, prefix, pwmInputs)
        + UpdateEvents(UpdatesSpec(cfg, s, prefix, pwmInputs).tracker, observed[|observed| - 1])
  }

  /** The handler's timestamp and direction evolve exactly as the phase tracker's. */
  lemma {:induction false} UpdatesTrackRun(cfg: Config, s: Snapshot, observed: seq<bool>, pwmInputs: seq<seq<real>>)
    requires PwmFits(|s.gpioPwm|, cfg.pwmGpios, pwmInputs)
    ensures UpdatesSpec(cfg, s, observed, pwmInputs).tracker == Run(cfg.Increment(), s.tracker, observed)
    decreases |observed|
  {
    if observed != [] {
      UpdatesTrackRun(cfg, s, observed[..|observed| - 1], pwmInputs);
    }
  }

  /**
   * Over a series of updates, the only error either motor can gain is
   * TIMER_UPDATE_MISSED, and it gains it exactly when some update saw a
   * repeated direction.
   */
  lemma {:induction false} UpdatesErrors(cfg: Config, s: Snapshot, observed: seq<bool>, pwmInputs: seq<seq<real>>)
    requires PwmFits(|s.gpioPwm|, cfg.pwmGpios, pwmInputs)
    ensures UpdatesSpec(cfg, s, observed, pwmInputs).errors0 == RaiseIf(s.errors0, AnyMissed(s.tracker, observed), TimerUpdateMissed)
    ensures UpdatesSpec(cfg, s, observed, pwmInputs).errors1 == RaiseIf(s.errors1, AnyMissed(s.tracker, observed), TimerUpdateMissed)
    decreases |observed|
  {
    if observed != [] {
      var prefix := observed[..|observed| - 1];
      var last := observed[|observed| - 1];
      UpdatesErrors(cfg, s, prefix, pwmInputs);
      UpdatesTrackRun(cfg, s, prefix, pwmInputs);
      DirectionIndependentOfIncrement(cfg.Increment(), 0, s.tracker, prefix);
      AnyMissedExtend(s.tracker, observed);
    }
  }

  /**
   * End to end: a correctly alternating series of n updates sets no error bit
   * and advances the timestamp by n increments modulo 2^32.
   */
  lemma AlternatingUpdatesAreClean(cfg: Config, s: Snapshot, observed: seq<bool>, pwmInputs: seq<seq<real>>)
    requires PwmFits(|s.gpioPwm|, cfg.pwmGpios, pwmInputs)
    requires Alternates(s.tracker.countingDown, observed)
    ensures UpdatesSpec(cfg, s, observed, pwmInputs).errors0 == s.errors0
    ensures UpdatesSpec(cfg, s, observed, pwmInputs).errors1 == s.errors1
    ensures UpdatesSpec(cfg, s, observed, pwmInputs).tracker.timestamp == Wrap(s.tracker.timestamp + |observed| * cfg.Increment())
  {
    UpdatesErrors(cfg, s, observed, pwmInputs);
    UpdatesTrackRun(cfg, s, observed, pwmInputs);
    AlternatingRun(cfg.Increment(), s.tracker, observed);
  }

  /** The inputs of one control-loop interrupt that come from outside this layer. */
  datatype ControlInputs = ControlInputs(
    moe0: bool,                   // TIM1->BDTR MOE: motor 0's power stage is switching
    moe1: bool,                   // TIM8->BDTR MOE: motor 1's power stage is switching
    ready0: bool,                 // m0_gate_driver.is_ready()
    ready1: bool,                 // m1_gate_driver.is_ready()
    revGain0: real,               // motors[0].phase_current_rev_gain_
    revGain1: real,               // motors[1].phase_current_rev_gain_
    preempt: seq<bool>,           // directions seen by the timer updates that preempt the handler
    pwmInputs: seq<seq<real>>,    // the PWM-input capture values those updates copy
    realWindow: AdcBank,          // the ADCs as the real-current conversions left them on entry
    dmaComplete: bool,            // ADC1's DMA transfer-complete flag on entry
    calibWindow: AdcBank)         // the ADCs once the zero-current conversions have completed

  datatype Outcome = Outcome(after: Snapshot, events: seq<Event>)

  /** The state after one of the handler's stages, with the currents it holds for each motor. */
  datatype Stage = Stage(state: Snapshot, current0: Option<Iph>, current1: Option<Iph>)

  /**
   * Entry (the pending bit is cleared) and the real-current window, whose
   * conversions the hardware has completed (or not) in inputs.realWindow:
   * fetch, BAD_TIMING for an unfinished ADC or DMA transfer, the DMA flag
   * cleared, and an all-zero current for a power stage that is not switching.
   * A switching motor holds the fetch's current, or none.
   */
  function FirstWindow(cfg: Config, s: Snapshot, inputs: ControlInputs): (r: Stage)
    requires cfg.Valid()
    ensures r.state == s.(controlIrqPending := false, errors0 := r.state.errors0, errors1 := r.state.errors1,
                          adcs := r.state.adcs, adcDmaComplete := false)
    ensures r.current0 ==
              if inputs.moe0 then FreshCurrent0(inputs.realWindow, inputs.ready0, inputs.revGain0, cfg.shuntResistance)
              else Some(ZeroCurrent)
    ensures r.current1 ==
              if inputs.moe1 then FreshCurrent1(inputs.realWindow, inputs.ready1, inputs.revGain1, cfg.shuntResistance)
              else Some(ZeroCurrent)
  {
    var f1 := FetchAndResetAdcs(inputs.realWindow, inputs.ready0, inputs.ready1, inputs.revGain0, inputs.revGain1,
                                cfg.shuntResistance, None, None, s.errors0);
    FetchKeepsOrReplaces(inputs.realWindow, inputs.ready0, inputs.ready1, inputs.revGain0, inputs.revGain1,
                         cfg.shuntResistance, None, None, s.errors0);
    Stage(s.(controlIrqPending := false,
             errors0 := RaiseIf(RaiseIf(f1.motor0Errors, !f1.done, BadTiming), !inputs.dmaComplete, BadTiming),
             errors1 := RaiseIf(RaiseIf(s.errors1, !f1.done, BadTiming), !inputs.dmaComplete, BadTiming),
             adcs := f1.bank,
             adcDmaComplete := false),
          if inputs.moe0 then f1.current0 else Some(ZeroCurrent),
          if inputs.moe1 then f1.current1 else Some(ZeroCurrent))
  }

  /**
   * The zero-current window: fetch into the currents held so far, BAD_TIMING
   * if the ADCs are not done. Each motor's current is replaced by the fresh
   * one when there is one, and kept otherwise.
   */
  function SecondWindow(cfg: Config, s: Snapshot, inputs: ControlInputs, current0: Option<Iph>, current1: Option<Iph>): (r: Stage)
    requires cfg.Valid()
    ensures r.state == s.(errors0 := r.state.errors0, errors1 := r.state.errors1, adcs := r.state.adcs)
    ensures r.current0 == Latest(FreshCurrent0(inputs.calibWindow, inputs.ready0, inputs.revGain0, cfg.shuntResistance), current0)
    ensures r.current1 == Latest(FreshCurrent1(inputs.calibWindow, inputs.ready1, inputs.revGain1, cfg.shuntResistance), current1)
  {
    var f2 := FetchAndResetAdcs(inputs.calibWindow, inputs.ready0, inputs.ready1, inputs.revGain0, inputs.revGain1,
                                cfg.shuntResistance, current0, current1, s.errors0);
    FetchKeepsOrReplaces(inputs.calibWindow, inputs.ready0, inputs.ready1, inputs.revGain0, inputs.revGain1,
                         cfg.shuntResistance, current0, current1, s.errors0);
    Stage(s.(errors0 := RaiseIf(f2.motor0Errors, !f2.done, BadTiming),
             errors1 := RaiseIf(s.errors1, !f2.done, BadTiming),
             adcs := f2.bank),
          f2.current0, f2.current1)
  }

  /** The deadline check against the captured timestamp, then the task-timer bookkeeping. */
  function Finish(cfg: Config, s: Snapshot, captured: u32): (r: Snapshot)
    ensures r == s.(errors0 := r.errors0, errors1 := r.errors1, taskTimersArmed := r.taskTimersArmed,
                    taskTimerEnabled := false)
    // The armed flag survives only a period in which the task timers were not enabled.
    ensures r.taskTimersArmed == (s.taskTimersArmed && !s.taskTimerEnabled)
  {
    var late := s.tracker.timestamp != Wrap(captured + cfg.Increment());
    s.(errors0 := RaiseIf(s.errors0, late, ControlDeadlineMissed),
       errors1 := RaiseIf(s.errors1, late, ControlDeadlineMissed),
       taskTimersArmed := s.taskTimersArmed && !s.taskTimerEnabled,
       taskTimerEnabled := false)
  }

  /** The callbacks made before the handler waits on the second window. */
  function HeadEvents(cfg: Config, captured: u32, first: Stage): seq<Event> {
    [CurrentMeasCb(0, Wrap(captured - cfg.tim1InitCount), first.current0),
     CurrentMeasCb(1, captured, first.current1),
     ControlLoopCb(captured)]
  }

  /** The callbacks made once the second window has been fetched. */
  function TailEvents(cfg: Config, captured: u32, second: Stage): seq<Event> {
    var inc := cfg.Increment();
    [DcCalibCb(0, Wrap(captured + inc - cfg.tim1InitCount), second.current0),
     DcCalibCb(1, Wrap(captured + inc), second.current1),
     PwmUpdateCb(0, Wrap(captured + 3 * inc - cfg.tim1InitCount)),
     PwmUpdateCb(1, Wrap(captured + 3 * inc)),
     BrakeResistorUpdate,
     BrakeResistorOutputUpdate(Wrap(captured + 3 * inc - cfg.tim1InitCount))]
  }

  /** The callbacks of the handler's fixed sequence, around those of the preempting updates. */
  function ControlEvents(cfg: Config, captured: u32, first: Stage, preempted: seq<Event>, second: Stage): seq<Event> {
    HeadEvents(cfg, captured, first) + preempted + TailEvents(cfg, captured, second)
  }

  /** The whole control-loop handler: its effect on the board state and the callbacks it makes. */
  function ControlLoopSpec(cfg: Config, s: Snapshot, inputs: ControlInputs): (r: Outcome)
    requires cfg.Valid()
    requires PwmFits(|s.gpioPwm|, cfg.pwmGpios, inputs.pwmInputs)
    ensures |r.after.gpioPwm| == |s.gpioPwm|
    // The handler always ends with the task timers disabled and ADC1's DMA flag cleared.
    ensures !r.after.taskTimerEnabled && !r.after.adcDmaComplete
  {
    var first := FirstWindow(cfg, s, inputs);
    var preempted := UpdatesSpec(cfg, first.state, inputs.preempt, inputs.pwmInputs);
    var second := SecondWindow(cfg, preempted, inputs, first.current0, first.current1);
    Outcome(Finish(cfg, second.state, s.tracker.timestamp),
            ControlEvents(cfg, s.tracker.timestamp, first,
                          UpdatesLog(cfg, first.state, inputs.preempt, inputs.pwmInputs), second))
  }
}
