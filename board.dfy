/**
 * The v3 board layer's interrupt-time state and its two interrupt handlers,
 * as a class whose fields are the firmware's globals and hardware registers.
 * Each handler is proved to change the state exactly as its specification in
 * Dispatch says.
 */
module BoardSupport {
  import opened Wrappers
  import opened U32
  import opened MotorErrors
  import opened CurrentSense
  import opened PhaseTracker
  import opened Dispatch

  class Board {
    const cfg: Config
    /** motors[0].error_ and motors[1].error_. */
    const motorErrors: array<ErrorSet>
    /** TIM1->CCR1, CCR2, CCR3, then TIM8->CCR1, CCR2, CCR3. */
    const ccr: array<int>
    /** board.gpio_pwm_values, indexed by GPIO number. */
    const gpioPwmValues: array<real>
    /** timestamp_ and counting_down_. */
    var timestamp: u32
    var countingDown: bool
    /** The pending bit of the control-loop interrupt, set through NVIC->STIR. */
    var controlIrqPending: bool
    /** TaskTimer::enabled and odrv.task_timers_armed_. */
    var taskTimerEnabled: bool
    var taskTimersArmed: bool
    /** ADC1, ADC2, ADC3 status and data registers, and ADC1's DMA transfer-complete flag. */
    var adcs: AdcBank
    var adcDmaComplete: bool
    /** The callbacks made so far. */
    ghost var log: seq<Event>

    ghost predicate Valid()
      reads this
    {
      && cfg.Valid()
      && motorErrors.Length == 2
      && ccr.Length == 6
      && forall i | 0 <= i < |cfg.pwmGpios| :: cfg.pwmGpios[i] < gpioPwmValues.Length
    }

    ghost function Snap(): Snapshot
      reads this, motorErrors, ccr, gpioPwmValues
      requires Valid()
    {
      Snapshot(Tracker(timestamp, countingDown), motorErrors[0], motorErrors[1], ccr[..], gpioPwmValues[..],
               controlIrqPending, taskTimerEnabled, taskTimersArmed, adcs, adcDmaComplete)
    }

    /** Power-on state: timestamp_ is 0, counting_down_ false, TaskTimer::enabled false, no errors. */
    constructor (cfg: Config, gpioCount: nat, taskTimersArmed: bool, adcs: AdcBank)
      requires cfg.Valid()
      requires forall i | 0 <= i < |cfg.pwmGpios| :: cfg.pwmGpios[i] < gpioCount
      ensures Valid() && fresh(motorErrors) && fresh(ccr) && fresh(gpioPwmValues)
      ensures this.cfg == cfg && gpioPwmValues.Length == gpioCount
      ensures timestamp == 0 && !countingDown && !controlIrqPending
      ensures !taskTimerEnabled && this.taskTimersArmed == taskTimersArmed
      ensures motorErrors[..] == [{}, {}] && this.adcs == adcs && !adcDmaComplete && log == []
    {
      this.cfg := cfg;
      motorErrors := new ErrorSet[2](_ => {});
      ccr := new int[6](_ => 0);
      gpioPwmValues := new real[gpioCount](_ => 0.0);
      timestamp, countingDown := 0, false;
      controlIrqPending := false;
      taskTimerEnabled, this.taskTimersArmed := false, taskTimersArmed;
      this.adcs, adcDmaComplete := adcs, false;
      log := [];
    }

    /** Both motors' disarm_with_error(e). */
    method DisarmBoth(e: MotorError)
      requires Valid()
      modifies motorErrors
      ensures motorErrors[0] == DisarmWithError(old(motorErrors[0]), e)
      ensures motorErrors[1] == DisarmWithError(old(motorErrors[1]), e)
    {
      motorErrors[0] := DisarmWithError(motorErrors[0], e);
      motorErrors[1] := DisarmWithError(motorErrors[1], e);
    }

    /** The copy of each PWM input channel's last value into its GPIO's slot of gpio_pwm_values. */
    method CopyPwmInputs(pwmInputs: seq<seq<real>>)
      requires Valid()
      requires PwmFits(gpioPwmValues.Length, cfg.pwmGpios, pwmInputs)
      modifies gpioPwmValues
      ensures gpioPwmValues[..] == PwmCopy(old(gpioPwmValues[..]), cfg.pwmGpios, pwmInputs, |cfg.pwmGpios|)
    {
      var i := 0;
      while i < |cfg.pwmGpios|
        invariant 0 <= i <= |cfg.pwmGpios|
        invariant gpioPwmValues[..] == PwmCopy(old(gpioPwmValues[..]), cfg.pwmGpios, pwmInputs, i)
      {
        gpioPwmValues[cfg.pwmGpios[i]] := pwmInputs[i / 4][i % 4];
        i := i + 1;
      }
    }

    /** TIM8_UP_TIM13_IRQHandler, with TIM8's counting direction as read from TIM8->CR1. */
    method Tim8UpdateIrq(observedDown: bool, pwmInputs: seq<seq<real>>)
      requires Valid()
      requires PwmFits(gpioPwmValues.Length, cfg.pwmGpios, pwmInputs)
      modifies this, motorErrors, ccr, gpioPwmValues
      ensures Valid()
      ensures Snap() == UpdateSpec(cfg, old(Snap()), observedDown, pwmInputs)
      ensures log == old(log) + UpdateEvents(old(Snap()).tracker, observedDown)
    {
      ghost var s0 := Snap();
      if countingDown == observedDown {
        DisarmBoth(TimerUpdateMissed);
        assert ccr[..] == s0.ccr && gpioPwmValues[..] == s0.gpioPwm;
        return;
      }
      countingDown := observedDown;
      timestamp := Wrap(timestamp + cfg.Increment());
      if !observedDown {
        taskTimerEnabled := taskTimersArmed;
        CopyPwmInputs(pwmInputs);
        log := log + [SamplingCb];
        controlIrqPending := true;
        assert ccr[..] == s0.ccr;
      } else {
        var neutral := cfg.NeutralCompare();
        ccr[0], ccr[1], ccr[2], ccr[3], ccr[4], ccr[5] := neutral, neutral, neutral, neutral, neutral, neutral;
        assert ccr[..] == NeutralCcr(cfg);
        assert gpioPwmValues[..] == s0.gpioPwm;
      }
    }

    /**
     * fetch_and_reset_adcs: reads the ADCs into the two out-parameters when all
     * conversions are done, ORs saturation into motor 0 and clears the flags.
     */
    method FetchAndReset(ready0: bool, ready1: bool, revGain0: real, revGain1: real,
                         current0: Option<Iph>, current1: Option<Iph>)
      returns (done: bool, out0: Option<Iph>, out1: Option<Iph>)
      requires Valid()
      modifies this`adcs, motorErrors
      ensures var f := FetchAndResetAdcs(old(adcs), ready0, ready1, revGain0, revGain1, cfg.shuntResistance,
                                         current0, current1, old(motorErrors[0]));
              && done == f.done && out0 == f.current0 && out1 == f.current1
              && adcs == f.bank && motorErrors[0] == f.motor0Errors
      ensures motorErrors[1] == old(motorErrors[1])
    {
      var f := FetchAndResetAdcs(adcs, ready0, ready1, revGain0, revGain1, cfg.shuntResistance,
                                 current0, current1, motorErrors[0]);
      done, out0, out1 := f.done, f.current0, f.current1;
      adcs := f.bank;
      motorErrors[0] := f.motor0Errors;
    }

    /** The handler's first block: the real-current window and ADC1's DMA check. */
    method SampleFirstWindow(inputs: ControlInputs) returns (current0: Option<Iph>, current1: Option<Iph>)
      requires Valid()
      modifies this`adcs, this`adcDmaComplete, this`controlIrqPending, motorErrors
      ensures Valid()
      ensures var first := FirstWindow(cfg, old(Snap()), inputs);
              Snap() == first.state && current0 == first.current0 && current1 == first.current1
    {
      ghost var first := FirstWindow(cfg, Snap(), inputs);
      // The hardware has completed (or not) the real-current conversions and ADC1's DMA transfer.
      adcs, adcDmaComplete := inputs.realWindow, inputs.dmaComplete;
      controlIrqPending := false;
      var done;
      done, current0, current1 := FetchAndReset(inputs.ready0, inputs.ready1, inputs.revGain0, inputs.revGain1, None, None);
      if !done {
        DisarmBoth(BadTiming);
      }
      if !adcDmaComplete {
        DisarmBoth(BadTiming);
      }
      adcDmaComplete := false;
      if !inputs.moe0 {
        current0 := Some(ZeroCurrent);
      }
      if !inputs.moe1 {
        current1 := Some(ZeroCurrent);
      }
      assert motorErrors[0] == first.state.errors0 && motorErrors[1] == first.state.errors1;
    }

    /** The zero-current window, once the hardware has completed its conversions. */
    method SampleSecondWindow(inputs: ControlInputs, current0: Option<Iph>, current1: Option<Iph>)
      returns (calib0: Option<Iph>, calib1: Option<Iph>)
      requires Valid()
      modifies this`adcs, motorErrors
      ensures Valid()
      ensures var second := SecondWindow(cfg, old(Snap()), inputs, current0, current1);
              Snap() == second.state && calib0 == second.current0 && calib1 == second.current1
    {
      ghost var second := SecondWindow(cfg, Snap(), inputs, current0, current1);
      adcs := inputs.calibWindow;
      var done;
      done, calib0, calib1 := FetchAndReset(inputs.ready0, inputs.ready1, inputs.revGain0, inputs.revGain1,
                                            current0, current1);
      if !done {
        DisarmBoth(BadTiming);
      }
      assert motorErrors[0] == second.state.errors0 && motorErrors[1] == second.state.errors1;
    }

    /** The deadline check against the captured timestamp, then the task-timer bookkeeping. */
    method FinishPeriod(captured: u32)
      requires Valid()
      modifies this`taskTimersArmed, this`taskTimerEnabled, motorErrors
      ensures Valid()
      ensures Snap() == Finish(cfg, old(Snap()), captured)
    {
      ghost var finished := Finish(cfg, Snap(), captured);
      if timestamp != Wrap(captured + cfg.Increment()) {
        DisarmBoth(ControlDeadlineMissed);
      }
      taskTimersArmed := taskTimersArmed && !taskTimerEnabled;
      taskTimerEnabled := false;
      assert motorErrors[0] == finished.errors0 && motorErrors[1] == finished.errors1;
    }

    /**
     * The timer-update interrupts that preempt the control-loop handler,
     * one after the other: the stand-in for the higher interrupt priority.
     */
    method Preempt(observed: seq<bool>, pwmInputs: seq<seq<real>>)
      requires Valid()
      requires PwmFits(gpioPwmValues.Length, cfg.pwmGpios, pwmInputs)
      modifies this, motorErrors, ccr, gpioPwmValues
      ensures Valid()
      ensures Snap() == UpdatesSpec(cfg, old(Snap()), observed, pwmInputs)
      ensures log == old(log) + UpdatesLog(cfg, old(Snap()), observed, pwmInputs)
    {
      ghost var s0 := Snap();
      var i := 0;
      while i < |observed|
        invariant 0 <= i <= |observed|
        invariant Valid()
        invariant Snap() == UpdatesSpec(cfg, s0, observed[..i], pwmInputs)
        invariant log == old(log) + UpdatesLog(cfg, s0, observed[..i], pwmInputs)
      {
        assert observed[..i + 1][..i] == observed[..i];
        Tim8UpdateIrq(observed[i], pwmInputs);
        i := i + 1;
      }
      assert observed[..i] == observed;
    }

    /**
     * The control-loop handler up to its wait on the second window: the first
     * window, the callbacks made with its currents, and the timer updates
     * that preempt the handler while it waits.
     */
    method ControlLoopEntry(inputs: ControlInputs) returns (captured: u32, current0: Option<Iph>, current1: Option<Iph>)
      requires Valid()
      requires PwmFits(gpioPwmValues.Length, cfg.pwmGpios, inputs.pwmInputs)
      modifies this, motorErrors, ccr, gpioPwmValues
      ensures Valid()
      ensures var first := FirstWindow(cfg, old(Snap()), inputs);
              && captured == old(timestamp)
              && current0 == first.current0 && current1 == first.current1
              && Snap() == UpdatesSpec(cfg, first.state, inputs.preempt, inputs.pwmInputs)
              && log == old(log) + HeadEvents(cfg, captured, first)
                        + UpdatesLog(cfg, first.state, inputs.preempt, inputs.pwmInputs)
    {
      ghost var first := FirstWindow(cfg, Snap(), inputs);
      captured := timestamp;
      current0, current1 := SampleFirstWindow(inputs);
      log := log + HeadEvents(cfg, captured, first);
      Preempt(inputs.preempt, inputs.pwmInputs);
    }

    /**
     * ControlLoop_IRQHandler. The timer updates that preempt it are run where
     * the handler waits on the second ADC window, and the hardware's
     * completion of that window is the load of inputs.calibWindow.
     */
    method ControlLoopIrq(inputs: ControlInputs)
      requires Valid()
      requires PwmFits(gpioPwmValues.Length, cfg.pwmGpios, inputs.pwmInputs)
      // The busy-wait on ADC2's regular end-of-conversion flag ends only once it is set.
      requires inputs.calibWindow.adc2.eoc
      modifies this, motorErrors, ccr, gpioPwmValues
      ensures Valid()
      ensures Snap() == ControlLoopSpec(cfg, old(Snap()), inputs).after
      ensures log == old(log) + ControlLoopSpec(cfg, old(Snap()), inputs).events
    {
      ghost var s0 := Snap();
      ghost var first := FirstWindow(cfg, s0, inputs);
      ghost var preempted := UpdatesLog(cfg, first.state, inputs.preempt, inputs.pwmInputs);
      var captured, current0, current1 := ControlLoopEntry(inputs);
      ghost var second := SecondWindow(cfg, Snap(), inputs, current0, current1);
      current0, current1 := SampleSecondWindow(inputs, current0, current1);
      log := log + TailEvents(cfg, captured, second);
      FinishPeriod(captured);
      assert log == old(log) + ControlEvents(cfg, captured, first, preempted, second);
    }
  }
}
