# ODrive v3 board layer: current sampling and interrupt dispatch

A Dafny model of the sampling and dispatch core of the ODrive v3 board support
layer (`Firmware/Board/v3/board.cpp`). It covers the following:

- **Current sensing.** One raw 12-bit ADC code becomes a phase current. Codes
  outside the amplifier's linear window `[372, 3723]` are rejected and set
  motor 0's saturation bit. Phase A is rebuilt from B and C by Kirchhoff's
  current law.
- **`fetch_and_reset_adcs`.** It collects both motors' phase currents from
  ADC2/ADC3, using the injected data register for motor 0 and the regular one
  for motor 1. It does so only when every conversion is done, and afterwards
  clears the status flags.
- **The timer-update interrupt (`TIM8_UP_TIM13_IRQHandler`).** It tracks the
  PWM carrier's counting direction and advances the shared `uint32`
  timestamp modulo 2^32. It flags a missed update when the direction did not
  flip. At the trough it enables the task timers, copies the PWM-input
  captures and raises the control-loop interrupt. At the peak it parks all
  six compare registers at 50% duty.
- **The control-loop interrupt (`ControlLoop_IRQHandler`).** It has two ADC
  windows (real current, then zero current), each loaded as the hardware
  left it, the BAD_TIMING checks and the
  forced zero current of a power stage that is not switching. It makes its
  fixed series of callbacks with their timestamps. It ends with the deadline
  check (exactly one timer update accepted in between) and the one-shot
  task-timer bookkeeping.
- **The start-up board-version gate.** The OTP block is read, or the RAM copy
  when the flash OTP is still erased. Bytes 3..5 must match the build's
  hardware version.

Modules:

- `U32`: `uint32_t` wrap-around.
- `MotorErrors`: the error bitmask as a set of flags. OR-ing a bit in is
  union.
- `CurrentSense`: the conversion and the fetch, as functions of the ADC
  registers.
- `PhaseTracker`: the timestamp/direction tracker and runs of updates.
- `BoardVersion`: the OTP selection and the version gate.
- `Dispatch`: the board state as a `Snapshot` value, plus a specification
  function for each handler.
- `BoardSupport`: the class `Board`, whose fields are the firmware globals and
  hardware registers. Its methods implement both handlers in place and are
  proved to change the state exactly as the `Dispatch` functions say.
- `ControlProperties`: what the control-loop handler promises, proved about
  its specification.

The timer-update interrupts that preempt the control-loop handler run at one
point: after `control_loop_cb`, where the handler busy-waits for the second
ADC window. That is where a timer update normally preempts it. Their observed
directions are an input sequence.

## Model

| member | source | states |
|---|---|---|
| U32.WrapAdd | Firmware/Board/v3/board.cpp:793 | accumulating into the `uint32` timestamp one increment at a time gives the same value as wrapping the total sum once |
| MotorErrors.DisarmWithError | Firmware/Board/v3/board.cpp:786-790 | disarming with an error sets that bit, keeps every bit already set and adds no other |
| MotorErrors.RaiseIf | Firmware/Board/v3/board.cpp:827-830 | the bit is present afterwards iff it was present before or the condition held; no other bit appears and none disappears |
| CurrentSense.CurrentAdcBounds | Firmware/Board/v3/board.cpp:692-698 | the truncated bounds for 0.3 V and 3.0 V on a 4096-code, 3.3 V ADC are 372 and 3723, with half scale strictly inside |
| CurrentSense.Amps | Firmware/Board/v3/board.cpp:707-710 | with a positive gain the current is positive exactly above half scale and negative exactly below it: the 1.65 V centre point is zero current |
| CurrentSense.PhaseCurrentFromAdcval | Firmware/Board/v3/board.cpp:700-711 | a code is rejected exactly when it is below the lower or above the upper bound; a rejected code ORs the saturation bit into motor 0's mask (no disarm) and changes nothing else; an accepted code yields (code - 2048) · 3.3/4096 · gain / shunt |
| CurrentSense.ZeroExactlyAtHalfScale | Firmware/Board/v3/board.cpp:707-710 | for a non-zero gain an accepted code reads zero current iff it is exactly half scale (2048) |
| CurrentSense.StrictlyIncreasing | Firmware/Board/v3/board.cpp:707-710 | with a positive gain the conversion is strictly monotone in the code |
| CurrentSense.SaturationIsSticky | Firmware/Board/v3/board.cpp:702-705 | once motor 0's saturation bit is set, no series of further conversions clears it |
| CurrentSense.ReconstructTriple | Firmware/Board/v3/board.cpp:729 | the rebuilt triple keeps phases B and C and its three phases sum to zero |
| CurrentSense.ResetFlags | Firmware/Board/v3/board.cpp:741-743 | after the status writes ADC1's JEOC and ADC2/ADC3's EOC, JEOC and OVR read clear, and every other flag and every data register is unchanged |
| CurrentSense.SampleMotor | Firmware/Board/v3/board.cpp:725-731 | a ready motor with both codes in range gets the reconstructed triple; otherwise its output keeps its previous value; saturation is raised iff the motor is ready and either code is out of range |
| CurrentSense.FetchAndResetAdcs | Firmware/Board/v3/board.cpp:713-746 | reports done iff all ADCs finished; when not done nothing changes; when done the flags are reset; an output changes only for a ready motor whose two codes are both in range, and then sums to zero; with both codes in range it is the reconstructed triple (motor 0 from the injected, motor 1 from the regular registers); saturation lands on motor 0 iff some ready motor's code is out of range |
| CurrentSense.FetchKeepsOrReplaces | Firmware/Board/v3/board.cpp:725-738 | each output of a fetch is its motor's fresh triple when the ADCs are done, the driver is ready and both codes are accepted, and the value passed in otherwise |
| PhaseTracker.Step | Firmware/Board/v3/board.cpp:783-793 | a repeated direction leaves the tracker untouched; a flipped one is stored and advances the timestamp by one increment modulo 2^32 |
| PhaseTracker.Run | Firmware/Board/v3/board.cpp:785-791 | after a non-empty series the tracker holds the last observed direction, whether that update was accepted or missed; an empty series changes nothing |
| PhaseTracker.AnyMissedExtend | Firmware/Board/v3/board.cpp:785-790 | a series contains a missed update iff its prefix does or its last update repeats the tracked direction |
| PhaseTracker.DirectionIndependentOfIncrement | Firmware/Board/v3/board.cpp:785-791 | the tracked direction depends only on the observed directions, not on the timestamp increment |
| PhaseTracker.RunTimestamp | Firmware/Board/v3/board.cpp:793 | after any series of updates the timestamp has advanced by exactly one increment per accepted update, modulo 2^32 |
| PhaseTracker.RunAppend | Firmware/Board/v3/board.cpp:774-793 | running a concatenation of update series is running them one after the other |
| PhaseTracker.RepeatedDirectionIsSkipped | Firmware/Board/v3/board.cpp:785-790 | an update that repeats the direction is skipped: the rest of the series runs as if it had not happened |
| PhaseTracker.AlternatingRun | Firmware/Board/v3/board.cpp:783-793 | a strictly alternating series misses nothing, accepts every update, ends in the last direction and advances the timestamp by n increments |
| PhaseTracker.DeadlineCheckCountsUpdates | Firmware/Board/v3/board.cpp:901 | the timestamp equals the captured one plus one increment iff exactly one update was accepted (absent a full 2^32 wrap) |
| BoardVersion.CheckBoardVersion | Firmware/Board/v3/board.cpp:393-397 | the check passes iff OTP bytes 3, 4, 5 equal the build's major, minor and voltage |
| BoardVersion.SelectOtp | Firmware/Board/v3/board.cpp:406-410 | the fake OTP is used exactly when the flash OTP's first byte is 0xff |
| BoardVersion.VersionGate | Firmware/Board/v3/board.cpp:406-416 | start-up continues iff the selected OTP's version bytes match; otherwise it halts forever |
| BoardVersion.PristineOtpDefersToFake | Firmware/Board/v3/board.cpp:408-410 | with an erased flash OTP, its other bytes have no influence on the gate |
| Dispatch.NeutralCcr | Firmware/Board/v3/board.cpp:809-815 | all six compare registers hold TIM_1_8_PERIOD_CLOCKS / 2 |
| Dispatch.PwmCopy | Firmware/Board/v3/board.cpp:799-801 | the copy keeps the table's length, and a GPIO that is not among the entries copied so far keeps its value |
| Dispatch.PwmCopyAt | Firmware/Board/v3/board.cpp:799-801 | with distinct GPIOs, GPIO `pwm_gpios[j]` holds channel j % 4 of input j / 4 after the copy, and every GPIO not in the table is untouched |
| Dispatch.UpdateSpec | Firmware/Board/v3/board.cpp:774-817 | a repeated direction adds TIMER_UPDATE_MISSED to both motors and changes nothing else; a flipped one stores the direction and advances the timestamp; at the trough the task timers take the armed flag, the PWM captures are copied and the control interrupt is raised; at the peak the six compare registers go to 50% |
| Dispatch.UpdatesSpec | Firmware/Board/v3/board.cpp:774-817 | a series of timer updates never touches the ADCs, ADC1's DMA flag or the armed flag, and adds no error bit but TIMER_UPDATE_MISSED to either motor |
| Dispatch.UpdatesTrackRun | Firmware/Board/v3/board.cpp:783-793 | over a series of updates the handler's timestamp and direction follow the phase tracker's run |
| Dispatch.UpdatesErrors | Firmware/Board/v3/board.cpp:785-790 | over a series of updates each motor gains TIMER_UPDATE_MISSED iff some update repeated the direction, and no other bit |
| Dispatch.AlternatingUpdatesAreClean | Firmware/Board/v3/board.cpp:774-817 | a correctly alternating series sets no error bit and advances the timestamp by n increments |
| Dispatch.FirstWindow | Firmware/Board/v3/board.cpp:821-864 | the first stage clears the pending bit and the DMA flag and touches only the error bits and the ADCs; a motor whose power stage is not switching holds the all-zero current, a switching one the real-current window's fresh triple, or none when that fetch failed |
| Dispatch.SecondWindow | Firmware/Board/v3/board.cpp:877-880 | the calibration fetch touches only the error bits and the ADCs; each motor's current becomes the calibration window's fresh triple when there is one and stays what it was otherwise |
| Dispatch.Finish | Firmware/Board/v3/board.cpp:901-907 | the end of the handler changes only the error bits and the task-timer flags; the armed flag survives only if the task timers were not enabled, and TaskTimer::enabled ends false |
| Dispatch.ControlLoopSpec | Firmware/Board/v3/board.cpp:819-908 | the whole handler keeps the GPIO value table's size and always ends with the task timers disabled and ADC1's DMA flag cleared |
| BoardSupport.Board.constructor | Firmware/Board/v3/board.cpp:771-772 | power-on state: timestamp 0, counting up, no error bits, and the task timers disabled as `TaskTimer::enabled` is initialised at board.cpp:23 |
| BoardSupport.Board.DisarmBoth | Firmware/Board/v3/board.cpp:787-788 | both motors are disarmed with the same error |
| BoardSupport.Board.CopyPwmInputs | Firmware/Board/v3/board.cpp:799-801 | the in-place loop leaves `gpio_pwm_values` as the specified copy |
| BoardSupport.Board.Tim8UpdateIrq | Firmware/Board/v3/board.cpp:774-817 | the in-place handler changes the board state exactly as `Dispatch.UpdateSpec` and logs `sampling_cb` only on an accepted trough |
| BoardSupport.Board.FetchAndReset | Firmware/Board/v3/board.cpp:713-746 | the in-place fetch returns and stores exactly what `CurrentSense.FetchAndResetAdcs` computes; motor 1's bits are untouched |
| BoardSupport.Board.SampleFirstWindow | Firmware/Board/v3/board.cpp:821-864 | the handler's first block loads the real-current window and DMA flag the hardware left, then changes the state as `Dispatch.FirstWindow` |
| BoardSupport.Board.SampleSecondWindow | Firmware/Board/v3/board.cpp:871-880 | the calibration fetch changes the state as `Dispatch.SecondWindow` |
| BoardSupport.Board.FinishPeriod | Firmware/Board/v3/board.cpp:901-907 | the deadline check and task-timer bookkeeping change the state as `Dispatch.Finish` |
| BoardSupport.Board.Preempt | Firmware/Board/v3/board.cpp:774-817 | a series of preempting timer updates changes the state as `Dispatch.UpdatesSpec` and logs their callbacks |
| BoardSupport.Board.ControlLoopEntry | Firmware/Board/v3/board.cpp:819-875 | up to the wait on the second window, the handler's state and callbacks are the first window's, then the preempting updates' |
| BoardSupport.Board.ControlLoopIrq | Firmware/Board/v3/board.cpp:819-908 | the in-place handler changes the board state and makes the callbacks exactly as `Dispatch.ControlLoopSpec` |
| ControlProperties.ErrorsOnlyGrow | Firmware/Board/v3/board.cpp:819-908 | the control-loop handler never clears an error bit of either motor |
| ControlProperties.PreemptedErrors | Firmware/Board/v3/board.cpp:785-793 | the preempting updates add only TIMER_UPDATE_MISSED, exactly when one of them missed, and move the tracker as the phase tracker does |
| ControlProperties.BadTimingIff | Firmware/Board/v3/board.cpp:827-880 | BAD_TIMING is set on both motors iff it was before, or the real-current window's ADCs or ADC1's DMA were not done, or the calibration window's ADCs were not done |
| ControlProperties.DeadlineMissedIff | Firmware/Board/v3/board.cpp:901-904 | CONTROL_DEADLINE_MISSED is set on both motors iff it was before or the number of updates accepted during the handler is not exactly one, as long as (accepted + 1) increments stay below 2^32 |
| ControlProperties.SaturationLandsOnMotor0 | Firmware/Board/v3/board.cpp:702-705 | over a whole handler run, saturation of either motor's channel in either window raises motor 0's bit, and motor 1's bit never changes |
| ControlProperties.CallbackSchedule | Firmware/Board/v3/board.cpp:866-896 | the callbacks are, in order: both current measurements (motor 0 at ts - TIM1_INIT_COUNT), the control loop at ts, only sampling callbacks from the preempting updates, then the DC calibrations one increment later and the PWM and brake-resistor updates three increments later, all modulo 2^32 |
| ControlProperties.OnlySamplingCallbacks | Firmware/Board/v3/board.cpp:795-803 | timer updates make no callback but `sampling_cb` |
| ControlProperties.FirstWindowKirchhoff | Firmware/Board/v3/board.cpp:859-864 | the real-current window hands out no current, the zero current, or a triple summing to zero |
| ControlProperties.SecondWindowKirchhoff | Firmware/Board/v3/board.cpp:877-880 | the calibration window preserves the property that every reported current sums to zero |
| ControlProperties.CurrentsObeyKirchhoff | Firmware/Board/v3/board.cpp:729-737 | every current handed to a measurement or calibration callback is absent or sums to zero over the three phases |
| ControlProperties.ControlEventsAt | Firmware/Board/v3/board.cpp:866-883 | the handler's series has nine fixed callbacks around the preempting ones: both measurements first, both calibrations sixth and fifth from the end |
| ControlProperties.ReportedCurrents | Firmware/Board/v3/board.cpp:859-883 | current_meas_cb gets the all-zero current for a non-switching stage and otherwise the real-current window's triple, or none when that fetch failed; dc_calib_cb gets the calibration window's triple when there is one and otherwise what current_meas_cb got |
| ControlProperties.MoeClearReportsZero | Firmware/Board/v3/board.cpp:859-864 | a motor whose power stage is not switching is reported the all-zero current |
| ControlProperties.StaleCalibrationRepeatsMeasurement | Firmware/Board/v3/board.cpp:877-882 | when the calibration window is unusable for motor 0, its DC-calibration callback gets the same value as its measurement callback |
| ControlProperties.NominalPeriodIsClean | Firmware/Board/v3/board.cpp:819-908 | with every ADC and the DMA done, all codes in range and exactly the peak update in between, no error bit is added and the timestamp advances by exactly one increment |
| ControlProperties.TaskTimersAreOneShot | Firmware/Board/v3/board.cpp:906-907 | a trough enables the task timers if armed, and the control handler it raises clears both the enable and the armed flag |

## Left out

- The bus-voltage reading (`board.vbus_voltage` from ADC1's injected data) is not modelled. It depends on `VBUS_S_DIVIDER_RATIO`, floating point and a value nothing here reads.
- The GPIO ADC normalisation (`gpio_adc_values`) and the FET thermistor polynomial (`motor_fet_temperatures`) are not modelled. They are pure floating-point conversions with no influence on the dispatch logic.
- The DMA flag index lookup, `COUNT_IRQ`, `MEASURE_TIME` and the clearing of TIM8's update flag are not modelled. They are hardware bookkeeping with no effect on the modelled state.
- The callbacks themselves are not modelled. The motor, axis, brake-resistor and `control_loop_cb` bodies are outside this layer, so the model records each callback, with its arguments, as an event. Their effects, such as the control loop writing the compare registers, are not modelled.
- Peripheral initialisation (`init`, `start_timers`, clock setup) and the other interrupt forwarders are not modelled. They are configuration code; only the OTP selection and the version gate of `init` are modelled.
- Preemption is modelled at one point only. The timer updates that preempt the control-loop handler run together where it waits on the second ADC window. An update arriving at any other point of the handler is not modelled.
- The busy-wait on ADC2's EOC flag is modelled as a precondition of `BoardSupport.Board.ControlLoopIrq` (the flag is set in the calibration window). A wait that never ends is not modelled.
- `float` arithmetic is modelled as exact real arithmetic. Rounding in the current conversion is not modelled.
- `SHUNT_RESISTANCE`, `TIM_1_8_PERIOD_CLOCKS`, `TIM_1_8_RCR`, `TIM1_INIT_COUNT` and the `HW_VERSION_*` values are defined in `board.h`, which is not part of this model. They are parameters (`Dispatch.Config`, `BoardVersion.HwVersion`), and the proofs hold for every valid choice.
- The `pwm_gpios` table (`board.cpp:261-265`: empty up to hardware minor version 2, otherwise GPIOs 1 to 4) depends on the build's hardware version. It is a field of `Dispatch.Config`, and the proofs hold for any table.
- The gate-driver readiness and the gain are read once per handler run (`ready0`/`ready1` and `revGain0`/`revGain1` of `Dispatch.ControlInputs`) and used by both windows. The code reads them again in the second fetch, after `control_loop_cb` has run, so a change made by the control loop between the two fetches is not modelled.
- The hardware's completion of the conversions and of ADC1's DMA transfer is modelled as two loads: the real-current window (`realWindow`, `dmaComplete`) on entry to the control-loop handler, and `calibWindow` before the second fetch. The hardware's timing of those conversions is not modelled.
- `board.kAdcMaxVoltage` is defined outside `board.cpp`. It is taken as 3.3 V, the value the 1.65 V centre-point comment beside the sense bounds implies.
- The error bits' numeric values live in the motor class, which is not part of this model. The bitmask is a set of four flags.
- Saturation is raised on motor 0 whichever motor's channel saturated, as the code does. Raising it on the owning axis, as the TODO at `board.cpp:703` intends, is not modelled.
- PhaseTracker.DeadlineCheckCountsUpdates (and ControlProperties.DeadlineMissedIff, which uses it): holds only while (accepted + 1) · increment < 2^32, because the uint32 comparison cannot tell apart counts that differ by a full wrap.
