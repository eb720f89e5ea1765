/**
 * Phase-current sensing of the v3 board: the range check and scaling of one raw
 * ADC code (phase_current_from_adcval) and the collection of both motors'
 * phase currents from the three ADCs (fetch_and_reset_adcs).
 */
module CurrentSense {
  import opened Wrappers
  import opened U32
  import opened MotorErrors

  /** kAdcFullScale: the 12-bit ADC's full-scale code count. */
  const AdcFullScale: int := 4096
  /** board.kAdcMaxVoltage: the ADC reference voltage, 3.3 V (the sense window is centred on 1.65 V). */
  const AdcMaxVoltage: real := 3.3
  /** The usable linear output range of the DRV8301 current-sense amplifier, made symmetric about 1.65 V. */
  const CurrentSenseMinVolt: real := 0.3
  const CurrentSenseMaxVolt: real := 3.0

  /** The code a voltage corresponds to, truncated as the (uint32_t) cast does for a positive value. */
  function AdcCodeOf(volt: real): int
    requires volt >= 0.0
  {
    ((AdcFullScale as real) * volt / AdcMaxVoltage).Floor
  }

  const CurrentAdcLowerBound: int := AdcCodeOf(CurrentSenseMinVolt)
  const CurrentAdcUpperBound: int := AdcCodeOf(CurrentSenseMaxVolt)
  const HalfScale: int := AdcFullScale / 2

  /** The sense window is [372, 3723] and contains half scale strictly inside it. */
  lemma CurrentAdcBounds()
    ensures CurrentAdcLowerBound == 372 && CurrentAdcUpperBound == 3723
    ensures CurrentAdcLowerBound < HalfScale < CurrentAdcUpperBound
  {
    assert (AdcFullScale as real) * CurrentSenseMinVolt / AdcMaxVoltage == 12288.0 / 33.0;
    assert (AdcFullScale as real) * CurrentSenseMaxVolt / AdcMaxVoltage == 122880.0 / 33.0;
  }

  predicate InSenseWindow(code: u32) {
    CurrentAdcLowerBound <= code <= CurrentAdcUpperBound
  }

  /**
   * The current an accepted code stands for, in the firmware's order of
   * factors. With a positive gain its sign is that of the code's offset from
   * half scale: the 1.65 V centre point is zero current.
   */
  function Amps(code: int, revGain: real, shuntResistance: real): (r: real)
    requires shuntResistance > 0.0
    ensures revGain > 0.0 ==> (r > 0.0 <==> code > HalfScale) && (r < 0.0 <==> code < HalfScale)
  {
    var k := (AdcMaxVoltage / AdcFullScale as real) * revGain * (1.0 / shuntResistance);
    var offset := (code as real) - (AdcFullScale as real) / 2.0;
    if revGain > 0.0 then
      PositiveProduct(AdcMaxVoltage / AdcFullScale as real, revGain, 1.0 / shuntResistance);
      SignOfProduct(offset, k);
      offset * (AdcMaxVoltage / AdcFullScale as real) * revGain * (1.0 / shuntResistance)
    else
      offset * (AdcMaxVoltage / AdcFullScale as real) * revGain * (1.0 / shuntResistance)
  }

  /** Multiplying by a positive factor keeps the sign. */
  lemma SignOfProduct(a: real, k: real)
    requires k > 0.0
    ensures (a * k > 0.0 <==> a > 0.0) && (a * k < 0.0 <==> a < 0.0)
  {
    if a > 0.0 {
      PositiveProduct(a, k, 1.0);
    } else if a < 0.0 {
      PositiveProduct(-a, k, 1.0);
    }
  }

  /**
   * One conversion: the optional current, and motor 0's error bitmask after the
   * call. The saturation bit always lands on motor 0, whichever motor's
   * channel the code came from.
   */
  datatype Reading = Reading(current: Option<real>, motor0Errors: ErrorSet)

  function PhaseCurrentFromAdcval(code: u32, revGain: real, shuntResistance: real, motor0Errors: ErrorSet): (r: Reading)
    requires shuntResistance > 0.0
    ensures r.current.None? <==> code < CurrentAdcLowerBound || code > CurrentAdcUpperBound
    ensures r.current.Some? ==> r.current.value == Amps(code, revGain, shuntResistance)
    ensures r.motor0Errors == RaiseIf(motor0Errors, !InSenseWindow(code), CurrentSenseSaturation)
  {
    if code < CurrentAdcLowerBound || code > CurrentAdcUpperBound then
      Reading(None, motor0Errors + {CurrentSenseSaturation})
    else
      Reading(Some(Amps(code, revGain, shuntResistance)), motor0Errors)
  }

  /** An accepted code reads zero current exactly at half scale (for a non-zero gain). */
  lemma ZeroExactlyAtHalfScale(code: u32, revGain: real, shuntResistance: real, errors: ErrorSet)
    requires shuntResistance > 0.0 && revGain != 0.0
    requires InSenseWindow(code)
    ensures PhaseCurrentFromAdcval(code, revGain, shuntResistance, errors).current == Some(0.0) <==> code == HalfScale
  {
    var k := (AdcMaxVoltage / AdcFullScale as real) * revGain * (1.0 / shuntResistance);
    assert k != 0.0 by { NonZeroProduct(AdcMaxVoltage / AdcFullScale as real, revGain, 1.0 / shuntResistance); }
    assert Amps(code, revGain, shuntResistance) == ((code as real) - 2048.0) * k;
    var r := PhaseCurrentFromAdcval(code, revGain, shuntResistance, errors);
    assert r.current == Some(Amps(code, revGain, shuntResistance));
    if Amps(code, revGain, shuntResistance) == 0.0 {
      ZeroFactor((code as real) - 2048.0, k);
      assert code == HalfScale;
    }
    if code == HalfScale {
      assert (code as real) - 2048.0 == 0.0;
    }
  }

  /** With a positive gain, an accepted code maps to a strictly larger current than any smaller accepted code. */
  lemma StrictlyIncreasing(lo: u32, hi: u32, revGain: real, shuntResistance: real)
    requires shuntResistance > 0.0 && revGain > 0.0
    requires lo < hi
    ensures Amps(lo, revGain, shuntResistance) < Amps(hi, revGain, shuntResistance)
  {
    var k := (AdcMaxVoltage / AdcFullScale as real) * revGain * (1.0 / shuntResistance);
    PositiveProduct(AdcMaxVoltage / AdcFullScale as real, revGain, 1.0 / shuntResistance);
    assert Amps(lo, revGain, shuntResistance) == ((lo as real) - 2048.0) * k;
    assert Amps(hi, revGain, shuntResistance) == ((hi as real) - 2048.0) * k;
    assert Amps(hi, revGain, shuntResistance) - Amps(lo, revGain, shuntResistance) == ((hi - lo) as real) * k;
    PositiveProduct((hi - lo) as real, k, 1.0);
  }

  lemma PositiveProduct(a: real, b: real, c: real)
    requires a > 0.0 && b > 0.0 && c > 0.0
    ensures a * b * c > 0.0 && a * b > 0.0
  {
  }

  lemma NonZeroProduct(a: real, b: real, c: real)
    requires a != 0.0 && b != 0.0 && c != 0.0
    ensures a * b * c != 0.0
  {
  }

  lemma ZeroFactor(a: real, b: real)
    requires b != 0.0 && a * b == 0.0
    ensures a == 0.0
  {
  }

  /** The saturation bit, once set on motor 0, survives every later conversion. */
  lemma SaturationIsSticky(codes: seq<u32>, revGain: real, shuntResistance: real, errors: ErrorSet)
    requires shuntResistance > 0.0
    requires CurrentSenseSaturation in errors
    ensures CurrentSenseSaturation in ConvertAll(codes, revGain, shuntResistance, errors)
  {
    if codes != [] {
      SaturationIsSticky(codes[..|codes| - 1], revGain, shuntResistance, errors);
    }
  }

  /** Motor 0's bitmask after converting a series of codes one after the other. */
  function ConvertAll(codes: seq<u32>, revGain: real, shuntResistance: real, errors: ErrorSet): ErrorSet
    requires shuntResistance > 0.0
  {
    if codes == [] then errors
    else PhaseCurrentFromAdcval(codes[|codes| - 1], revGain, shuntResistance,
                                ConvertAll(codes[..|codes| - 1], revGain, shuntResistance, errors)).motor0Errors
  }

  /** Phase currents A, B, C (Iph_ABC_t). */
  datatype Iph = Iph(a: real, b: real, c: real)

  /** The all-zero reading used when a power stage is not switching. */
  const ZeroCurrent: Iph := Iph(0.0, 0.0, 0.0)

  /** Phase A is not measured: Kirchhoff's current law gives it from B and C. */
  function ReconstructTriple(phB: real, phC: real): (r: Iph)
    ensures r.a + r.b + r.c == 0.0
    ensures r.b == phB && r.c == phC
  {
    Iph(-phB - phC, phB, phC)
  }

  predicate SumsToZero(i: Iph) {
    i.a + i.b + i.c == 0.0
  }

  /** The status and data registers of one ADC that the sampling logic uses. */
  datatype AdcRegs = AdcRegs(eoc: bool, jeoc: bool, ovr: bool, dr: u32, jdr1: u32)

  /** ADC1 (bus voltage, injected), ADC2 and ADC3 (phases B and C: injected for motor 0, regular for motor 1). */
  datatype AdcBank = AdcBank(adc1: AdcRegs, adc2: AdcRegs, adc3: AdcRegs)

  /** ADC1's injected conversion and both conversions of ADC2 and ADC3 have completed. */
  predicate AllAdcsDone(bank: AdcBank) {
    && bank.adc1.jeoc
    && bank.adc2.eoc && bank.adc2.jeoc
    && bank.adc3.eoc && bank.adc3.jeoc
  }

  /**
   * The status-register writes that end a fetch: ADC1's JEOC is cleared, and
   * ADC2's and ADC3's EOC, JEOC and OVR. The flags are write-zero-to-clear,
   * so every other bit and every data register keep their values.
   */
  function ResetFlags(bank: AdcBank): (r: AdcBank)
    ensures !r.adc1.jeoc && r.adc1.eoc == bank.adc1.eoc && r.adc1.ovr == bank.adc1.ovr
    ensures !r.adc2.eoc && !r.adc2.jeoc && !r.adc2.ovr
    ensures !r.adc3.eoc && !r.adc3.jeoc && !r.adc3.ovr
    ensures r.adc1.dr == bank.adc1.dr && r.adc1.jdr1 == bank.adc1.jdr1
    ensures r.adc2.dr == bank.adc2.dr && r.adc2.jdr1 == bank.adc2.jdr1
    ensures r.adc3.dr == bank.adc3.dr && r.adc3.jdr1 == bank.adc3.jdr1
  {
    AdcBank(bank.adc1.(jeoc := false),
            bank.adc2.(eoc := false, jeoc := false, ovr := false),
            bank.adc3.(eoc := false, jeoc := false, ovr := false))
  }

  /** One motor's share of a fetch: its new output and motor 0's bitmask afterwards. */
  datatype MotorSample = MotorSample(current: Option<Iph>, motor0Errors: ErrorSet)

  /**
   * If the gate driver is ready, both phases are converted (both, even when
   * the first is rejected) and the output is overwritten only when both are
   * valid; otherwise the previous output stands.
   */
  function SampleMotor(ready: bool, codeB: u32, codeC: u32, revGain: real, shuntResistance: real,
                       previous: Option<Iph>, motor0Errors: ErrorSet): (r: MotorSample)
    requires shuntResistance > 0.0
    ensures r.current != previous ==>
              ready && InSenseWindow(codeB) && InSenseWindow(codeC) && r.current.Some? && SumsToZero(r.current.value)
    ensures ready && InSenseWindow(codeB) && InSenseWindow(codeC) ==>
              r.current == Some(ReconstructTriple(Amps(codeB, revGain, shuntResistance), Amps(codeC, revGain, shuntResistance)))
    ensures r.motor0Errors ==
              RaiseIf(motor0Errors, ready && !(InSenseWindow(codeB) && InSenseWindow(codeC)), CurrentSenseSaturation)
  {
    if ready then
      var phB := PhaseCurrentFromAdcval(codeB, revGain, shuntResistance, motor0Errors);
      var phC := PhaseCurrentFromAdcval(codeC, revGain, shuntResistance, phB.motor0Errors);
      if phB.current.Some? && phC.current.Some? then
        MotorSample(Some(ReconstructTriple(phB.current.value, phC.current.value)), phC.motor0Errors)
      else
        MotorSample(previous, phC.motor0Errors)
    else
      MotorSample(previous, motor0Errors)
  }

  /** The outcome of fetch_and_reset_adcs: its return value, both out-parameters, the ADCs and motor 0's bitmask afterwards. */
  datatype Fetch = Fetch(done: bool, current0: Option<Iph>, current1: Option<Iph>, bank: AdcBank, motor0Errors: ErrorSet)

  /** Whether a fetch of this bank raises the saturation bit (on motor 0). */
  predicate FetchSaturates(bank: AdcBank, ready0: bool, ready1: bool) {
    && AllAdcsDone(bank)
    && ((ready0 && !(InSenseWindow(bank.adc2.jdr1) && InSenseWindow(bank.adc3.jdr1)))
        || (ready1 && !(InSenseWindow(bank.adc2.dr) && InSenseWindow(bank.adc3.dr))))
  }

  function FetchAndResetAdcs(bank: AdcBank, ready0: bool, ready1: bool, revGain0: real, revGain1: real,
                             shuntResistance: real, current0: Option<Iph>, current1: Option<Iph>,
                             motor0Errors: ErrorSet): (r: Fetch)
    requires shuntResistance > 0.0
    ensures r.done <==> AllAdcsDone(bank)
    ensures !r.done ==> r == Fetch(false, current0, current1, bank, motor0Errors)
    ensures r.done ==> r.bank == ResetFlags(bank)
    ensures r.current0 != current0 ==>
              && r.done && ready0 && InSenseWindow(bank.adc2.jdr1) && InSenseWindow(bank.adc3.jdr1)
              && r.current0.Some? && SumsToZero(r.current0.value)
    ensures r.current1 != current1 ==>
              && r.done && ready1 && InSenseWindow(bank.adc2.dr) && InSenseWindow(bank.adc3.dr)
              && r.current1.Some? && SumsToZero(r.current1.value)
    ensures r.done && ready0 && InSenseWindow(bank.adc2.jdr1) && InSenseWindow(bank.adc3.jdr1) ==>
              r.current0 == Some(ReconstructTriple(Amps(bank.adc2.jdr1, revGain0, shuntResistance),
                                                   Amps(bank.adc3.jdr1, revGain0, shuntResistance)))
    ensures r.done && ready1 && InSenseWindow(bank.adc2.dr) && InSenseWindow(bank.adc3.dr) ==>
              r.current1 == Some(ReconstructTriple(Amps(bank.adc2.dr, revGain1, shuntResistance),
                                                   Amps(bank.adc3.dr, revGain1, shuntResistance)))
    ensures r.motor0Errors == RaiseIf(motor0Errors, FetchSaturates(bank, ready0, ready1), CurrentSenseSaturation)
  {
    if !AllAdcsDone(bank) then
      Fetch(false, current0, current1, bank, motor0Errors)
    else
      var m0 := SampleMotor(ready0, bank.adc2.jdr1, bank.adc3.jdr1, revGain0, shuntResistance, current0, motor0Errors);
      var m1 := SampleMotor(ready1, bank.adc2.dr, bank.adc3.dr, revGain1, shuntResistance, current1, m0.motor0Errors);
      Fetch(true, m0.current, m1.current, ResetFlags(bank), m1.motor0Errors)
  }

  /**
   * The current a fetch of this bank produces for one motor, if any: the
   * reconstructed triple when every conversion is done, the gate driver is
   * ready and both of the motor's codes are accepted.
   */
  function FreshCurrent(done: bool, ready: bool, codeB: u32, codeC: u32, revGain: real, shuntResistance: real): Option<Iph>
    requires shuntResistance > 0.0
  {
    if done && ready && InSenseWindow(codeB) && InSenseWindow(codeC) then
      Some(ReconstructTriple(Amps(codeB, revGain, shuntResistance), Amps(codeC, revGain, shuntResistance)))
    else
      None
  }

  /** A fresh current replaces the held one; without one the held one stands. */
  function Latest(sampled: Option<Iph>, held: Option<Iph>): Option<Iph> {
    if sampled.Some? then sampled else held
  }

  /** Motor 0's phases B and C are ADC2's and ADC3's injected data; motor 1's the regular data. */
  function FreshCurrent0(bank: AdcBank, ready0: bool, revGain0: real, shuntResistance: real): Option<Iph>
    requires shuntResistance > 0.0
  {
    FreshCurrent(AllAdcsDone(bank), ready0, bank.adc2.jdr1, bank.adc3.jdr1, revGain0, shuntResistance)
  }

  function FreshCurrent1(bank: AdcBank, ready1: bool, revGain1: real, shuntResistance: real): Option<Iph>
    requires shuntResistance > 0.0
  {
    FreshCurrent(AllAdcsDone(bank), ready1, bank.adc2.dr, bank.adc3.dr, revGain1, shuntResistance)
  }

  /** Each output of a fetch is the fresh current of its motor if there is one, and the value passed in otherwise. */
  lemma FetchKeepsOrReplaces(bank: AdcBank, ready0: bool, ready1: bool, revGain0: real, revGain1: real,
                             shuntResistance: real, current0: Option<Iph>, current1: Option<Iph>, motor0Errors: ErrorSet)
    requires shuntResistance > 0.0
    ensures var r := FetchAndResetAdcs(bank, ready0, ready1, revGain0, revGain1, shuntResistance, current0, current1, motor0Errors);
            && r.current0 == Latest(FreshCurrent0(bank, ready0, revGain0, shuntResistance), current0)
            && r.current1 == Latest(FreshCurrent1(bank, ready1, revGain1, shuntResistance), current1)
  {
  }
}
