/** The data of one power-supply channel (eez_psu_sketch/channel.cpp) and the
    pure queries over it: factory parameters, flags, values, protection state,
    status bits, and the mapping between converter codes and engineering units. */
module ChannelTypes {
  import opened Util

  /** The immutable per-channel parameters the core reads, together with the
      build-time constants of the firmware headers (converter range,
      protection delay correction, discharge-protection release period,
      initial calibration remark). Delays and periods are in seconds. */
  datatype Config = Config(
    ADC_MIN: int, ADC_MAX: int,
    U_MIN: real, U_MAX: real, U_DEF_STEP: real, U_CAL_VAL_MIN: real, U_CAL_VAL_MAX: real,
    I_MIN: real, I_MAX: real, I_DEF_STEP: real, I_CAL_VAL_MIN: real, I_CAL_VAL_MAX: real,
    OVP_DEFAULT_STATE: bool, OVP_DEFAULT_DELAY: real,
    OCP_DEFAULT_STATE: bool, OCP_DEFAULT_DELAY: real,
    OPP_DEFAULT_STATE: bool, OPP_DEFAULT_DELAY: real, OPP_DEFAULT_LEVEL: real,
    PROT_DELAY_CORRECTION: real, DP_OFF_DELAY_PERIOD: real,
    CALIBRATION_REMARK_INIT: string)

  /** The converter range fits the signed 16-bit code, the clamp range
      [-ADC_MAX - 1, ADC_MAX] holds ADC_MIN, and every pair of end points the
      remaps divide by is distinct. */
  predicate ValidConfig(c: Config) {
    && 0 <= c.ADC_MAX <= 32767
    && -c.ADC_MAX - 1 <= c.ADC_MIN < c.ADC_MAX
    && c.U_MIN != c.U_MAX && c.I_MIN != c.I_MAX
    && c.U_CAL_VAL_MIN != c.U_CAL_VAL_MAX && c.I_CAL_VAL_MIN != c.I_CAL_VAL_MAX
  }

  /** The outcome of a driver self-test; every outcome other than OK and
      FAILED (none, skipped, ...) is folded into TestOther. */
  datatype TestResult = TestOk | TestFailed | TestOther

  /** The state of the collaborators the channel queries but does not own:
      psu::isPowerUp, the self-test results of the IO expander, ADC and DAC
      drivers, whether the ethernet interface passed its self-test, and
      temperature::isChannelTripped. */
  datatype Env = Env(
    powerUp: bool,
    ioexpTest: TestResult, adcTest: TestResult, dacTest: TestResult,
    ethernetTestOk: bool,
    temperatureTripped: bool)

  datatype Flags = Flags(
    outputEnabled: bool, senseEnabled: bool,
    cvMode: bool, ccMode: bool,
    powerOk: bool, calEnabled: bool)

  /** A quantity of the channel: commanded set point, last corrected
      monitor reading, last corrected DAC readback, and step size. */
  datatype Value = Value(setpoint: real, mon: real, monDac: real, step: real)

  /** Value::init: everything zero but the step. */
  function InitValue(defStep: real): (v: Value)
    ensures v.setpoint == 0.0 && v.mon == 0.0 && v.monDac == 0.0
    ensures v.step == defStep
  {
    Value(0.0, 0.0, 0.0, defStep)
  }

  datatype Quantity = Voltage | Current

  datatype ProtectionKind = Ovp | Ocp | Opp

  /** Debounce state of one protection; alarmStarted is a microsecond time. */
  datatype ProtectionValue = ProtectionValue(tripped: bool, alarmed: bool, alarmStarted: nat)

  datatype ProtectionConf = ProtectionConf(
    uState: bool, iState: bool, pState: bool,
    uDelay: real, iDelay: real, pDelay: real, pLevel: real)

  /** clearProtectionConf: enable flags, delays and power level from the
      factory defaults. */
  function DefaultProtectionConf(c: Config): (pc: ProtectionConf)
    ensures ProtectionEnabled(pc, Ovp) == c.OVP_DEFAULT_STATE
    ensures ProtectionEnabled(pc, Ocp) == c.OCP_DEFAULT_STATE
    ensures ProtectionEnabled(pc, Opp) == c.OPP_DEFAULT_STATE
    ensures EffectiveDelay(c, pc, Ovp) == c.OVP_DEFAULT_DELAY - c.PROT_DELAY_CORRECTION
    ensures EffectiveDelay(c, pc, Ocp) == c.OCP_DEFAULT_DELAY - c.PROT_DELAY_CORRECTION
    ensures EffectiveDelay(c, pc, Opp) == c.OPP_DEFAULT_DELAY
    ensures pc.pLevel == c.OPP_DEFAULT_LEVEL
  {
    ProtectionConf(c.OVP_DEFAULT_STATE, c.OCP_DEFAULT_STATE, c.OPP_DEFAULT_STATE,
                   c.OVP_DEFAULT_DELAY, c.OCP_DEFAULT_DELAY, c.OPP_DEFAULT_DELAY, c.OPP_DEFAULT_LEVEL)
  }

  /** The quantity the ADC converts next (adc.start_reg0). */
  datatype AdcReg = ReadUMon | ReadIMon | ReadUSet | ReadISet

  /** The three GPIO input bits the completion callback inspects. */
  datatype Gpio = Gpio(pwrGood: bool, cvActive: bool, ccActive: bool)

  /** Channel bits of the questionable and operation summary registers. */
  datatype QuesBit = QuesVolt | QuesCurr | QuesOvp | QuesOcp | QuesOpp
  datatype OperBit = OperCv | OperCc | OperOeOff | OperDpOff | OperRsensOn

  /** One remote-control interface's view of this channel's status bits. */
  datatype StatusRegs = StatusRegs(ques: set<QuesBit>, oper: set<OperBit>)

  /** Both interfaces: the serial one, and the ethernet one that is written
      only while ethernet passed its self-test. */
  datatype Registers = Registers(serial: StatusRegs, ethernet: StatusRegs)

  const ClearedRegs := Registers(StatusRegs({}, {}), StatusRegs({}, {}))

  function SetQues(x: StatusRegs, b: QuesBit, on: bool): StatusRegs {
    x.(ques := if on then x.ques + {b} else x.ques - {b})
  }

  function SetOper(x: StatusRegs, b: OperBit, on: bool): StatusRegs {
    x.(oper := if on then x.oper + {b} else x.oper - {b})
  }

  /** setQuesBits: the bit on the serial interface, and on ethernet if it passed its self-test. */
  function WithQues(r: Registers, ethernetOk: bool, b: QuesBit, on: bool): Registers {
    Registers(SetQues(r.serial, b, on), if ethernetOk then SetQues(r.ethernet, b, on) else r.ethernet)
  }

  /** setOperBits: the bit on the serial interface, and on ethernet if it passed its self-test. */
  function WithOper(r: Registers, ethernetOk: bool, b: OperBit, on: bool): Registers {
    Registers(SetOper(r.serial, b, on), if ethernetOk then SetOper(r.ethernet, b, on) else r.ethernet)
  }

  /** The channel's driver objects reduced to what the core drives: the
      conversion the ADC runs next and a count of conversions started, the
      IO expander's output-enable and discharge-protection lines (the DP line
      is active low, dpEnabled means protection on), and the values last
      handed to the DAC. */
  datatype Drivers = Drivers(
    adcStartReg0: AdcReg, conversions: nat,
    outputLine: bool, dpEnabled: bool,
    dacVoltage: real, dacCurrent: real)

  /** The state of the other firmware modules the channel writes to:
      whether a calibration session is running, both interfaces' status bits,
      and counts of the profile saves and beeps it requested. */
  datatype Outside = Outside(
    calibrationActive: bool, regs: Registers, saves: nat, beeps: nat)

  /** reg_get_ques_isum_bit_mask_for_channel_protection_value. */
  function ProtectionBit(k: ProtectionKind): QuesBit {
    match k
    case Ovp => QuesOvp
    case Ocp => QuesOcp
    case Opp => QuesOpp
  }

  // ---- queries (isTestOk, isOk, isOutputEnabled, isTripped) ----

  /** The IO expander, ADC and DAC drivers all passed their self-test; a
      failed, skipped or not yet run test of any of them counts against it. */
  function IsTestOk(env: Env): (r: bool)
    ensures r ==> env.ioexpTest == TestOk && env.adcTest == TestOk && env.dacTest == TestOk
    ensures env.ioexpTest == TestOk && env.adcTest == TestOk && env.dacTest == TestOk ==> r
    ensures env.ioexpTest == TestFailed || env.adcTest == TestFailed || env.dacTest == TestFailed ==> !r
    ensures env.ioexpTest == TestOther || env.adcTest == TestOther || env.dacTest == TestOther ==> !r
  {
    env.ioexpTest == TestOk && env.adcTest == TestOk && env.dacTest == TestOk
  }

  /** The channel may be enabled: the supply is powered up, the channel has
      not lost power-good, and its drivers passed their self-test. */
  function IsOk(env: Env, flags: Flags): (r: bool)
    ensures r ==> IsTestOk(env)
    ensures !env.powerUp || !flags.powerOk ==> !r
    ensures env.powerUp && flags.powerOk && IsTestOk(env) ==> r
  {
    env.powerUp && flags.powerOk && IsTestOk(env)
  }

  /** The output counts as on only while the supply is powered up. */
  function IsOutputEnabled(env: Env, flags: Flags): (r: bool)
    ensures r ==> flags.outputEnabled
    ensures !env.powerUp ==> !r
    ensures env.powerUp ==> r == flags.outputEnabled
  {
    env.powerUp && flags.outputEnabled
  }

  /** Some protection of the channel has tripped, the temperature
      protection included. */
  function IsTripped(env: Env, ovp: ProtectionValue, ocp: ProtectionValue, opp: ProtectionValue): (r: bool)
    ensures ovp.tripped || ocp.tripped || opp.tripped ==> r
    ensures env.temperatureTripped ==> r
    ensures !env.temperatureTripped ==> (r <==> ovp.tripped || ocp.tripped || opp.tripped)
  {
    ovp.tripped || ocp.tripped || opp.tripped || env.temperatureTripped
  }

  // ---- the three protection kinds ----

  /** The enable flag of a protection kind. */
  function ProtectionEnabled(pc: ProtectionConf, k: ProtectionKind): bool {
    match k
    case Ovp => pc.uState
    case Ocp => pc.iState
    case Opp => pc.pState
  }

  /** The trip condition of a protection kind: OVP in CV mode unless also in
      CC mode with the current tracking its set point to within 10 mA; OCP
      symmetrically; OPP when the measured power exceeds the level. */
  function TripCondition(flags: Flags, u: Value, i: Value, pc: ProtectionConf, k: ProtectionKind): (r: bool)
    ensures k == Ovp && r ==> flags.cvMode
    ensures k == Ocp && r ==> flags.ccMode
    ensures k == Ovp && flags.cvMode && !flags.ccMode ==> r
    ensures k == Ocp && flags.ccMode && !flags.cvMode ==> r
    ensures k == Ovp && flags.cvMode && flags.ccMode ==> (r <==> Abs(i.mon - i.setpoint) >= 0.01)
    ensures k == Ocp && flags.cvMode && flags.ccMode ==> (r <==> Abs(u.mon - u.setpoint) >= 0.01)
    ensures k == Opp ==> (r <==> u.mon * i.mon > pc.pLevel)
  {
    match k
    case Ovp => flags.cvMode && (!flags.ccMode || Abs(i.mon - i.setpoint) >= 0.01)
    case Ocp => flags.ccMode && (!flags.cvMode || Abs(u.mon - u.setpoint) >= 0.01)
    case Opp => u.mon * i.mon > pc.pLevel
  }

  /** The delay a protection waits before it trips, in seconds: OVP and OCP
      wait their configured delay shortened by PROT_DELAY_CORRECTION, OPP
      its configured delay. */
  function EffectiveDelay(c: Config, pc: ProtectionConf, k: ProtectionKind): (d: real)
    ensures k == Ovp ==> d + c.PROT_DELAY_CORRECTION == pc.uDelay
    ensures k == Ocp ==> d + c.PROT_DELAY_CORRECTION == pc.iDelay
    ensures k == Opp ==> d == pc.pDelay
  {
    match k
    case Ovp => pc.uDelay - c.PROT_DELAY_CORRECTION
    case Ocp => pc.iDelay - c.PROT_DELAY_CORRECTION
    case Opp => pc.pDelay
  }

  /** At microsecond time now, at least delay seconds have passed since start. */
  predicate DelayElapsed(now: nat, start: nat, delay: real) {
    (now - start) as real >= delay * 1000000.0
  }

  // ---- converter code <-> engineering units, uncalibrated ----

  function RemapAdcDataToVoltage(c: Config, data: Int16): (v: real)
    requires ValidConfig(c)
    ensures data == c.ADC_MIN ==> v == c.U_MIN
    ensures data == c.ADC_MAX ==> v == c.U_MAX
  {
    Remap(data as real, c.ADC_MIN as real, c.U_MIN, c.ADC_MAX as real, c.U_MAX)
  }

  function RemapAdcDataToCurrent(c: Config, data: Int16): (v: real)
    requires ValidConfig(c)
    ensures data == c.ADC_MIN ==> v == c.I_MIN
    ensures data == c.ADC_MAX ==> v == c.I_MAX
  {
    Remap(data as real, c.ADC_MIN as real, c.I_MIN, c.ADC_MAX as real, c.I_MAX)
  }

  /** A code from a line remap, clamped to [-ADC_MAX - 1, ADC_MAX] and cast. */
  function ClampToCode(c: Config, x: real): (code: Int16)
    requires ValidConfig(c)
    ensures -c.ADC_MAX - 1 <= code <= c.ADC_MAX
    ensures x == x.Floor as real && -c.ADC_MAX - 1 <= x.Floor <= c.ADC_MAX ==> code == x.Floor
    ensures x >= c.ADC_MAX as real ==> code == c.ADC_MAX
    ensures x <= (-c.ADC_MAX - 1) as real ==> code == -c.ADC_MAX - 1
    ensures (-c.ADC_MAX - 1) as real <= x <= c.ADC_MAX as real ==> code == Truncate(x)
  {
    Truncate(Clamp(x, (-c.ADC_MAX - 1) as real, c.ADC_MAX as real))
  }

  function RemapVoltageToAdcData(c: Config, value: real): (code: Int16)
    requires ValidConfig(c)
    ensures -c.ADC_MAX - 1 <= code <= c.ADC_MAX
    ensures value == c.U_MIN ==> code == c.ADC_MIN
    ensures value == c.U_MAX ==> code == c.ADC_MAX
    ensures c.U_MIN < c.U_MAX && c.U_MIN <= value <= c.U_MAX ==>
      && c.ADC_MIN <= code <= c.ADC_MAX
      && code == Truncate(Remap(value, c.U_MIN, c.ADC_MIN as real, c.U_MAX, c.ADC_MAX as real))
  {
    if c.U_MIN < c.U_MAX && c.U_MIN <= value <= c.U_MAX then
      RemapBetween(value, c.U_MIN, c.ADC_MIN as real, c.U_MAX, c.ADC_MAX as real);
      ClampToCode(c, Remap(value, c.U_MIN, c.ADC_MIN as real, c.U_MAX, c.ADC_MAX as real))
    else
      ClampToCode(c, Remap(value, c.U_MIN, c.ADC_MIN as real, c.U_MAX, c.ADC_MAX as real))
  }

  function RemapCurrentToAdcData(c: Config, value: real): (code: Int16)
    requires ValidConfig(c)
    ensures -c.ADC_MAX - 1 <= code <= c.ADC_MAX
    ensures value == c.I_MIN ==> code == c.ADC_MIN
    ensures value == c.I_MAX ==> code == c.ADC_MAX
    ensures c.I_MIN < c.I_MAX && c.I_MIN <= value <= c.I_MAX ==>
      && c.ADC_MIN <= code <= c.ADC_MAX
      && code == Truncate(Remap(value, c.I_MIN, c.ADC_MIN as real, c.I_MAX, c.ADC_MAX as real))
  {
    if c.I_MIN < c.I_MAX && c.I_MIN <= value <= c.I_MAX then
      RemapBetween(value, c.I_MIN, c.ADC_MIN as real, c.I_MAX, c.ADC_MAX as real);
      ClampToCode(c, Remap(value, c.I_MIN, c.ADC_MIN as real, c.I_MAX, c.ADC_MAX as real))
    else
      ClampToCode(c, Remap(value, c.I_MIN, c.ADC_MIN as real, c.I_MAX, c.ADC_MAX as real))
  }

  /** On an increasing voltage range, the code driven for a voltage between
      U_MIN and U_MAX reads back, through the converter remap, within one
      converter step of that voltage. */
  lemma VoltageCodeReadsBack(c: Config, value: real)
    requires ValidConfig(c) && c.U_MIN < c.U_MAX && c.U_MIN <= value <= c.U_MAX
    ensures Abs(RemapAdcDataToVoltage(c, RemapVoltageToAdcData(c, value)) - value)
      < (c.U_MAX - c.U_MIN) / (c.ADC_MAX - c.ADC_MIN) as real
  {
    RemapTruncateReadBack(value, c.U_MIN, c.ADC_MIN as real, c.U_MAX, c.ADC_MAX as real);
  }

  /** On an increasing current range, the code driven for a current between
      I_MIN and I_MAX reads back, through the converter remap, within one
      converter step of that current. */
  lemma CurrentCodeReadsBack(c: Config, value: real)
    requires ValidConfig(c) && c.I_MIN < c.I_MAX && c.I_MIN <= value <= c.I_MAX
    ensures Abs(RemapAdcDataToCurrent(c, RemapCurrentToAdcData(c, value)) - value)
      < (c.I_MAX - c.I_MIN) / (c.ADC_MAX - c.ADC_MIN) as real
  {
    RemapTruncateReadBack(value, c.I_MIN, c.ADC_MIN as real, c.I_MAX, c.ADC_MAX as real);
  }
}
