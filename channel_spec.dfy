/** The channel as a value, and each operation of Channel
    (eez_psu_sketch/channel.cpp) as a function from the state before to the
    state after. The class in ChannelImpl is proved to follow these. */
module ChannelSpec {
  import opened Util
  import opened Calibration
  import opened ChannelTypes

  /** Everything an operation of the channel reads or changes: the
      configuration, the collaborators it queries, the channel's own fields,
      the state of its driver objects, and the state of the other firmware
      modules it writes to. */
  datatype ChState = ChState(
    cfg: Config, env: Env, flags: Flags,
    u: Value, i: Value,
    ovp: ProtectionValue, ocp: ProtectionValue, opp: ProtectionValue,
    protConf: ProtectionConf, calConf: CalibrationConf,
    delayedDpOff: bool, delayedDpOffStart: nat,
    hw: Drivers, ext: Outside)

  /** The configuration is consistent, and whichever calibration table may be
      used by the correction has distinct end points. */
  predicate Valid(s: ChState) {
    && ValidConfig(s.cfg)
    && ((s.flags.calEnabled || IsCalibrationExists(s.calConf)) ==>
          UsableTable(s.calConf.u) && UsableTable(s.calConf.i))
  }

  /** The state of a freshly constructed channel (static storage is zeroed). */
  function InitialState(cfg: Config, env: Env): ChState {
    ChState(cfg, env, Flags(false, false, false, false, false, false),
            Value(0.0, 0.0, 0.0, 0.0), Value(0.0, 0.0, 0.0, 0.0),
            ProtectionValue(false, false, 0), ProtectionValue(false, false, 0), ProtectionValue(false, false, 0),
            ProtectionConf(false, false, false, 0.0, 0.0, 0.0, 0.0),
            ClearedCalibrationConf(0.0, 0.0, 0.0, 0.0, ""),
            false, 0, Drivers(ReadUMon, 0, false, false, 0.0, 0.0), Outside(false, ClearedRegs, 0, 0))
  }

  function Prot(s: ChState, k: ProtectionKind): ProtectionValue {
    match k
    case Ovp => s.ovp
    case Ocp => s.ocp
    case Opp => s.opp
  }

  function WithProt(s: ChState, k: ProtectionKind, pv: ProtectionValue): ChState {
    match k
    case Ovp => s.(ovp := pv)
    case Ocp => s.(ocp := pv)
    case Opp => s.(opp := pv)
  }

  // ---- status mirror (setQuesBits / setOperBits) ----

  /** The serial interface always gets the bit; ethernet only if its
      self-test passed. */
  function PushQues(s: ChState, b: QuesBit, on: bool): ChState {
    s.(ext := s.ext.(regs := WithQues(s.ext.regs, s.env.ethernetTestOk, b, on)))
  }

  function PushOper(s: ChState, b: OperBit, on: bool): ChState {
    s.(ext := s.ext.(regs := WithOper(s.ext.regs, s.env.ethernetTestOk, b, on)))
  }

  /** profile::save was requested once more. */
  function Saved(s: ChState): ChState {
    s.(ext := s.ext.(saves := s.ext.saves + 1))
  }

  // ---- drivers reduced to their observable effect ----

  /** adc.start(reg): the next conversion is of reg. */
  function StartConversion(s: ChState, r: AdcReg): ChState {
    s.(hw := s.hw.(adcStartReg0 := r, conversions := s.hw.conversions + 1))
  }

  /** doDpEnable: the active-low DP line and the DP_OFF operation bit. */
  function DoDpEnableSpec(s: ChState, enable: bool): ChState {
    PushOper(s.(hw := s.hw.(dpEnabled := enable)), OperDpOff, !enable)
  }

  // ---- protection engine ----

  /** The guard of protectionCheck: protection on, output on, condition met. */
  predicate Guard(s: ChState, k: ProtectionKind) {
    ProtectionEnabled(s.protConf, k) && IsOutputEnabled(s.env, s.flags)
      && TripCondition(s.flags, s.u, s.i, s.protConf, k)
  }

  /** protectionCheck. With a positive delay, a first detection arms the
      alarm, and a later check trips once the delay has elapsed since then;
      with no delay it trips at once; a failed guard disarms the alarm. */
  function ProtectionCheckSpec(s: ChState, k: ProtectionKind, now: nat): ChState {
    var pv := Prot(s, k);
    var delay := EffectiveDelay(s.cfg, s.protConf, k);
    if !Guard(s, k) then WithProt(s, k, pv.(alarmed := false))
    else if delay > 0.0 && !pv.alarmed then WithProt(s, k, pv.(alarmed := true, alarmStarted := now))
    else if delay > 0.0 && !DelayElapsed(now, pv.alarmStarted, delay) then s
    else ProtectionEnterSpec(if delay > 0.0 then WithProt(s, k, pv.(alarmed := false)) else s, k, now)
  }

  /** protectionEnter: output off (its outputEnable(false) only acts, and
      saves, when the output is on), trip latched, questionable bit set, beep. */
  function ProtectionEnterSpec(s: ChState, k: ProtectionKind, now: nat): ChState {
    var s1 := if s.flags.outputEnabled then Saved(DisableOutputSpec(s, now)) else s;
    var s2 := WithProt(s1, k, Prot(s1, k).(tripped := true));
    var s3 := PushQues(s2, ProtectionBit(k), true);
    s3.(ext := s3.ext.(beeps := s3.ext.beeps + 1))
  }

  /** clearProtection: every trip and alarm cleared, with its status bit. */
  function ClearProtectionSpec(s: ChState): ChState {
    var s1 := PushQues(s.(ovp := s.ovp.(tripped := false, alarmed := false)), QuesOvp, false);
    var s2 := PushQues(s1.(ocp := s1.ocp.(tripped := false, alarmed := false)), QuesOcp, false);
    PushQues(s2.(opp := s2.opp.(tripped := false, alarmed := false)), QuesOpp, false)
  }

  // ---- CV / CC mode ----

  datatype Mode = Cv | Cc

  function ModeFlag(f: Flags, m: Mode): bool {
    match m
    case Cv => f.cvMode
    case Cc => f.ccMode
  }

  /** The protection a mode change re-checks: OVP for CV, OCP for CC. */
  function ModeProtection(m: Mode): ProtectionKind {
    match m
    case Cv => Ovp
    case Cc => Ocp
  }

  /** Stores a mode flag and, if it changed, mirrors it: CV sets OPER CV and
      QUES CURR, CC sets OPER CC and QUES VOLT. */
  function WithMode(s: ChState, m: Mode, v: bool): ChState {
    if v == ModeFlag(s.flags, m) then s
    else match m
      case Cv => PushQues(PushOper(s.(flags := s.flags.(cvMode := v)), OperCv, v), QuesCurr, v)
      case Cc => PushQues(PushOper(s.(flags := s.flags.(ccMode := v)), OperCc, v), QuesVolt, v)
  }

  /** setCvMode / setCcMode: the mode is forced off while the output is off,
      then the matching protection is re-checked. */
  function SetModeSpec(s: ChState, m: Mode, v: bool, now: nat): ChState {
    ProtectionCheckSpec(WithMode(s, m, v && IsOutputEnabled(s.env, s.flags)), ModeProtection(m), now)
  }

  /** What setCvMode / setCcMode do while the output is off: the mode is
      cleared (with its status bits) and the alarm of its protection is
      disarmed; nothing can trip. */
  function ModeOff(s: ChState, m: Mode): ChState {
    var s1 := WithMode(s, m, false);
    var k := ModeProtection(m);
    WithProt(s1, k, Prot(s1, k).(alarmed := false))
  }

  lemma SetModeWhileOff(s: ChState, m: Mode, v: bool, now: nat)
    requires !s.flags.outputEnabled
    ensures SetModeSpec(s, m, v, now) == ModeOff(s, m)
  {
  }

  // ---- output and remote sensing enable ----

  function EnableOutputSpec(s: ChState): ChState {
    var s1 := s.(flags := s.flags.(outputEnabled := true), hw := s.hw.(outputLine := true));
    var s2 := StartConversion(s1, ReadUMon);
    var s3 := DoDpEnableSpec(s2.(delayedDpOff := false), true);
    PushOper(s3, OperOeOff, false)
  }

  /** The net effect of doOutputEnable(false). The setCvMode(false) and
      setCcMode(false) it calls run with the output already off, so their
      protection checks can only clear the OVP and OCP alarms. */
  function DisableOutputSpec(s: ChState, now: nat): ChState {
    var s1 := s.(flags := s.flags.(outputEnabled := false), hw := s.hw.(outputLine := false));
    var s5 := ModeOff(ModeOff(s1, Cv), Cc);
    var s6 := s5.(ext := s5.ext.(calibrationActive := false), delayedDpOff := true, delayedDpOffStart := now);
    PushOper(s6, OperOeOff, true)
  }

  function DoOutputEnableSpec(s: ChState, enable: bool, now: nat): ChState {
    if enable && !IsOk(s.env, s.flags) then s
    else if enable then EnableOutputSpec(s)
    else DisableOutputSpec(s, now)
  }

  /** outputEnable: only a change of state does anything, and then it saves. */
  function OutputEnableSpec(s: ChState, enable: bool, now: nat): ChState {
    if enable != s.flags.outputEnabled then
      Saved(DoOutputEnableSpec(s, enable, now))
    else s
  }

  function DoRemoteSensingEnableSpec(s: ChState, enable: bool): ChState {
    if enable && !IsOk(s.env, s.flags) then s
    else PushOper(s.(flags := s.flags.(senseEnabled := enable)), OperRsensOn, enable)
  }

  function RemoteSensingEnableSpec(s: ChState, enable: bool): ChState {
    if enable != s.flags.senseEnabled then
      Saved(DoRemoteSensingEnableSpec(s, enable))
    else s
  }

  /** tick: the pending DP release completes once its period has passed. */
  function TickSpec(s: ChState, now: nat): ChState {
    if s.delayedDpOff && DelayElapsed(now, s.delayedDpOffStart, s.cfg.DP_OFF_DELAY_PERIOD) then
      DoDpEnableSpec(s.(delayedDpOff := false), false)
    else s
  }

  // ---- calibration and set points ----

  function TableOf(c: CalibrationConf, q: Quantity): CalTable {
    match q
    case Voltage => c.u
    case Current => c.i
  }

  /** readingToCalibratedValue: the reading itself while calibration is
      off; with it on, the table's ADC end points read as its measured end
      values. */
  function ReadingToCalibratedValueSpec(s: ChState, q: Quantity, reading: real): (r: real)
    requires Valid(s)
    ensures !s.flags.calEnabled ==> r == reading
    ensures s.flags.calEnabled && reading == TableOf(s.calConf, q).min.adc ==> r == TableOf(s.calConf, q).min.val
    ensures s.flags.calEnabled && reading == TableOf(s.calConf, q).max.adc ==> r == TableOf(s.calConf, q).max.val
  {
    CalibratedReading(s.flags.calEnabled, TableOf(s.calConf, q), reading)
  }

  function SetVoltageSpec(s: ChState, value: real): ChState
    requires Valid(s)
  {
    s.(u := s.u.(setpoint := value, monDac := 0.0),
       hw := s.hw.(dacVoltage := CalibratedDacValue(s.flags.calEnabled, s.calConf.u, value)),
       ext := s.ext.(saves := s.ext.saves + 1))
  }

  function SetCurrentSpec(s: ChState, value: real): ChState
    requires Valid(s)
  {
    s.(i := s.i.(setpoint := value, monDac := 0.0),
       hw := s.hw.(dacCurrent := CalibratedDacValue(s.flags.calEnabled, s.calConf.i, value)),
       ext := s.ext.(saves := s.ext.saves + 1))
  }

  // ---- measurement acquisition cycle ----

  function WithMon(s: ChState, q: Quantity, v: real): ChState {
    match q
    case Voltage => s.(u := s.u.(mon := v))
    case Current => s.(i := s.i.(mon := v))
  }

  function WithMonDac(s: ChState, q: Quantity, v: real): ChState {
    match q
    case Voltage => s.(u := s.u.(monDac := v))
    case Current => s.(i := s.i.(monDac := v))
  }

  /** valueAddReading: store the corrected reading, re-check OPP. */
  function ValueAddReadingSpec(s: ChState, q: Quantity, reading: real, now: nat): ChState
    requires Valid(s)
  {
    ProtectionCheckSpec(WithMon(s, q, ReadingToCalibratedValueSpec(s, q, reading)), Opp, now)
  }

  function ValueAddReadingDacSpec(s: ChState, q: Quantity, reading: real): ChState
    requires Valid(s)
  {
    WithMonDac(s, q, ReadingToCalibratedValueSpec(s, q, reading))
  }

  function AdcDataIsReadySpec(s: ChState, data: Int16, now: nat): ChState
    requires Valid(s)
  {
    match s.hw.adcStartReg0
    case ReadUMon =>
      StartConversion(ValueAddReadingSpec(s, Voltage, RemapAdcDataToVoltage(s.cfg, data), now), ReadIMon)
    case ReadIMon =>
      var s1 := ValueAddReadingSpec(s, Current, RemapAdcDataToCurrent(s.cfg, data), now);
      if IsOutputEnabled(s1.env, s1.flags) then StartConversion(s1, ReadUMon)
      else StartConversion(s1.(u := s1.u.(mon := 0.0), i := s1.i.(mon := 0.0)), ReadUSet)
    case ReadUSet =>
      StartConversion(ValueAddReadingDacSpec(s, Voltage, RemapAdcDataToVoltage(s.cfg, data)), ReadISet)
    case ReadISet =>
      var s1 := ValueAddReadingDacSpec(s, Current, RemapAdcDataToCurrent(s.cfg, data));
      if IsOutputEnabled(s1.env, s1.flags) then StartConversion(s1, ReadUMon) else s1
  }

  /** event: the completion callback with the GPIO inputs and one code. */
  function EventSpec(s: ChState, gpio: Gpio, data: Int16, now: nat): ChState
    requires Valid(s)
  {
    if !s.env.powerUp then s
    else if !gpio.pwrGood then s.(flags := s.flags.(powerOk := false))
    else
      var s1 := AdcDataIsReadySpec(s, data, now);
      var s2 := SetModeSpec(s1, Cv, gpio.cvActive, now);
      SetModeSpec(s2, Cc, gpio.ccActive, now)
  }

  // ---- reset and configuration defaults ----

  function ClearProtectionConfSpec(s: ChState): ChState {
    s.(protConf := DefaultProtectionConf(s.cfg))
  }

  function ClearCalibrationConfSpec(s: ChState): ChState {
    s.(calConf := ClearedCalibrationConf(s.cfg.U_CAL_VAL_MIN, s.cfg.U_CAL_VAL_MAX,
                                         s.cfg.I_CAL_VAL_MIN, s.cfg.I_CAL_VAL_MAX,
                                         s.cfg.CALIBRATION_REMARK_INIT))
  }

  function ResetSpec(s: ChState): ChState {
    var s1 := s.(flags := Flags(false, false, false, false, false, IsCalibrationExists(s.calConf)),
                 ovp := s.ovp.(tripped := false, alarmed := false),
                 ocp := s.ocp.(tripped := false, alarmed := false),
                 opp := s.opp.(tripped := false, alarmed := false));
    var s2 := ClearProtectionSpec(s1);
    var s3 := RemoteSensingEnableSpec(s2, false);
    var s4 := ClearProtectionConfSpec(s3);
    s4.(u := InitValue(s.cfg.U_DEF_STEP), i := InitValue(s.cfg.I_DEF_STEP))
  }

  // ---- the entry points the rest of the firmware calls ----

  datatype Op =
    | Event(gpio: Gpio, data: Int16)
    | Tick
    | OutputEnable(enable: bool)
    | RemoteSensingEnable(enable: bool)
    | SetVoltage(voltage: real)
    | SetCurrent(current: real)
    | ClearProtection
    | ClearProtectionConf
    | ClearCalibrationConf
    | Reset

  function Step(s: ChState, op: Op, now: nat): ChState
    requires Valid(s)
  {
    match op
    case Event(gpio, data) => EventSpec(s, gpio, data, now)
    case Tick => TickSpec(s, now)
    case OutputEnable(e) => OutputEnableSpec(s, e, now)
    case RemoteSensingEnable(e) => RemoteSensingEnableSpec(s, e)
    case SetVoltage(v) => SetVoltageSpec(s, v)
    case SetCurrent(v) => SetCurrentSpec(s, v)
    case ClearProtection => ClearProtectionSpec(s)
    case ClearProtectionConf => ClearProtectionConfSpec(s)
    case ClearCalibrationConf => ClearCalibrationConfSpec(s)
    case Reset => ResetSpec(s)
  }
}
