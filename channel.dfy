/** The Channel object of eez_psu_sketch/channel.cpp: its fields are updated in
    place by the operations below, each of which is proved to produce the state
    the matching function of ChannelSpec describes.

    The protection engine calls back into the enable protocol: protectionCheck
    may call protectionEnter, which calls outputEnable(false), whose
    doOutputEnable(false) calls setCvMode(false) and setCcMode(false), which
    call protectionCheck again. The second round of checks runs with the
    output off, so it cannot trip; the decreases clauses below say so (the
    first component is 1 while a disable can still happen). */
module ChannelImpl {
  import opened Util
  import opened Calibration
  import opened ChannelTypes
  import opened ChannelSpec
  import ChannelProperties

  class Channel {
    const cfg: Config
    /** Collaborator state, written by the rest of the firmware. */
    var env: Env

    var flags: Flags
    var u: Value
    var i: Value
    var ovp: ProtectionValue
    var ocp: ProtectionValue
    var opp: ProtectionValue
    var protConf: ProtectionConf
    var calConf: CalibrationConf
    var delayedDpOff: bool
    var delayedDpOffStart: nat

    /** The ioexp, adc and dac driver objects. */
    var hw: Drivers
    /** The firmware modules this channel writes to. */
    var ext: Outside

    ghost function State(): ChState
      reads this
    {
      ChState(cfg, env, flags, u, i, ovp, ocp, opp, protConf, calConf,
              delayedDpOff, delayedDpOffStart, hw, ext)
    }

    ghost predicate Valid()
      reads this
    {
      ChannelSpec.Valid(State())
    }

    constructor (cfg: Config, env: Env)
      requires ValidConfig(cfg)
      ensures State() == InitialState(cfg, env) && Valid()
    {
      this.cfg := cfg;
      this.env := env;
      flags := Flags(false, false, false, false, false, false);
      u := Value(0.0, 0.0, 0.0, 0.0);
      i := Value(0.0, 0.0, 0.0, 0.0);
      ovp := ProtectionValue(false, false, 0);
      ocp := ProtectionValue(false, false, 0);
      opp := ProtectionValue(false, false, 0);
      protConf := ProtectionConf(false, false, false, 0.0, 0.0, 0.0, 0.0);
      calConf := ClearedCalibrationConf(0.0, 0.0, 0.0, 0.0, "");
      delayedDpOff, delayedDpOffStart := false, 0;
      hw := Drivers(ReadUMon, 0, false, false, 0.0, 0.0);
      ext := Outside(false, ClearedRegs, 0, 0);
    }

    // ---- queries ----

    /** The protection value of one kind, read from the fields: the compiled
        methods cannot call ChannelSpec.Prot, which takes the ghost State(). */
    function ProtOf(k: ProtectionKind): ProtectionValue
      reads this
    {
      match k
      case Ovp => ovp
      case Ocp => ocp
      case Opp => opp
    }

    // ---- small effects ----

    method SetProt(k: ProtectionKind, pv: ProtectionValue)
      modifies this
      ensures State() == WithProt(old(State()), k, pv)
    {
      match k
      case Ovp => ovp := pv;
      case Ocp => ocp := pv;
      case Opp => opp := pv;
    }

    // ---- protection engine ----

    method ProtectionEnter(k: ProtectionKind, now: nat)
      modifies this
      decreases 1, 3
      ensures State() == ProtectionEnterSpec(old(State()), k, now)
    {
      OutputEnable(false, now);
      var pv := ProtOf(k);
      SetProt(k, pv.(tripped := true));
      ext := ext.(regs := WithQues(ext.regs, env.ethernetTestOk, ProtectionBit(k), true));
      ext := ext.(beeps := ext.beeps + 1);
    }

    method ProtectionCheck(k: ProtectionKind, now: nat)
      modifies this
      decreases if flags.outputEnabled then 1 else 0, 4
      ensures State() == ProtectionCheckSpec(old(State()), k, now)
    {
      var state := ProtectionEnabled(protConf, k);
      var condition := TripCondition(flags, u, i, protConf, k);
      var delay := EffectiveDelay(cfg, protConf, k);
      var pv := ProtOf(k);
      if state && ChannelTypes.IsOutputEnabled(env, flags) && condition {
        if delay > 0.0 {
          if pv.alarmed {
            if DelayElapsed(now, pv.alarmStarted, delay) {
              SetProt(k, pv.(alarmed := false));
              ProtectionEnter(k, now);
            }
          } else {
            SetProt(k, pv.(alarmed := true, alarmStarted := now));
          }
        } else {
          ProtectionEnter(k, now);
        }
      } else {
        SetProt(k, pv.(alarmed := false));
      }
    }

    method ClearProtection()
      modifies this
      ensures State() == ClearProtectionSpec(old(State()))
      ensures old(Valid()) ==> Valid()
    {
      ghost var s0 := State();
      ovp := ovp.(tripped := false, alarmed := false);
      ext := ext.(regs := WithQues(ext.regs, env.ethernetTestOk, QuesOvp, false));
      ghost var s1 := State();
      assert s1 == PushQues(s0.(ovp := s0.ovp.(tripped := false, alarmed := false)), QuesOvp, false);
      ocp := ocp.(tripped := false, alarmed := false);
      ext := ext.(regs := WithQues(ext.regs, env.ethernetTestOk, QuesOcp, false));
      ghost var s2 := State();
      assert s2 == PushQues(s1.(ocp := s1.ocp.(tripped := false, alarmed := false)), QuesOcp, false);
      opp := opp.(tripped := false, alarmed := false);
      ext := ext.(regs := WithQues(ext.regs, env.ethernetTestOk, QuesOpp, false));
    }

    // ---- CV / CC mode ----

    method SetCcMode(ccMode: bool, now: nat)
      modifies this
      decreases if flags.outputEnabled then 1 else 0, 5
      ensures State() == SetModeSpec(old(State()), Cc, ccMode, now)
    {
      var cc := ccMode;
      if !ChannelTypes.IsOutputEnabled(env, flags) {
        cc := false;
      }
      if cc != flags.ccMode {
        flags := flags.(ccMode := cc);
        ext := ext.(regs := WithOper(ext.regs, env.ethernetTestOk, OperCc, cc));
        ext := ext.(regs := WithQues(ext.regs, env.ethernetTestOk, QuesVolt, cc));
      }
      ProtectionCheck(Ocp, now);
    }

    method SetCvMode(cvMode: bool, now: nat)
      modifies this
      decreases if flags.outputEnabled then 1 else 0, 5
      ensures State() == SetModeSpec(old(State()), Cv, cvMode, now)
    {
      var cv := cvMode;
      if !ChannelTypes.IsOutputEnabled(env, flags) {
        cv := false;
      }
      if cv != flags.cvMode {
        flags := flags.(cvMode := cv);
        ext := ext.(regs := WithOper(ext.regs, env.ethernetTestOk, OperCv, cv));
        ext := ext.(regs := WithQues(ext.regs, env.ethernetTestOk, QuesCurr, cv));
      }
      ProtectionCheck(Ovp, now);
    }

    // ---- output and remote sensing enable ----

    /** doOutputEnable: refused when enabling a channel that is not ok;
        otherwise the enable and disable paths below, which the source
        interleaves in one body. */
    method DoOutputEnable(enable: bool, now: nat)
      modifies this
      decreases if flags.outputEnabled || !enable then 1 else 0, 1
      ensures State() == DoOutputEnableSpec(old(State()), enable, now)
    {
      if enable && !ChannelTypes.IsOk(env, flags) {
        return;
      }
      if enable {
        EnableOutput();
      } else {
        DisableOutput(now);
      }
    }

    method EnableOutput()
      modifies this
      ensures State() == EnableOutputSpec(old(State()))
    {
      flags := flags.(outputEnabled := true);
      hw := hw.(outputLine := true);
      hw := hw.(adcStartReg0 := ReadUMon, conversions := hw.conversions + 1);
      delayedDpOff := false;
      hw := hw.(dpEnabled := true);
      ext := ext.(regs := WithOper(ext.regs, env.ethernetTestOk, OperDpOff, false));
      ext := ext.(regs := WithOper(ext.regs, env.ethernetTestOk, OperOeOff, false));
    }

    method DisableOutput(now: nat)
      modifies this
      decreases 1, 0
      ensures State() == DisableOutputSpec(old(State()), now)
    {
      ghost var s0 := State();
      flags := flags.(outputEnabled := false);
      hw := hw.(outputLine := false);
      ghost var s1 := s0.(flags := s0.flags.(outputEnabled := false), hw := s0.hw.(outputLine := false));
      assert State() == s1;
      SetCvMode(false, now);
      SetModeWhileOff(s1, Cv, false, now);
      ghost var s2 := ModeOff(s1, Cv);
      SetCcMode(false, now);
      SetModeWhileOff(s2, Cc, false, now);
      if ext.calibrationActive {
        ext := ext.(calibrationActive := false);
      }
      delayedDpOff := true;
      delayedDpOffStart := now;
      ext := ext.(regs := WithOper(ext.regs, env.ethernetTestOk, OperOeOff, true));
    }

    method OutputEnable(enable: bool, now: nat)
      modifies this
      decreases if flags.outputEnabled || !enable then 1 else 0, 2
      ensures State() == OutputEnableSpec(old(State()), enable, now)
      ensures old(Valid()) ==> Valid()
    {
      ChannelProperties.OutputEnableKeeps(State(), enable, now);
      if enable != flags.outputEnabled {
        DoOutputEnable(enable, now);
        ext := ext.(saves := ext.saves + 1);
      }
    }

    method DoRemoteSensingEnable(enable: bool)
      modifies this
      ensures State() == DoRemoteSensingEnableSpec(old(State()), enable)
    {
      if enable && !ChannelTypes.IsOk(env, flags) {
        return;
      }
      flags := flags.(senseEnabled := enable);
      ext := ext.(regs := WithOper(ext.regs, env.ethernetTestOk, OperRsensOn, enable));
    }

    method RemoteSensingEnable(enable: bool)
      modifies this
      ensures State() == RemoteSensingEnableSpec(old(State()), enable)
      ensures old(Valid()) ==> Valid()
    {
      if enable != flags.senseEnabled {
        DoRemoteSensingEnable(enable);
        ext := ext.(saves := ext.saves + 1);
      }
    }

    method Tick(tickUsec: nat)
      modifies this
      ensures State() == TickSpec(old(State()), tickUsec)
      ensures old(Valid()) ==> Valid()
    {
      if delayedDpOff && DelayElapsed(tickUsec, delayedDpOffStart, cfg.DP_OFF_DELAY_PERIOD) {
        delayedDpOff := false;
        hw := hw.(dpEnabled := false);
        ext := ext.(regs := WithOper(ext.regs, env.ethernetTestOk, OperDpOff, true));
      }
    }

    // ---- set points ----

    method SetVoltage(value: real)
      requires Valid()
      modifies this
      ensures State() == SetVoltageSpec(old(State()), value) && Valid()
    {
      u := u.(setpoint := value, monDac := 0.0);
      hw := hw.(dacVoltage := CalibratedDacValue(flags.calEnabled, calConf.u, value));
      ext := ext.(saves := ext.saves + 1);
    }

    method SetCurrent(value: real)
      requires Valid()
      modifies this
      ensures State() == SetCurrentSpec(old(State()), value) && Valid()
    {
      i := i.(setpoint := value, monDac := 0.0);
      hw := hw.(dacCurrent := CalibratedDacValue(flags.calEnabled, calConf.i, value));
      ext := ext.(saves := ext.saves + 1);
    }

    // ---- measurement acquisition cycle ----

    method ValueAddReading(q: Quantity, value: real, now: nat)
      requires Valid()
      modifies this
      ensures State() == ValueAddReadingSpec(old(State()), q, value, now) && Valid()
    {
      ghost var s0 := State();
      var reading := CalibratedReading(flags.calEnabled, TableOf(calConf, q), value);
      match q {
        case Voltage => u := u.(mon := reading);
        case Current => i := i.(mon := reading);
      }
      ProtectionCheck(Opp, now);
      ChannelProperties.ValueAddReadingKeepsValid(s0, q, value, now);
    }

    method ValueAddReadingDac(q: Quantity, value: real)
      requires Valid()
      modifies this
      ensures State() == ValueAddReadingDacSpec(old(State()), q, value) && Valid()
    {
      var reading := CalibratedReading(flags.calEnabled, TableOf(calConf, q), value);
      match q
      case Voltage => u := u.(monDac := reading);
      case Current => i := i.(monDac := reading);
    }

    method AdcDataIsReady(data: Int16, now: nat)
      requires Valid()
      modifies this
      ensures State() == AdcDataIsReadySpec(old(State()), data, now) && Valid()
    {
      ChannelProperties.AdcDataIsReadyKeepsValid(State(), data, now);
      match hw.adcStartReg0
      case ReadUMon =>
        ValueAddReading(Voltage, RemapAdcDataToVoltage(cfg, data), now);
        hw := hw.(adcStartReg0 := ReadIMon, conversions := hw.conversions + 1);
      case ReadIMon =>
        ValueAddReading(Current, RemapAdcDataToCurrent(cfg, data), now);
        var on := ChannelTypes.IsOutputEnabled(env, flags);
        if on {
          hw := hw.(adcStartReg0 := ReadUMon, conversions := hw.conversions + 1);
        } else {
          u := u.(mon := 0.0);
          i := i.(mon := 0.0);
          hw := hw.(adcStartReg0 := ReadUSet, conversions := hw.conversions + 1);
        }
      case ReadUSet =>
        ValueAddReadingDac(Voltage, RemapAdcDataToVoltage(cfg, data));
        hw := hw.(adcStartReg0 := ReadISet, conversions := hw.conversions + 1);
      case ReadISet =>
        ValueAddReadingDac(Current, RemapAdcDataToCurrent(cfg, data));
        var on := ChannelTypes.IsOutputEnabled(env, flags);
        if on {
          hw := hw.(adcStartReg0 := ReadUMon, conversions := hw.conversions + 1);
        }
    }

    method Event(gpio: Gpio, adcData: Int16, now: nat)
      requires Valid()
      modifies this
      ensures State() == EventSpec(old(State()), gpio, adcData, now) && Valid()
    {
      ChannelProperties.EventKeeps(State(), gpio, adcData, now);
      if !env.powerUp {
        return;
      }
      if !gpio.pwrGood {
        flags := flags.(powerOk := false);
        return;
      }
      AdcDataIsReady(adcData, now);
      SetCvMode(gpio.cvActive, now);
      SetCcMode(gpio.ccActive, now);
    }

    // ---- reset and configuration defaults ----

    method ClearProtectionConf()
      modifies this
      ensures State() == ClearProtectionConfSpec(old(State()))
      ensures old(Valid()) ==> Valid()
    {
      protConf := DefaultProtectionConf(cfg);
    }

    method ClearCalibrationConf()
      modifies this
      ensures State() == ClearCalibrationConfSpec(old(State()))
      ensures old(Valid()) ==> Valid()
    {
      ghost var s0 := State();
      if ChannelSpec.Valid(s0) {
        ChannelProperties.StepKeepsValid(s0, Op.ClearCalibrationConf, 0);
      }
      calConf := ClearedCalibrationConf(cfg.U_CAL_VAL_MIN, cfg.U_CAL_VAL_MAX,
                                        cfg.I_CAL_VAL_MIN, cfg.I_CAL_VAL_MAX,
                                        cfg.CALIBRATION_REMARK_INIT);
    }

    method Reset()
      modifies this
      ensures State() == ResetSpec(old(State()))
      ensures old(Valid()) ==> Valid()
    {
      ghost var s0 := State();
      flags := Flags(false, false, false, false, false, Calibration.IsCalibrationExists(calConf));
      ovp := ovp.(tripped := false, alarmed := false);
      ocp := ocp.(tripped := false, alarmed := false);
      opp := opp.(tripped := false, alarmed := false);
      ghost var s1 := s0.(flags := Flags(false, false, false, false, false, Calibration.IsCalibrationExists(s0.calConf)),
                          ovp := s0.ovp.(tripped := false, alarmed := false),
                          ocp := s0.ocp.(tripped := false, alarmed := false),
                          opp := s0.opp.(tripped := false, alarmed := false));
      assert State() == s1;
      assert ChannelSpec.Valid(s0) ==> Valid();
      ClearProtection();
      ghost var s2 := ClearProtectionSpec(s1);
      assert State() == s2;
      RemoteSensingEnable(false);
      assert RemoteSensingEnableSpec(s2, false) == s2;
      assert State() == s2;
      ClearProtectionConf();
      assert State() == ClearProtectionConfSpec(s2);
      u := InitValue(cfg.U_DEF_STEP);
      i := InitValue(cfg.I_DEF_STEP);
    }
  }
}
