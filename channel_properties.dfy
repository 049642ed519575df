/** What the channel promises, proved about the operations of ChannelSpec:
    the debounce state machine of the three protections, trip latching, the
    invariants every entry point keeps (no CV/CC while the output is off,
    discharge protection asserted while it is on), the enable gate and its
    idempotence, the acquisition cycle, the delayed DP release, calibrated
    set points, and reset. */
module ChannelProperties {
  import opened Util
  import opened Calibration
  import opened ChannelTypes
  import opened ChannelSpec

  // ---- the protection debounce state machine ----

  /** t differs from s in protection k at most. */
  predicate OnlyProtChanged(s: ChState, t: ChState, k: ProtectionKind) {
    t == WithProt(s, k, Prot(t, k))
  }

  /** A failed guard disarms the alarm, keeps the trip, and changes nothing else. */
  lemma CheckIdle(s: ChState, k: ProtectionKind, now: nat)
    requires !Guard(s, k)
    ensures var t := ProtectionCheckSpec(s, k, now);
      && !Prot(t, k).alarmed
      && Prot(t, k).tripped == Prot(s, k).tripped
      && Prot(t, k).alarmStarted == Prot(s, k).alarmStarted
      && OnlyProtChanged(s, t, k)
  {
  }

  /** The first detection with a positive delay arms the alarm at now and
      trips nothing. */
  lemma CheckAlarmStart(s: ChState, k: ProtectionKind, now: nat)
    requires Guard(s, k) && EffectiveDelay(s.cfg, s.protConf, k) > 0.0 && !Prot(s, k).alarmed
    ensures var t := ProtectionCheckSpec(s, k, now);
      && Prot(t, k).alarmed && Prot(t, k).alarmStarted == now
      && Prot(t, k).tripped == Prot(s, k).tripped
      && OnlyProtChanged(s, t, k)
  {
  }

  /** What entering a trip from an enabled output guarantees: the
      protection is latched, the output is off with CV and CC cleared, the
      delayed DP release is armed, the QUES bit is set, and one beep and one
      save were requested. */
  predicate TrippedAndOff(s: ChState, t: ChState, k: ProtectionKind) {
    && Prot(t, k).tripped
    && !t.flags.outputEnabled && !t.flags.cvMode && !t.flags.ccMode
    && !t.hw.outputLine
    && t.delayedDpOff
    && ProtectionBit(k) in t.ext.regs.serial.ques
    && (s.env.ethernetTestOk ==> ProtectionBit(k) in t.ext.regs.ethernet.ques)
    && t.ext.beeps == s.ext.beeps + 1
    && t.ext.saves == s.ext.saves + 1
  }

  /** With no delay left, a detection trips at once and forces the output
      off, which is saved once. */
  lemma CheckImmediateTrip(s: ChState, k: ProtectionKind, now: nat)
    requires Guard(s, k) && EffectiveDelay(s.cfg, s.protConf, k) <= 0.0
    ensures TrippedAndOff(s, ProtectionCheckSpec(s, k, now), k)
  {
    EnterTrips(s, k, now);
  }

  /** While alarmed and still detected, the protection trips exactly when
      the delay has elapsed since the alarm was armed, and otherwise nothing
      changes at all. */
  lemma CheckDebounced(s: ChState, k: ProtectionKind, now: nat)
    requires Guard(s, k) && EffectiveDelay(s.cfg, s.protConf, k) > 0.0 && Prot(s, k).alarmed
    ensures var t := ProtectionCheckSpec(s, k, now);
      && (DelayElapsed(now, Prot(s, k).alarmStarted, EffectiveDelay(s.cfg, s.protConf, k)) ==>
            TrippedAndOff(s, t, k) && !Prot(t, k).alarmed)
      && (!DelayElapsed(now, Prot(s, k).alarmStarted, EffectiveDelay(s.cfg, s.protConf, k)) ==>
            t == s)
  {
    var pv := Prot(s, k);
    if DelayElapsed(now, pv.alarmStarted, EffectiveDelay(s.cfg, s.protConf, k)) {
      var s1 := WithProt(s, k, pv.(alarmed := false));
      assert Guard(s1, k) && Prot(s1, k) == pv.(alarmed := false);
      EnterTrips(s1, k, now);
      DisableOutputEffect(s1, now);
    }
  }

  /** The delay each kind waits before an armed alarm trips, in the
      configuration's own terms: OVP and OCP their delay less the correction
      for the measurement latency, OPP its raw delay. */
  lemma DebouncedTripDelays(s: ChState, k: ProtectionKind, now: nat)
    requires Guard(s, k) && EffectiveDelay(s.cfg, s.protConf, k) > 0.0 && Prot(s, k).alarmed
    ensures var t := ProtectionCheckSpec(s, k, now);
      && (k == Ovp ==> (TrippedAndOff(s, t, k) <==>
            DelayElapsed(now, s.ovp.alarmStarted, s.protConf.uDelay - s.cfg.PROT_DELAY_CORRECTION)))
      && (k == Ocp ==> (TrippedAndOff(s, t, k) <==>
            DelayElapsed(now, s.ocp.alarmStarted, s.protConf.iDelay - s.cfg.PROT_DELAY_CORRECTION)))
      && (k == Opp ==> (TrippedAndOff(s, t, k) <==>
            DelayElapsed(now, s.opp.alarmStarted, s.protConf.pDelay)))
  {
    CheckDebounced(s, k, now);
  }

  /** protectionEnter on an enabled output. */
  lemma EnterTrips(s: ChState, k: ProtectionKind, now: nat)
    requires s.flags.outputEnabled
    ensures TrippedAndOff(s, ProtectionEnterSpec(s, k, now), k)
  {
    var d := DisableOutputSpec(s, now);
    DisableOutputEffect(s, now);
    assert Prot(d, k).tripped == Prot(s, k).tripped;
  }

  /** The net effect of doOutputEnable(false) on every field but the status
      registers, of which it states OE_OFF. */
  lemma DisableOutputEffect(s: ChState, now: nat)
    ensures var t := DisableOutputSpec(s, now);
      && !t.flags.outputEnabled && !t.flags.cvMode && !t.flags.ccMode
      && t.flags.senseEnabled == s.flags.senseEnabled
      && t.flags.powerOk == s.flags.powerOk && t.flags.calEnabled == s.flags.calEnabled
      && !t.hw.outputLine && t.hw.dpEnabled == s.hw.dpEnabled
      && t.hw.dacVoltage == s.hw.dacVoltage && t.hw.dacCurrent == s.hw.dacCurrent
      && t.hw.adcStartReg0 == s.hw.adcStartReg0 && t.hw.conversions == s.hw.conversions
      && t.delayedDpOff && t.delayedDpOffStart == now
      && !t.ext.calibrationActive
      && OperOeOff in t.ext.regs.serial.oper
      && (s.env.ethernetTestOk ==> OperOeOff in t.ext.regs.ethernet.oper)
      && t.ext.saves == s.ext.saves && t.ext.beeps == s.ext.beeps
      && t.ovp == s.ovp.(alarmed := false) && t.ocp == s.ocp.(alarmed := false) && t.opp == s.opp
      && t.u == s.u && t.i == s.i && t.protConf == s.protConf && t.calConf == s.calConf
      && t.cfg == s.cfg && t.env == s.env
  {
    var s1 := s.(flags := s.flags.(outputEnabled := false), hw := s.hw.(outputLine := false));
    ModeOffEffect(s1, Cv);
    ModeOffEffect(ModeOff(s1, Cv), Cc);
  }

  lemma ModeOffEffect(s: ChState, m: Mode)
    ensures var t := ModeOff(s, m);
      && !ModeFlag(t.flags, m)
      && t.flags == (match m case Cv => s.flags.(cvMode := false) case Cc => s.flags.(ccMode := false))
      && t.hw == s.hw && t.delayedDpOff == s.delayedDpOff && t.delayedDpOffStart == s.delayedDpOffStart
      && t.ext.saves == s.ext.saves && t.ext.beeps == s.ext.beeps
      && t.ext.calibrationActive == s.ext.calibrationActive
      && Prot(t, ModeProtection(m)) == Prot(s, ModeProtection(m)).(alarmed := false)
      && (forall j :: j != ModeProtection(m) ==> Prot(t, j) == Prot(s, j))
      && t.u == s.u && t.i == s.i && t.protConf == s.protConf && t.calConf == s.calConf
      && t.cfg == s.cfg && t.env == s.env
  {
  }

  // ---- trip latching and the state invariants ----

  /** Every protection tripped in s is still tripped in t. */
  predicate TripsKept(s: ChState, t: ChState) {
    && (s.ovp.tripped ==> t.ovp.tripped)
    && (s.ocp.tripped ==> t.ocp.tripped)
    && (s.opp.tripped ==> t.opp.tripped)
  }

  /** The invariants of the enable protocol: CV and CC are only reported
      while the output is enabled, and an enabled output has its line driven
      and its discharge protection asserted with no release pending. */
  predicate Inv(s: ChState) {
    && (!s.flags.outputEnabled ==> !s.flags.cvMode && !s.flags.ccMode)
    && (s.flags.outputEnabled ==> s.hw.outputLine && s.hw.dpEnabled && !s.delayedDpOff)
  }

  /** What the inner operations keep: the configuration, the collaborators,
      the protection settings, the calibration data, every trip, and the
      invariants. */
  predicate Keeps(s: ChState, t: ChState) {
    && t.cfg == s.cfg && t.env == s.env && t.protConf == s.protConf
    && t.calConf == s.calConf && t.flags.calEnabled == s.flags.calEnabled
    && TripsKept(s, t)
    && (Inv(s) ==> Inv(t))
  }

  lemma KeepsTrans(s: ChState, t: ChState, r: ChState)
    requires Keeps(s, t) && Keeps(t, r)
    ensures Keeps(s, r)
  {
  }

  lemma ModeOffKeeps(s: ChState, m: Mode)
    ensures var t := ModeOff(s, m);
      && Keeps(s, t) && !ModeFlag(t.flags, m)
      && t.flags.outputEnabled == s.flags.outputEnabled
      && t.flags.cvMode == (m == Cc && s.flags.cvMode) && t.flags.ccMode == (m == Cv && s.flags.ccMode)
      && t.hw == s.hw && t.delayedDpOff == s.delayedDpOff
  {
  }

  lemma DisableOutputKeeps(s: ChState, now: nat)
    ensures var t := DisableOutputSpec(s, now);
      Keeps(s, t) && !t.flags.outputEnabled && !t.flags.cvMode && !t.flags.ccMode
  {
    var s1 := s.(flags := s.flags.(outputEnabled := false), hw := s.hw.(outputLine := false));
    var s2 := ModeOff(s1, Cv);
    ModeOffKeeps(s1, Cv);
    ModeOffKeeps(s2, Cc);
    var s3 := ModeOff(s2, Cc);
    assert Keeps(s1, s3);
  }

  lemma EnterKeeps(s: ChState, k: ProtectionKind, now: nat)
    requires s.flags.outputEnabled
    ensures Keeps(s, ProtectionEnterSpec(s, k, now))
  {
    DisableOutputKeeps(s, now);
  }

  lemma WithProtKeeps(s: ChState, k: ProtectionKind, pv: ProtectionValue)
    requires Prot(s, k).tripped ==> pv.tripped
    ensures Keeps(s, WithProt(s, k, pv))
  {
  }

  lemma ProtectionCheckKeeps(s: ChState, k: ProtectionKind, now: nat)
    ensures Keeps(s, ProtectionCheckSpec(s, k, now))
  {
    var pv := Prot(s, k);
    var delay := EffectiveDelay(s.cfg, s.protConf, k);
    var t := ProtectionCheckSpec(s, k, now);
    if !Guard(s, k) {
      assert t == WithProt(s, k, pv.(alarmed := false));
      WithProtKeeps(s, k, pv.(alarmed := false));
    } else if delay > 0.0 && !pv.alarmed {
      assert t == WithProt(s, k, pv.(alarmed := true, alarmStarted := now));
      WithProtKeeps(s, k, pv.(alarmed := true, alarmStarted := now));
    } else if delay > 0.0 && !DelayElapsed(now, pv.alarmStarted, delay) {
    } else if delay > 0.0 {
      var s1 := WithProt(s, k, pv.(alarmed := false));
      WithProtKeeps(s, k, pv.(alarmed := false));
      EnterKeeps(s1, k, now);
      KeepsTrans(s, s1, ProtectionEnterSpec(s1, k, now));
    } else {
      EnterKeeps(s, k, now);
    }
  }

  lemma SetModeKeeps(s: ChState, m: Mode, v: bool, now: nat)
    ensures Keeps(s, SetModeSpec(s, m, v, now))
  {
    var s1 := WithMode(s, m, v && IsOutputEnabled(s.env, s.flags));
    assert Keeps(s, s1);
    ProtectionCheckKeeps(s1, ModeProtection(m), now);
    KeepsTrans(s, s1, SetModeSpec(s, m, v, now));
  }

  lemma AdcDataIsReadyKeeps(s: ChState, data: Int16, now: nat)
    requires Valid(s)
    ensures Keeps(s, AdcDataIsReadySpec(s, data, now))
  {
    match s.hw.adcStartReg0
    case ReadUMon =>
      var r := ReadingToCalibratedValueSpec(s, Voltage, RemapAdcDataToVoltage(s.cfg, data));
      ProtectionCheckKeeps(WithMon(s, Voltage, r), Opp, now);
    case ReadIMon =>
      var r := ReadingToCalibratedValueSpec(s, Current, RemapAdcDataToCurrent(s.cfg, data));
      ProtectionCheckKeeps(WithMon(s, Current, r), Opp, now);
    case ReadUSet =>
    case ReadISet =>
  }

  lemma EventKeeps(s: ChState, gpio: Gpio, data: Int16, now: nat)
    requires Valid(s)
    ensures Keeps(s, EventSpec(s, gpio, data, now))
  {
    if s.env.powerUp && gpio.pwrGood {
      var s1 := AdcDataIsReadySpec(s, data, now);
      var s2 := SetModeSpec(s1, Cv, gpio.cvActive, now);
      AdcDataIsReadyKeeps(s, data, now);
      SetModeKeeps(s1, Cv, gpio.cvActive, now);
      SetModeKeeps(s2, Cc, gpio.ccActive, now);
      KeepsTrans(s, s1, s2);
      KeepsTrans(s, s2, EventSpec(s, gpio, data, now));
    }
  }

  lemma OutputEnableKeeps(s: ChState, enable: bool, now: nat)
    ensures Keeps(s, OutputEnableSpec(s, enable, now))
  {
    if enable == s.flags.outputEnabled {
    } else if enable && !IsOk(s.env, s.flags) {
    } else if enable {
      assert Keeps(s, EnableOutputSpec(s));
    } else {
      DisableOutputKeeps(s, now);
    }
  }

  /** The invariants hold from construction on. */
  lemma InitialInv(cfg: Config, env: Env)
    requires ValidConfig(cfg)
    ensures Valid(InitialState(cfg, env)) && Inv(InitialState(cfg, env))
  {
  }

  /** No entry point other than clearProtection and reset ever clears a trip. */
  lemma StepLatchesTrips(s: ChState, op: Op, now: nat)
    requires Valid(s)
    requires !op.ClearProtection? && !op.Reset?
    ensures TripsKept(s, Step(s, op, now))
  {
    match op
    case ClearProtectionConf =>
    case ClearCalibrationConf =>
    case _ => KeepsSteps(s, op, now);
  }

  /** Every entry point keeps the configuration consistent, the usable
      calibration tables usable, and the invariants of the enable protocol. */
  lemma StepPreservesInvariants(s: ChState, op: Op, now: nat)
    requires Valid(s) && Inv(s)
    ensures Valid(Step(s, op, now)) && Inv(Step(s, op, now))
  {
    match op
    case ClearProtection =>
    case ClearProtectionConf =>
    case ClearCalibrationConf =>
      ClearedTableIsIdentity(s.cfg.U_CAL_VAL_MIN, s.cfg.U_CAL_VAL_MAX, 0.0);
      ClearedTableIsIdentity(s.cfg.I_CAL_VAL_MIN, s.cfg.I_CAL_VAL_MAX, 0.0);
    case Reset =>
    case _ => KeepsSteps(s, op, now);
  }

  lemma KeepsSteps(s: ChState, op: Op, now: nat)
    requires Valid(s)
    requires !op.ClearProtection? && !op.Reset? && !op.ClearProtectionConf? && !op.ClearCalibrationConf?
    ensures Keeps(s, Step(s, op, now))
  {
    match op
    case Event(gpio, data) => EventKeeps(s, gpio, data, now);
    case OutputEnable(e) => OutputEnableKeeps(s, e, now);
    case _ =>
  }

  // ---- the enable gate and idempotence ----

  /** outputEnable(true) turns the output on exactly when the channel is ok
      (or it already was on); refused, it changes nothing but still asks for
      a save. */
  lemma OutputEnableGate(s: ChState, now: nat)
    ensures var t := OutputEnableSpec(s, true, now);
      && (t.flags.outputEnabled <==> s.flags.outputEnabled || IsOk(s.env, s.flags))
      && (!s.flags.outputEnabled && !IsOk(s.env, s.flags) ==> t == Saved(s))
  {
  }

  /** Turning the output on drives the line, asserts DP, cancels a pending
      release, starts the monitor cycle at U_MON and saves once. */
  lemma OutputEnableOn(s: ChState, now: nat)
    requires IsOk(s.env, s.flags) && !s.flags.outputEnabled
    ensures var t := OutputEnableSpec(s, true, now);
      && t.flags.outputEnabled && t.hw.outputLine
      && t.hw.dpEnabled && !t.delayedDpOff
      && t.hw.adcStartReg0 == ReadUMon && t.hw.conversions == s.hw.conversions + 1
      && OperOeOff !in t.ext.regs.serial.oper && OperDpOff !in t.ext.regs.serial.oper
      && t.ext.saves == s.ext.saves + 1
  {
  }

  /** Turning the output off clears CV/CC, stops a calibration session,
      arms the delayed DP release at now (DP itself is still as it was), sets
      OE_OFF and saves once. */
  lemma OutputEnableOff(s: ChState, now: nat)
    requires s.flags.outputEnabled
    ensures var t := OutputEnableSpec(s, false, now);
      && !t.flags.outputEnabled && !t.flags.cvMode && !t.flags.ccMode && !t.hw.outputLine
      && t.delayedDpOff && t.delayedDpOffStart == now && t.hw.dpEnabled == s.hw.dpEnabled
      && (Inv(s) ==> t.hw.dpEnabled)
      && !t.ext.calibrationActive && OperOeOff in t.ext.regs.serial.oper
      && t.ext.saves == s.ext.saves + 1 && t.cfg == s.cfg
      && TripsKept(s, t) && TripsKept(t, s)
  {
    DisableOutputEffect(s, now);
    DisableOutputKeeps(s, now);
  }

  /** outputEnable(e) again right after a call that took effect does
      nothing, so the pair saves once; a call asking for the current state
      does nothing at all. */
  lemma OutputEnableIdempotent(s: ChState, e: bool, now1: nat, now2: nat)
    requires !e || IsOk(s.env, s.flags) || s.flags.outputEnabled
    ensures var t := OutputEnableSpec(s, e, now1);
      && OutputEnableSpec(t, e, now2) == t
      && t.ext.saves == s.ext.saves + (if e == s.flags.outputEnabled then 0 else 1)
      && (e == s.flags.outputEnabled ==> t == s)
  {
    if !e && s.flags.outputEnabled {
      DisableOutputEffect(s, now1);
    }
  }

  /** A refused outputEnable(true) is not idempotent in its saves: every
      call asks for one. */
  lemma OutputEnableRefusedSaves(s: ChState, now1: nat, now2: nat)
    requires !IsOk(s.env, s.flags) && !s.flags.outputEnabled
    ensures OutputEnableSpec(OutputEnableSpec(s, true, now1), true, now2) == Saved(Saved(s))
  {
  }

  /** remoteSensingEnable: the same gate, and the same idempotence. */
  lemma RemoteSensingEnableGate(s: ChState, e: bool)
    ensures var t := RemoteSensingEnableSpec(s, e);
      && (t.flags.senseEnabled <==> if e then s.flags.senseEnabled || IsOk(s.env, s.flags) else false)
      && (t.flags.senseEnabled ==> OperRsensOn in t.ext.regs.serial.oper || e == s.flags.senseEnabled)
      && (e == s.flags.senseEnabled ==> t == s)
      && (e && !s.flags.senseEnabled && !IsOk(s.env, s.flags) ==> t == Saved(s))
      && ((!e || IsOk(s.env, s.flags)) ==> RemoteSensingEnableSpec(t, e) == t)
      && t.ext.saves == s.ext.saves + (if e == s.flags.senseEnabled then 0 else 1)
      && t.(flags := s.flags, ext := s.ext) == s
  {
  }

  // ---- the acquisition cycle ----

  /** What a protection check never touches: the measured and commanded
      values, and the ADC cycle. */
  predicate CycleKept(s: ChState, t: ChState) {
    t.u == s.u && t.i == s.i && t.hw.adcStartReg0 == s.hw.adcStartReg0
      && t.hw.conversions == s.hw.conversions && t.cfg == s.cfg && t.env == s.env
  }

  lemma EnterKeepsCycle(s: ChState, k: ProtectionKind, now: nat)
    ensures CycleKept(s, ProtectionEnterSpec(s, k, now))
  {
    var s1 := if s.flags.outputEnabled then Saved(DisableOutputSpec(s, now)) else s;
    if s.flags.outputEnabled {
      DisableKeepsCycle(s, now);
    }
    EnterTailKeepsCycle(s, s1, k);
  }

  lemma DisableKeepsCycle(s: ChState, now: nat)
    ensures CycleKept(s, Saved(DisableOutputSpec(s, now)))
  {
    DisableOutputEffect(s, now);
  }

  /** The part of protectionEnter after the output is off. */
  lemma EnterTailKeepsCycle(s: ChState, s1: ChState, k: ProtectionKind)
    requires CycleKept(s, s1)
    ensures var s2 := WithProt(s1, k, Prot(s1, k).(tripped := true));
      var s3 := PushQues(s2, ProtectionBit(k), true);
      CycleKept(s, s3.(ext := s3.ext.(beeps := s3.ext.beeps + 1)))
  {
  }

  lemma ProtectionCheckKeepsCycle(s: ChState, k: ProtectionKind, now: nat)
    ensures CycleKept(s, ProtectionCheckSpec(s, k, now))
  {
    var pv := Prot(s, k);
    var delay := EffectiveDelay(s.cfg, s.protConf, k);
    var t := ProtectionCheckSpec(s, k, now);
    if !Guard(s, k) {
      assert t == WithProt(s, k, pv.(alarmed := false));
    } else if delay > 0.0 && !pv.alarmed {
      assert t == WithProt(s, k, pv.(alarmed := true, alarmStarted := now));
    } else if delay > 0.0 && !DelayElapsed(now, pv.alarmStarted, delay) {
    } else if delay > 0.0 {
      var s1 := WithProt(s, k, pv.(alarmed := false));
      EnterKeepsCycle(s1, k, now);
    } else {
      EnterKeepsCycle(s, k, now);
    }
  }

  /** One completion of the four-state cycle: U_MON, then I_MON, then U_MON
      again while the output is on, else U_SET (with both monitors zeroed),
      I_SET, and U_MON once the output is back on. Each completion stores
      the corrected reading of the quantity just converted; an I_SET
      completion with the output off starts no conversion. */
  lemma AdcCycle(s: ChState, data: Int16, now: nat)
    requires Valid(s)
    ensures var t := AdcDataIsReadySpec(s, data, now);
      && (s.hw.adcStartReg0 == ReadUMon ==>
            && t.hw.adcStartReg0 == ReadIMon && t.hw.conversions == s.hw.conversions + 1
            && t.u.mon == ReadingToCalibratedValueSpec(s, Voltage, RemapAdcDataToVoltage(s.cfg, data)))
      && (s.hw.adcStartReg0 == ReadIMon && IsOutputEnabled(t.env, t.flags) ==>
            && t.hw.adcStartReg0 == ReadUMon && t.hw.conversions == s.hw.conversions + 1
            && t.i.mon == ReadingToCalibratedValueSpec(s, Current, RemapAdcDataToCurrent(s.cfg, data)))
      && (s.hw.adcStartReg0 == ReadIMon && !IsOutputEnabled(t.env, t.flags) ==>
            && t.hw.adcStartReg0 == ReadUSet && t.hw.conversions == s.hw.conversions + 1
            && t.u.mon == 0.0 && t.i.mon == 0.0)
      && (s.hw.adcStartReg0 == ReadUSet ==>
            && t.hw.adcStartReg0 == ReadISet && t.hw.conversions == s.hw.conversions + 1
            && t.u.monDac == ReadingToCalibratedValueSpec(s, Voltage, RemapAdcDataToVoltage(s.cfg, data)))
      && (s.hw.adcStartReg0 == ReadISet && IsOutputEnabled(s.env, s.flags) ==>
            && t.hw.adcStartReg0 == ReadUMon && t.hw.conversions == s.hw.conversions + 1
            && t.i.monDac == ReadingToCalibratedValueSpec(s, Current, RemapAdcDataToCurrent(s.cfg, data)))
      && (s.hw.adcStartReg0 == ReadISet && !IsOutputEnabled(s.env, s.flags) ==>
            && t.hw.adcStartReg0 == ReadISet && t.hw.conversions == s.hw.conversions
            && t.i.monDac == ReadingToCalibratedValueSpec(s, Current, RemapAdcDataToCurrent(s.cfg, data)))
  {
    match s.hw.adcStartReg0
    case ReadUMon =>
      var r := ReadingToCalibratedValueSpec(s, Voltage, RemapAdcDataToVoltage(s.cfg, data));
      ProtectionCheckKeepsCycle(WithMon(s, Voltage, r), Opp, now);
    case ReadIMon =>
      var r := ReadingToCalibratedValueSpec(s, Current, RemapAdcDataToCurrent(s.cfg, data));
      ProtectionCheckKeepsCycle(WithMon(s, Current, r), Opp, now);
    case ReadUSet =>
    case ReadISet =>
  }

  /** Without calibration, the converter's end codes read as the range's end
      points. */
  lemma UncalibratedMonitorEnds(s: ChState, now: nat)
    requires Valid(s) && !s.flags.calEnabled && s.hw.adcStartReg0 == ReadUMon
    ensures AdcDataIsReadySpec(s, s.cfg.ADC_MIN, now).u.mon == s.cfg.U_MIN
    ensures AdcDataIsReadySpec(s, s.cfg.ADC_MAX, now).u.mon == s.cfg.U_MAX
  {
    AdcCycle(s, s.cfg.ADC_MIN, now);
    AdcCycle(s, s.cfg.ADC_MAX, now);
  }

  /** event while the supply is powered down does nothing; without the
      power-good bit it only clears power_ok and skips the reading. */
  lemma EventPowerGate(s: ChState, gpio: Gpio, data: Int16, now: nat)
    requires Valid(s)
    ensures !s.env.powerUp ==> EventSpec(s, gpio, data, now) == s
    ensures s.env.powerUp && !gpio.pwrGood ==>
      var t := EventSpec(s, gpio, data, now);
      && !t.flags.powerOk && !IsOk(t.env, t.flags)
      && t.(flags := s.flags) == s
      && t.flags.(powerOk := s.flags.powerOk) == s.flags
  {
  }

  /** After a power-good failure, the output cannot be turned on. */
  lemma PowerFailBlocksEnable(s: ChState, gpio: Gpio, data: Int16, now1: nat, now2: nat)
    requires Valid(s) && s.env.powerUp && !gpio.pwrGood && !s.flags.outputEnabled
    ensures !OutputEnableSpec(EventSpec(s, gpio, data, now1), true, now2).flags.outputEnabled
  {
    EventPowerGate(s, gpio, data, now1);
    OutputEnableGate(EventSpec(s, gpio, data, now1), now2);
  }

  // ---- the delayed DP release ----

  /** tick releases a pending DP exactly when its period has elapsed since
      the output was turned off, sets DP_OFF, and then never again. */
  lemma TickRelease(s: ChState, now: nat, later: nat)
    ensures var t := TickSpec(s, now);
      && (s.delayedDpOff && DelayElapsed(now, s.delayedDpOffStart, s.cfg.DP_OFF_DELAY_PERIOD) ==>
            && !t.delayedDpOff && !t.hw.dpEnabled && OperDpOff in t.ext.regs.serial.oper
            && TickSpec(t, later) == t)
      && (!(s.delayedDpOff && DelayElapsed(now, s.delayedDpOffStart, s.cfg.DP_OFF_DELAY_PERIOD)) ==>
            t == s)
  {
  }

  /** Turning the output off and ticking later: DP is still asserted until
      the period has passed since the disable, and released from then on. */
  lemma DisableThenTick(s: ChState, off: nat, now: nat)
    requires Inv(s) && s.flags.outputEnabled
    ensures TickSpec(OutputEnableSpec(s, false, off), now).hw.dpEnabled <==>
            !DelayElapsed(now, off, s.cfg.DP_OFF_DELAY_PERIOD)
  {
    var t := OutputEnableSpec(s, false, off);
    OutputEnableOff(s, off);
    TickRelease(t, now, now);
  }

  /** Turning the output back on cancels a pending release: later ticks
      leave DP asserted. */
  lemma EnableCancelsRelease(s: ChState, now: nat, later: nat)
    requires IsOk(s.env, s.flags) && !s.flags.outputEnabled
    ensures var t := OutputEnableSpec(s, true, now);
      t.hw.dpEnabled && TickSpec(t, later) == t
  {
  }

  // ---- set points ----

  /** setVoltage / setCurrent store the set point, forget the DAC readback,
      save once, and drive the DAC with the calibrated value: the value
      itself without calibration, and the table's DAC value at either
      calibration point. */
  lemma SetPointDrivesDac(s: ChState, value: real)
    requires Valid(s)
    ensures var t := SetVoltageSpec(s, value);
      && t.u.setpoint == value && t.u.monDac == 0.0 && t.ext.saves == s.ext.saves + 1
      && (!s.flags.calEnabled ==> t.hw.dacVoltage == value)
      && (s.flags.calEnabled && value == s.calConf.u.min.val ==> t.hw.dacVoltage == s.calConf.u.min.dac)
      && (s.flags.calEnabled && value == s.calConf.u.max.val ==> t.hw.dacVoltage == s.calConf.u.max.dac)
    ensures var t := SetCurrentSpec(s, value);
      && t.i.setpoint == value && t.i.monDac == 0.0 && t.ext.saves == s.ext.saves + 1
      && (!s.flags.calEnabled ==> t.hw.dacCurrent == value)
      && (s.flags.calEnabled && value == s.calConf.i.min.val ==> t.hw.dacCurrent == s.calConf.i.min.dac)
      && (s.flags.calEnabled && value == s.calConf.i.max.val ==> t.hw.dacCurrent == s.calConf.i.max.dac)
  {
  }

  /** On ideal hardware, where the ADC reads back at both calibration points
      exactly the code the DAC was given, the corrected readback of a set
      point is the set point, calibrated or not. */
  lemma SetVoltageReadBack(s: ChState, value: real)
    requires Valid(s)
    requires s.calConf.u.min.dac == s.calConf.u.min.adc && s.calConf.u.max.dac == s.calConf.u.max.adc
    ensures var t := SetVoltageSpec(s, value);
      ReadingToCalibratedValueSpec(t, Voltage, t.hw.dacVoltage) == value
  {
    if s.flags.calEnabled {
      CalibrationRoundTrip(s.calConf.u, value);
    }
  }

  // ---- reset and the configuration defaults ----

  /** clearProtection clears every trip and alarm with its QUES bit; only
      an over-temperature trip can then remain. */
  lemma ClearProtectionClears(s: ChState)
    ensures var t := ClearProtectionSpec(s);
      && !t.ovp.tripped && !t.ocp.tripped && !t.opp.tripped
      && !t.ovp.alarmed && !t.ocp.alarmed && !t.opp.alarmed
      && QuesOvp !in t.ext.regs.serial.ques && QuesOcp !in t.ext.regs.serial.ques
      && QuesOpp !in t.ext.regs.serial.ques
      && (s.env.ethernetTestOk ==>
            QuesOvp !in t.ext.regs.ethernet.ques && QuesOcp !in t.ext.regs.ethernet.ques
            && QuesOpp !in t.ext.regs.ethernet.ques)
      && (IsTripped(t.env, t.ovp, t.ocp, t.opp) <==> s.env.temperatureTripped)
      && t.flags == s.flags && t.hw == s.hw
  {
  }

  /** reset restores the defaults: output, sense, modes and power_ok off,
      calibration on exactly when both tables exist, no trips or alarms,
      factory protection settings, set points and steps from the defaults.
      It asks for no save and leaves the OPER bits (RSENS_ON included) and
      the hardware lines as they were: its remoteSensingEnable(false) finds
      the sense flag already cleared. */
  lemma ResetDefaults(s: ChState)
    requires Valid(s)
    ensures var t := ResetSpec(s);
      && t.flags == Flags(false, false, false, false, false, IsCalibrationExists(s.calConf))
      && !t.ovp.tripped && !t.ocp.tripped && !t.opp.tripped
      && !t.ovp.alarmed && !t.ocp.alarmed && !t.opp.alarmed
      && t.protConf == DefaultProtectionConf(s.cfg)
      && t.u == InitValue(s.cfg.U_DEF_STEP) && t.i == InitValue(s.cfg.I_DEF_STEP)
      && QuesOvp !in t.ext.regs.serial.ques && QuesOcp !in t.ext.regs.serial.ques
      && QuesOpp !in t.ext.regs.serial.ques
      && (s.env.ethernetTestOk ==>
            QuesOvp !in t.ext.regs.ethernet.ques && QuesOcp !in t.ext.regs.ethernet.ques
            && QuesOpp !in t.ext.regs.ethernet.ques)
      && t.ext.regs.serial.oper == s.ext.regs.serial.oper
      && t.ext.regs.ethernet.oper == s.ext.regs.ethernet.oper
      && t.ext.saves == s.ext.saves && t.hw == s.hw
      && t.calConf == s.calConf
  {
    var s1 := s.(flags := Flags(false, false, false, false, false, IsCalibrationExists(s.calConf)),
                 ovp := s.ovp.(tripped := false, alarmed := false),
                 ocp := s.ocp.(tripped := false, alarmed := false),
                 opp := s.opp.(tripped := false, alarmed := false));
    ClearProtectionClears(s1);
  }

  /** clearCalibrationConf leaves no calibration, and the cleared tables
      are the identity, so a still-enabled correction changes no reading. */
  lemma ClearCalibrationConfIdentity(s: ChState, q: Quantity, x: real)
    requires Valid(s)
    ensures var t := ClearCalibrationConfSpec(s);
      && !IsCalibrationExists(t.calConf) && Valid(t)
      && ReadingToCalibratedValueSpec(t, q, x) == x
  {
    ClearedTableIsIdentity(s.cfg.U_CAL_VAL_MIN, s.cfg.U_CAL_VAL_MAX, x);
    ClearedTableIsIdentity(s.cfg.I_CAL_VAL_MIN, s.cfg.I_CAL_VAL_MAX, x);
  }

  /** clearProtectionConf: the factory enable flags, delays and level. */
  lemma ClearProtectionConfDefaults(s: ChState)
    ensures var t := ClearProtectionConfSpec(s);
      && t.protConf.uState == s.cfg.OVP_DEFAULT_STATE && t.protConf.uDelay == s.cfg.OVP_DEFAULT_DELAY
      && t.protConf.iState == s.cfg.OCP_DEFAULT_STATE && t.protConf.iDelay == s.cfg.OCP_DEFAULT_DELAY
      && t.protConf.pState == s.cfg.OPP_DEFAULT_STATE && t.protConf.pDelay == s.cfg.OPP_DEFAULT_DELAY
      && t.protConf.pLevel == s.cfg.OPP_DEFAULT_LEVEL
      && t.(protConf := s.protConf) == s
  {
  }

  // ---- CV/CC re-derived on every completion ----

  /** A protection check either leaves the flags alone or turns the output
      off. */
  lemma CheckFlags(s: ChState, k: ProtectionKind, now: nat)
    ensures var t := ProtectionCheckSpec(s, k, now);
      t.flags == s.flags || !t.flags.outputEnabled
  {
    var pv := Prot(s, k);
    var delay := EffectiveDelay(s.cfg, s.protConf, k);
    if Guard(s, k) && (delay <= 0.0 || (pv.alarmed && DelayElapsed(now, pv.alarmStarted, delay))) {
      var s1 := if delay > 0.0 then WithProt(s, k, pv.(alarmed := false)) else s;
      if s1.flags.outputEnabled {
        DisableOutputEffect(s1, now);
      }
    }
  }

  lemma AdcDataIsReadyFlags(s: ChState, data: Int16, now: nat)
    requires Valid(s)
    ensures var t := AdcDataIsReadySpec(s, data, now);
      t.flags == s.flags || !t.flags.outputEnabled
  {
    match s.hw.adcStartReg0
    case ReadUMon =>
      var r := ReadingToCalibratedValueSpec(s, Voltage, RemapAdcDataToVoltage(s.cfg, data));
      CheckFlags(WithMon(s, Voltage, r), Opp, now);
    case ReadIMon =>
      var r := ReadingToCalibratedValueSpec(s, Current, RemapAdcDataToCurrent(s.cfg, data));
      CheckFlags(WithMon(s, Current, r), Opp, now);
    case ReadUSet =>
    case ReadISet =>
  }

  /** setCvMode / setCcMode, when the output survives them: it was on, the
      mode now is the requested one (while powered up), the other mode is
      untouched. */
  lemma SetModeFlags(s: ChState, m: Mode, v: bool, now: nat)
    ensures var t := SetModeSpec(s, m, v, now);
      t.flags.outputEnabled ==>
        && s.flags.outputEnabled
        && ModeFlag(t.flags, m) == (v && s.env.powerUp)
        && ModeFlag(t.flags, OtherMode(m)) == ModeFlag(s.flags, OtherMode(m))
  {
    var s1 := WithMode(s, m, v && IsOutputEnabled(s.env, s.flags));
    CheckFlags(s1, ModeProtection(m), now);
  }

  function OtherMode(m: Mode): (o: Mode)
    ensures o != m
  {
    match m
    case Cv => Cc
    case Cc => Cv
  }

  /** After a completion with power good, a channel whose output is still on
      is in CV exactly when the CV bit is set and in CC exactly when the CC
      bit is set; a channel whose output is off is in neither (given the
      invariant). */
  lemma EventModes(s: ChState, gpio: Gpio, data: Int16, now: nat)
    requires Valid(s) && s.env.powerUp && gpio.pwrGood
    ensures var t := EventSpec(s, gpio, data, now);
      && (t.flags.outputEnabled ==>
            s.flags.outputEnabled && (t.flags.cvMode <==> gpio.cvActive) && (t.flags.ccMode <==> gpio.ccActive))
      && (Inv(s) && !t.flags.outputEnabled ==> !t.flags.cvMode && !t.flags.ccMode)
  {
    var s1 := AdcDataIsReadySpec(s, data, now);
    var s2 := SetModeSpec(s1, Cv, gpio.cvActive, now);
    AdcDataIsReadyFlags(s, data, now);
    AdcDataIsReadyKeeps(s, data, now);
    SetModeFlags(s1, Cv, gpio.cvActive, now);
    SetModeFlags(s2, Cc, gpio.ccActive, now);
    EventKeeps(s, gpio, data, now);
  }

  // ---- a trip forces the output off within the same entry point ----

  /** Some protection not tripped in s is tripped in t. */
  predicate NewTrip(s: ChState, t: ChState) {
    || (!s.ovp.tripped && t.ovp.tripped)
    || (!s.ocp.tripped && t.ocp.tripped)
    || (!s.opp.tripped && t.opp.tripped)
  }

  /** If the output is on in t, it was on in s and no trip changed between
      them. Chains of such steps compose. */
  predicate OnKeepsTrips(s: ChState, t: ChState) {
    t.flags.outputEnabled ==>
      && s.flags.outputEnabled
      && t.ovp.tripped == s.ovp.tripped && t.ocp.tripped == s.ocp.tripped
      && t.opp.tripped == s.opp.tripped
  }

  lemma CheckOnKeepsTrips(s: ChState, k: ProtectionKind, now: nat)
    ensures OnKeepsTrips(s, ProtectionCheckSpec(s, k, now))
  {
    var pv := Prot(s, k);
    var delay := EffectiveDelay(s.cfg, s.protConf, k);
    if Guard(s, k) && (delay <= 0.0 || (pv.alarmed && DelayElapsed(now, pv.alarmStarted, delay))) {
      var s1 := if delay > 0.0 then WithProt(s, k, pv.(alarmed := false)) else s;
      assert s1.flags.outputEnabled;
      DisableOutputEffect(s1, now);
    }
  }

  /** Storing a mode touches neither the output flag nor any protection. */
  lemma WithModeFrame(s: ChState, m: Mode, v: bool)
    ensures var t := WithMode(s, m, v);
      t.flags.outputEnabled == s.flags.outputEnabled && t.ovp == s.ovp && t.ocp == s.ocp && t.opp == s.opp
  {
  }

  lemma SetModeOnKeepsTrips(s: ChState, m: Mode, v: bool, now: nat)
    ensures OnKeepsTrips(s, SetModeSpec(s, m, v, now))
  {
    var s1 := WithMode(s, m, v && IsOutputEnabled(s.env, s.flags));
    WithModeFrame(s, m, v && IsOutputEnabled(s.env, s.flags));
    CheckOnKeepsTrips(s1, ModeProtection(m), now);
  }

  lemma AdcDataIsReadyOnKeepsTrips(s: ChState, data: Int16, now: nat)
    requires Valid(s)
    ensures OnKeepsTrips(s, AdcDataIsReadySpec(s, data, now))
  {
    match s.hw.adcStartReg0
    case ReadUMon =>
      var r := ReadingToCalibratedValueSpec(s, Voltage, RemapAdcDataToVoltage(s.cfg, data));
      CheckOnKeepsTrips(WithMon(s, Voltage, r), Opp, now);
    case ReadIMon =>
      var r := ReadingToCalibratedValueSpec(s, Current, RemapAdcDataToCurrent(s.cfg, data));
      CheckOnKeepsTrips(WithMon(s, Current, r), Opp, now);
    case ReadUSet =>
    case ReadISet =>
  }

  /** Whatever trips during an event, in the completion's OPP check or in
      the OVP and OCP checks of the two mode calls after it, leaves the
      output off when the event returns. */
  lemma EventTripForcesOff(s: ChState, gpio: Gpio, data: Int16, now: nat)
    requires Valid(s)
    ensures var t := EventSpec(s, gpio, data, now);
      NewTrip(s, t) ==> !t.flags.outputEnabled
  {
    if s.env.powerUp && gpio.pwrGood {
      var s1 := AdcDataIsReadySpec(s, data, now);
      var s2 := SetModeSpec(s1, Cv, gpio.cvActive, now);
      AdcDataIsReadyOnKeepsTrips(s, data, now);
      SetModeOnKeepsTrips(s1, Cv, gpio.cvActive, now);
      SetModeOnKeepsTrips(s2, Cc, gpio.ccActive, now);
    }
  }

  /** Over every entry point: once a protection becomes tripped, the output
      is off by the time the entry point returns. Only an event can trip
      anything; every other entry point trips nothing new. */
  lemma StepTripForcesOff(s: ChState, op: Op, now: nat)
    requires Valid(s)
    ensures NewTrip(s, Step(s, op, now)) ==> !Step(s, op, now).flags.outputEnabled
    ensures !op.Event? ==> !NewTrip(s, Step(s, op, now))
  {
    match op
    case Event(gpio, data) => EventTripForcesOff(s, gpio, data, now);
    case OutputEnable(e) =>
      if e != s.flags.outputEnabled && !e {
        OutputEnableOff(s, now);
      }
    case Reset => ResetDefaults(s);
    case _ =>
  }

  // ---- debounce over a sequence of checks ----

  /** protectionCheck of kind k run at each of the given times in turn. */
  function CheckAt(s: ChState, k: ProtectionKind, times: seq<nat>): ChState
    decreases |times|
  {
    if |times| == 0 then s else CheckAt(ProtectionCheckSpec(s, k, times[0]), k, times[1..])
  }

  lemma {:induction false} CheckAtAppend(s: ChState, k: ProtectionKind, a: seq<nat>, b: seq<nat>)
    ensures CheckAt(s, k, a + b) == CheckAt(CheckAt(s, k, a), k, b)
    decreases |a|
  {
    if |a| > 0 {
      assert (a + b)[1..] == a[1..] + b;
      CheckAtAppend(ProtectionCheckSpec(s, k, a[0]), k, a[1..], b);
    } else {
      assert a + b == b;
    }
  }

  /** An armed alarm whose condition persists changes nothing, however many
      checks run, as long as none comes at or after the deadline. */
  lemma {:induction false} DebounceHolds(s: ChState, k: ProtectionKind, times: seq<nat>)
    requires Guard(s, k) && EffectiveDelay(s.cfg, s.protConf, k) > 0.0 && Prot(s, k).alarmed
    requires forall j :: 0 <= j < |times| ==>
      !DelayElapsed(times[j], Prot(s, k).alarmStarted, EffectiveDelay(s.cfg, s.protConf, k))
    ensures CheckAt(s, k, times) == s
    decreases |times|
  {
    if |times| > 0 {
      CheckDebounced(s, k, times[0]);
      assert ProtectionCheckSpec(s, k, times[0]) == s;
      DebounceHolds(s, k, times[1..]);
    }
  }

  /** A protection whose enable flag is off never arms and never trips,
      however many checks run: each only disarms it, and nothing else of
      the channel changes. */
  lemma {:induction false} DisabledNeverTrips(s: ChState, k: ProtectionKind, times: seq<nat>)
    requires !ProtectionEnabled(s.protConf, k)
    ensures var t := CheckAt(s, k, times);
      && Prot(t, k).tripped == Prot(s, k).tripped
      && (|times| > 0 ==> !Prot(t, k).alarmed)
      && OnlyProtChanged(s, t, k)
    decreases |times|
  {
    if |times| > 0 {
      var s1 := ProtectionCheckSpec(s, k, times[0]);
      CheckIdle(s, k, times[0]);
      DisabledNeverTrips(s1, k, times[1..]);
    }
  }

  /** From an enabled output with the condition first detected at t0 and
      persisting: checks before the deadline only arm the alarm (the output
      stays on), and the first check at or after it trips the protection. */
  lemma DebounceTrips(s: ChState, k: ProtectionKind, t0: nat, times: seq<nat>, tEnd: nat)
    requires Guard(s, k) && EffectiveDelay(s.cfg, s.protConf, k) > 0.0 && !Prot(s, k).alarmed
    requires forall j :: 0 <= j < |times| ==> !DelayElapsed(times[j], t0, EffectiveDelay(s.cfg, s.protConf, k))
    requires DelayElapsed(tEnd, t0, EffectiveDelay(s.cfg, s.protConf, k))
    ensures var armed := CheckAt(s, k, [t0] + times);
      armed == WithProt(s, k, Prot(s, k).(alarmed := true, alarmStarted := t0)) && armed.flags.outputEnabled
    ensures var t := CheckAt(s, k, [t0] + times + [tEnd]);
      TrippedAndOff(s, t, k) && !Prot(t, k).alarmed
  {
    var s1 := ProtectionCheckSpec(s, k, t0);
    CheckAlarmStart(s, k, t0);
    assert ([t0] + times)[1..] == times;
    assert CheckAt(s, k, [t0] + times) == CheckAt(s1, k, times);
    assert Guard(s1, k);
    DebounceHolds(s1, k, times);
    CheckAtAppend(s, k, [t0] + times, [tEnd]);
    assert [tEnd][1..] == [];
    assert CheckAt(s1, k, [tEnd]) == ProtectionCheckSpec(s1, k, tEnd);
    CheckDebounced(s1, k, tEnd);
  }

  // ---- a completion re-checks OPP against the reading it stored ----

  /** The state after a U_MON or I_MON completion has stored its corrected
      reading, before the OPP check. */
  function MonitorStored(s: ChState, data: Int16): ChState
    requires Valid(s)
  {
    if s.hw.adcStartReg0 == ReadUMon then
      WithMon(s, Voltage, ReadingToCalibratedValueSpec(s, Voltage, RemapAdcDataToVoltage(s.cfg, data)))
    else
      WithMon(s, Current, ReadingToCalibratedValueSpec(s, Current, RemapAdcDataToCurrent(s.cfg, data)))
  }

  /** Two states agree on everything a protection check decides: flags,
      protections, outside state, lines and the pending release. */
  predicate SameOutcome(c: ChState, t: ChState) {
    && t.flags == c.flags && t.ovp == c.ovp && t.ocp == c.ocp && t.opp == c.opp
    && t.ext == c.ext && t.hw.outputLine == c.hw.outputLine && t.hw.dpEnabled == c.hw.dpEnabled
    && t.delayedDpOff == c.delayedDpOff && t.delayedDpOffStart == c.delayedDpOffStart
  }

  /** A U_MON or I_MON completion ends with the outcome of protectionCheck(opp)
      on the state holding the new reading; only the cycle and, with the
      output off, the zeroed monitors follow it. */
  lemma MonitorCompletionIsOppCheck(s: ChState, data: Int16, now: nat)
    requires Valid(s) && (s.hw.adcStartReg0 == ReadUMon || s.hw.adcStartReg0 == ReadIMon)
    ensures SameOutcome(ProtectionCheckSpec(MonitorStored(s, data), Opp, now), AdcDataIsReadySpec(s, data, now))
  {
  }

  /** A U_MON or I_MON completion, judged by OPP on the new reading: with the
      guard failing the alarm is disarmed and nothing else changes; with it
      holding, a first detection arms the alarm at now, an armed alarm waits
      unchanged until the delay has elapsed and then trips with the output
      forced off, and with a delay of zero or less the trip is immediate. */
  lemma MonitorCompletionOpp(s: ChState, data: Int16, now: nat)
    requires Valid(s) && (s.hw.adcStartReg0 == ReadUMon || s.hw.adcStartReg0 == ReadIMon)
    ensures var s1 := MonitorStored(s, data);
      var t := AdcDataIsReadySpec(s, data, now);
      var d := EffectiveDelay(s.cfg, s.protConf, Opp);
      && (!Guard(s1, Opp) ==>
            t.opp == s.opp.(alarmed := false) && t.ovp == s.ovp && t.ocp == s.ocp
            && t.flags == s.flags && t.ext == s.ext)
      && (Guard(s1, Opp) && d > 0.0 && !s.opp.alarmed ==>
            t.opp == s.opp.(alarmed := true, alarmStarted := now) && t.ovp == s.ovp && t.ocp == s.ocp
            && t.flags == s.flags && t.ext == s.ext)
      && (Guard(s1, Opp) && d > 0.0 && s.opp.alarmed && !DelayElapsed(now, s.opp.alarmStarted, d) ==>
            t.opp == s.opp && t.ovp == s.ovp && t.ocp == s.ocp && t.flags == s.flags && t.ext == s.ext)
      && (Guard(s1, Opp) && d > 0.0 && s.opp.alarmed && DelayElapsed(now, s.opp.alarmStarted, d) ==>
            TrippedAndOff(s, t, Opp) && !t.opp.alarmed)
      && (Guard(s1, Opp) && d <= 0.0 ==> TrippedAndOff(s, t, Opp))
  {
    var s1 := MonitorStored(s, data);
    var d := EffectiveDelay(s.cfg, s.protConf, Opp);
    MonitorCompletionIsOppCheck(s, data, now);
    assert s1.ext == s.ext && s1.flags == s.flags && s1.opp == s.opp && s1.ovp == s.ovp && s1.ocp == s.ocp;
    assert s1.protConf == s.protConf && s1.cfg == s.cfg;
    if !Guard(s1, Opp) {
      CheckIdle(s1, Opp, now);
    } else if d > 0.0 && !s.opp.alarmed {
      CheckAlarmStart(s1, Opp, now);
    } else if d > 0.0 {
      CheckDebounced(s1, Opp, now);
    } else {
      CheckImmediateTrip(s1, Opp, now);
    }
  }

  /** U_SET and I_SET completions only store the DAC readback: no protection,
      flag or outside state changes. */
  lemma ReadbackCompletionChecksNothing(s: ChState, data: Int16, now: nat)
    requires Valid(s) && (s.hw.adcStartReg0 == ReadUSet || s.hw.adcStartReg0 == ReadISet)
    ensures var t := AdcDataIsReadySpec(s, data, now);
      && t.ovp == s.ovp && t.ocp == s.ocp && t.opp == s.opp
      && t.flags == s.flags && t.ext == s.ext && t.u.mon == s.u.mon && t.i.mon == s.i.mon
  {
  }

  /** Every entry point keeps the state valid. */
  lemma StepKeepsValid(s: ChState, op: Op, now: nat)
    requires Valid(s)
    ensures Valid(Step(s, op, now))
  {
    match op
    case ClearProtection =>
    case ClearProtectionConf =>
    case ClearCalibrationConf =>
      ClearedTableIsIdentity(s.cfg.U_CAL_VAL_MIN, s.cfg.U_CAL_VAL_MAX, 0.0);
      ClearedTableIsIdentity(s.cfg.I_CAL_VAL_MIN, s.cfg.I_CAL_VAL_MAX, 0.0);
    case Reset =>
    case _ => KeepsSteps(s, op, now);
  }

  /** valueAddReading keeps the state valid. */
  lemma ValueAddReadingKeepsValid(s: ChState, q: Quantity, reading: real, now: nat)
    requires Valid(s)
    ensures Valid(ValueAddReadingSpec(s, q, reading, now))
  {
    ProtectionCheckKeeps(WithMon(s, q, ReadingToCalibratedValueSpec(s, q, reading)), Opp, now);
  }

  /** adcDataIsReady keeps the state valid. */
  lemma AdcDataIsReadyKeepsValid(s: ChState, data: Int16, now: nat)
    requires Valid(s)
    ensures Valid(AdcDataIsReadySpec(s, data, now))
  {
    AdcDataIsReadyKeeps(s, data, now);
  }
}
