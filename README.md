# EEZ PSU channel: measurement, protection and output control

This project models one power-supply channel of the EEZ PSU firmware: the
`Channel` object of `eez_psu_sketch/channel.cpp`, and the properties it
promises.

Each channel has:

- an ADC that measures the output voltage and current, and reads back the values the DAC was set to;
- a DAC that drives the voltage and current set points;
- an IO expander with the output-enable line, the discharge-protection (DP) line and the power-good, CV and CC input bits;
- three protections: over-voltage (OVP), over-current (OCP) and over-power (OPP).

The ADC runs a four-state cycle: output voltage (U_MON), output current (I_MON), DAC voltage readback (U_SET), DAC current readback (I_SET).

- A U_MON or I_MON completion stores the corrected monitor reading and re-checks OPP against it.
- A U_SET or I_SET completion only stores the corrected readback and checks no protection.
- After a completion the next conversion starts, except that an I_SET completion with the output off starts none.
- The IO expander's CV/CC bits then go to `setCvMode` and `setCcMode`. Each call re-checks OVP or OCP, whether or not the mode changed.

A protection is checked only while its enable flag is set and the output is on. If its condition then holds, it arms an alarm when its effective delay is positive and trips once that delay has elapsed. With an effective delay of zero or less it trips at once. Tripping turns the output off. Turning the output off arms a delayed release of DP, which a later `tick` completes.

The project has six files:

- `util.dfy` (module `Util`): the two-point line `Remap` and its inverse, `Clamp`, and the truncating float-to-integer cast.
- `calibration.dfy` (module `Calibration`): the calibration table and the two-point correction in both directions (reading to value, value to DAC). It also covers the table `clearCalibrationConf` writes.
- `channel_types.dfy` (module `ChannelTypes`): the channel's data. This covers the configuration constants, flags, values, protection state and configuration, the ADC register, the GPIO bits, the QUES/OPER status bits of both remote interfaces, and the driver state. It also holds the pure queries `isTestOk`, `isOk`, `isOutputEnabled` and `isTripped`, the per-kind trip conditions and delays, and the code/unit remaps.
- `channel_spec.dfy` (module `ChannelSpec`): the channel as a value `ChState`, with one function per operation from the state before to the state after. `Step` lists the entry points the rest of the firmware calls.
- `channel.dfy` (module `ChannelImpl`): the class `Channel`, whose fields are updated in place. Every method is proved to produce exactly the state its `ChannelSpec` function describes.
  - The nested call chain protectionCheck → protectionEnter → outputEnable(false) → doOutputEnable(false) → setCvMode/setCcMode → protectionCheck is kept as mutual recursion between the methods.
  - The `decreases` clauses show that the inner round of checks runs with the output already off, so it cannot recurse further.
- `channel_properties.dfy` (module `ChannelProperties`): the properties, stated about the `ChannelSpec` functions. They cover:
  - the debounce state machine, including over a whole sequence of checks;
  - trip latching;
  - the CV/CC and DP invariant, preserved by every entry point;
  - the enable gate and idempotence;
  - the acquisition cycle;
  - the power-good gate;
  - the DP release timer;
  - the set points;
  - reset and the configuration defaults.

The rest of the firmware is represented as follows:

- The collaborators the channel only reads are a field `env` of type `Env`: `psu::isPowerUp`, the driver self-test results, the ethernet self-test, and `temperature::isChannelTripped`.
- What the channel writes outside itself is a field `ext` of type `Outside`:
  - the status bits of the serial and ethernet interfaces; ethernet is written only when its self-test passed, as in `setQuesBits`/`setOperBits`;
  - whether a calibration session is running;
  - counts of the `profile::save` and `sound::playBeep` requests.
- The driver objects are a field `hw` of type `Drivers`:
  - the next conversion, `adc.start_reg0`;
  - a count of conversions started;
  - the output-enable and DP lines;
  - the last values handed to the DAC.
- `micros()` is a parameter `now: nat`, in microseconds, given to each operation that reads it. One handler invocation reads a single time.

Observations about the code:

- `doOutputEnable(true)` checks only `isOk()`, not `isTripped()`. A tripped channel's output can be turned back on without `clearProtection` (`OutputEnableGate` has no trip condition).
- `reset` clears `flags.sense_enabled` before it calls `remoteSensingEnable(false)`, so that call does nothing. It requests no save, and it leaves the RSENS_ON status bit and the sense relay as they were (`ResetDefaults`). `reset` also leaves the output-enable and DP lines alone. `Channel::update`, which re-drives them, is not part of this model. For this reason the invariant `Inv` requires only that an enabled output has its line driven, not the converse.
- `clearCalibrationConf` does not clear `flags.cal_enabled`. The table it writes is the identity, so a still-enabled correction changes no value (`ClearCalibrationConfIdentity`).
- A refused `outputEnable(true)` (when `isOk()` is false) still calls `profile::save` every time, because `outputEnable` compares against the flag, not against the outcome (`OutputEnableRefusedSaves`).

## Model

| member | source | states |
|---|---|---|
| Util.Remap | eez_psu_sketch/channel.cpp:325-327 | the line through two points sends each input end point to its output end point |
| Util.Clamp | eez_psu_sketch/channel.cpp:333-336 | the result lies in [lo, hi]; it equals x when x already does, lo when x is below and hi when x is above |
| Util.Truncate | eez_psu_sketch/channel.cpp:333-336 | the (int16_t) cast drops the fraction toward zero: the result is within one of x, on x's side of zero |
| Util.RemapRoundTrip | eez_psu_sketch/channel.cpp:325-341 | remapping through a line and back through its mirror returns the input |
| Util.RemapMidpoint | eez_psu_sketch/channel.cpp:325-331 | the middle of the input range maps to the middle of the output range |
| Util.RemapBetween | eez_psu_sketch/channel.cpp:325-331 | on an increasing line, inputs between the end points map between the outputs |
| Util.RemapDiagonal | eez_psu_sketch/channel.cpp:246-260 | a line through two diagonal points is the identity |
| Util.RemapTruncateReadBack | eez_psu_sketch/channel.cpp:325-341 | on an increasing line, truncating the remapped value and remapping it back lands within one output step of the start |
| Calibration.CalibratedReading | eez_psu_sketch/channel.cpp:343-353 | identity without calibration; with it, the table's min/max ADC readings give the min/max values |
| Calibration.CalibratedDacValue | eez_psu_sketch/channel.cpp:576-598 | identity without calibration; with it, the min/max values drive the table's min/max DAC values |
| Calibration.ClearedCalibrationConf | eez_psu_sketch/channel.cpp:246-260 | after clearing no calibration exists, and the tables are usable whenever the factory points differ |
| Calibration.ClearedTableIsIdentity | eez_psu_sketch/channel.cpp:246-260 | both corrections over a cleared table return their input |
| Calibration.CalibrationRoundTrip | eez_psu_sketch/channel.cpp:343-353 | when the ADC reads back the DAC code at both points, correcting the readback of a corrected set point returns the set point |
| Calibration.MidPointUnused | eez_psu_sketch/channel.cpp:343-353 | replacing the mid point changes neither correction |
| ChannelTypes.RemapAdcDataToVoltage | eez_psu_sketch/channel.cpp:325-327 | ADC_MIN reads as U_MIN and ADC_MAX as U_MAX |
| ChannelTypes.RemapAdcDataToCurrent | eez_psu_sketch/channel.cpp:329-331 | ADC_MIN reads as I_MIN and ADC_MAX as I_MAX |
| ChannelTypes.ClampToCode | eez_psu_sketch/channel.cpp:333-341 | the code lies in [-ADC_MAX-1, ADC_MAX]; an in-range value is truncated toward zero, as the int16_t cast does, and an out-of-range value saturates to ADC_MAX above and -ADC_MAX-1 below |
| ChannelTypes.RemapVoltageToAdcData | eez_psu_sketch/channel.cpp:333-336 | the code is clamped to [-ADC_MAX-1, ADC_MAX]; U_MIN gives ADC_MIN and U_MAX gives ADC_MAX; on an increasing range, a voltage between U_MIN and U_MAX gives the truncated point of the line, within [ADC_MIN, ADC_MAX] |
| ChannelTypes.VoltageCodeReadsBack | eez_psu_sketch/channel.cpp:333-336 | on an increasing range, the code for a voltage between U_MIN and U_MAX, read back through the converter remap, is within one converter step of that voltage |
| ChannelTypes.RemapCurrentToAdcData | eez_psu_sketch/channel.cpp:338-341 | the code is clamped to [-ADC_MAX-1, ADC_MAX]; I_MIN gives ADC_MIN and I_MAX gives ADC_MAX; on an increasing range, a current between I_MIN and I_MAX gives the truncated point of the line, within [ADC_MIN, ADC_MAX] |
| ChannelTypes.CurrentCodeReadsBack | eez_psu_sketch/channel.cpp:338-341 | on an increasing range, the code for a current between I_MIN and I_MAX, read back through the converter remap, is within one converter step of that current |
| ChannelSpec.SetModeWhileOff | eez_psu_sketch/channel.cpp:421-453 | with the output off, setCvMode/setCcMode clear the mode with its bits and disarm the protection's alarm; nothing trips |
| ChannelImpl.Channel.constructor | eez_psu_sketch/channel.cpp:80-108 | a new channel holds zeroed channel fields (static storage), with chosen starting values for the driver fields (next conversion U_MON, lines off), and is valid |
| ChannelImpl.Channel.SetProt | eez_psu_sketch/channel.cpp:121-172 | stores one protection's debounce state and nothing else |
| ChannelImpl.Channel.ProtectionEnter | eez_psu_sketch/channel.cpp:110-119 | the new state is ProtectionEnterSpec of the old: output off (saving if it was on), trip latched, QUES bit set, one beep |
| ChannelImpl.Channel.ProtectionCheck | eez_psu_sketch/channel.cpp:121-172 | the new state is ProtectionCheckSpec of the old: disarm, arm at now, wait, or enter the trip |
| ChannelImpl.Channel.ClearProtection | eez_psu_sketch/channel.cpp:611-623 | the new state is ClearProtectionSpec of the old: all trips, alarms and QUES protection bits cleared |
| ChannelImpl.Channel.SetCcMode | eez_psu_sketch/channel.cpp:421-436 | the new state is SetModeSpec(Cc): the mode forced off while the output is off, bits mirrored on change, OCP re-checked |
| ChannelImpl.Channel.SetCvMode | eez_psu_sketch/channel.cpp:438-453 | the new state is SetModeSpec(Cv): the mode forced off while the output is off, bits mirrored on change, OVP re-checked |
| ChannelImpl.Channel.DoOutputEnable | eez_psu_sketch/channel.cpp:498-531 | the new state is DoOutputEnableSpec: unchanged when enabling a channel that is not ok, else the enable or the disable |
| ChannelImpl.Channel.EnableOutput | eez_psu_sketch/channel.cpp:498-531 | the enable path: flag and line on, U_MON conversion started, pending release cancelled, DP on, OE_OFF cleared |
| ChannelImpl.Channel.DisableOutput | eez_psu_sketch/channel.cpp:498-531 | the disable path: flag and line off, CV and CC cleared through setCvMode/setCcMode, calibration stopped, release armed at now, OE_OFF set |
| ChannelImpl.Channel.OutputEnable | eez_psu_sketch/channel.cpp:554-559 | the new state is OutputEnableSpec: nothing when already in that state, else doOutputEnable and one save |
| ChannelImpl.Channel.DoRemoteSensingEnable | eez_psu_sketch/channel.cpp:533-540 | the new state is DoRemoteSensingEnableSpec: refused while not ok, else the flag and RSENS_ON |
| ChannelImpl.Channel.RemoteSensingEnable | eez_psu_sketch/channel.cpp:565-570 | the new state is RemoteSensingEnableSpec: nothing when already in that state, else doRemoteSensingEnable and one save |
| ChannelImpl.Channel.Tick | eez_psu_sketch/channel.cpp:314-323 | the new state is TickSpec: the pending DP release completes once its period has elapsed |
| ChannelImpl.Channel.SetVoltage | eez_psu_sketch/channel.cpp:576-586 | the new state is SetVoltageSpec: set point stored, readback cleared, corrected value to the DAC, one save |
| ChannelImpl.Channel.SetCurrent | eez_psu_sketch/channel.cpp:588-598 | the new state is SetCurrentSpec: set point stored, readback cleared, corrected value to the DAC, one save |
| ChannelImpl.Channel.ValueAddReading | eez_psu_sketch/channel.cpp:355-358 | the new state is ValueAddReadingSpec: corrected reading stored as the monitor value, OPP re-checked; the state stays valid |
| ChannelImpl.Channel.ValueAddReadingDac | eez_psu_sketch/channel.cpp:360-362 | the new state is ValueAddReadingDacSpec: corrected reading stored as the DAC readback |
| ChannelImpl.Channel.AdcDataIsReady | eez_psu_sketch/channel.cpp:371-414 | the new state is AdcDataIsReadySpec: one step of the four-state conversion cycle; the state stays valid |
| ChannelImpl.Channel.Event | eez_psu_sketch/channel.cpp:455-470 | the new state is EventSpec: the power gates, then the reading, then CV and CC from the GPIO bits; the state stays valid |
| ChannelImpl.Channel.ClearProtectionConf | eez_psu_sketch/channel.cpp:262-271 | the protection configuration becomes the factory default |
| ChannelImpl.Channel.ClearCalibrationConf | eez_psu_sketch/channel.cpp:246-260 | the calibration configuration becomes the cleared one |
| ChannelImpl.Channel.Reset | eez_psu_sketch/channel.cpp:199-244 | the new state is ResetSpec of the old |
| ChannelProperties.CheckIdle | eez_psu_sketch/channel.cpp:144-171 | a failed guard disarms the alarm and keeps the trip and the alarm time; nothing else changes |
| ChannelProperties.CheckAlarmStart | eez_psu_sketch/channel.cpp:144-164 | a first detection with a positive delay arms the alarm at now and does not trip; nothing else changes |
| ChannelProperties.CheckImmediateTrip | eez_psu_sketch/channel.cpp:165-166 | with no delay left a detection trips at once: latched, output and both modes off, release armed, QUES bit set, one beep, one save |
| ChannelProperties.CheckDebounced | eez_psu_sketch/channel.cpp:145-158 | while alarmed and detected, a trip happens exactly when the delay has elapsed since the alarm (also clearing the alarm); otherwise nothing changes |
| ChannelProperties.DebouncedTripDelays | eez_psu_sketch/channel.cpp:126-158 | an armed, detected alarm trips exactly when u_delay − PROT_DELAY_CORRECTION (OVP), i_delay − PROT_DELAY_CORRECTION (OCP) or p_delay (OPP) has elapsed since it was armed |
| ChannelProperties.EnterTrips | eez_psu_sketch/channel.cpp:110-119 | protectionEnter on an enabled output latches the trip, turns everything off, sets the bit, beeps and saves once |
| ChannelProperties.DisableOutputEffect | eez_psu_sketch/channel.cpp:498-531 | the net effect of doOutputEnable(false) on every field but the status registers, of which it states OE_OFF on both interfaces (ethernet when its self-test passed); this includes that OVP and OCP alarms are disarmed by the inner checks and the DAC values are untouched |
| ChannelProperties.ModeOffEffect | eez_psu_sketch/channel.cpp:421-453 | a mode change with the output off clears that mode only and disarms only its protection |
| ChannelProperties.ModeOffKeeps | eez_psu_sketch/channel.cpp:421-453 | a mode change with the output off keeps trips and invariants and clears only that mode |
| ChannelProperties.DisableOutputKeeps | eez_psu_sketch/channel.cpp:498-531 | doOutputEnable(false) keeps trips and invariants and leaves no mode set |
| ChannelProperties.EnterKeeps | eez_psu_sketch/channel.cpp:110-119 | protectionEnter clears no trip and keeps the invariants |
| ChannelProperties.WithProtKeeps | eez_psu_sketch/channel.cpp:121-172 | changing one protection's state without clearing its trip keeps trips and invariants |
| ChannelProperties.ProtectionCheckKeeps | eez_psu_sketch/channel.cpp:121-172 | protectionCheck never clears a trip and keeps the invariants |
| ChannelProperties.SetModeKeeps | eez_psu_sketch/channel.cpp:421-453 | setCvMode/setCcMode never clear a trip and keep the invariants |
| ChannelProperties.AdcDataIsReadyKeeps | eez_psu_sketch/channel.cpp:371-414 | a completion never clears a trip and keeps the invariants |
| ChannelProperties.EventKeeps | eez_psu_sketch/channel.cpp:455-470 | event never clears a trip and keeps the invariants |
| ChannelProperties.OutputEnableKeeps | eez_psu_sketch/channel.cpp:554-559 | outputEnable never clears a trip and keeps the invariants |
| ChannelProperties.InitialInv | eez_psu_sketch/channel.cpp:80-108 | a new channel is valid and satisfies the invariants |
| ChannelProperties.StepLatchesTrips | eez_psu_sketch/channel.cpp:113 | no entry point other than clearProtection and reset clears a trip |
| ChannelProperties.StepPreservesInvariants | eez_psu_sketch/channel.cpp:421-453 | every entry point keeps the state valid and keeps "no CV/CC while the output is off" and "an enabled output has its line on, DP on and no release pending" |
| ChannelProperties.KeepsSteps | eez_psu_sketch/channel.cpp:455-598 | the entry points that do not reset configuration keep the configuration, the collaborators' state, the protection settings, the calibration data, every trip and the invariants |
| ChannelProperties.OutputEnableGate | eez_psu_sketch/channel.cpp:498-501 | outputEnable(true) leaves the output on exactly when it was on or the channel is ok; refused, it leaves everything alone except one save |
| ChannelProperties.OutputEnableOn | eez_psu_sketch/channel.cpp:498-531 | enabling drives the line, asserts DP, cancels the pending release, starts U_MON, clears OE_OFF and DP_OFF, saves once |
| ChannelProperties.OutputEnableOff | eez_psu_sketch/channel.cpp:498-531 | disabling clears CV/CC and the line, stops calibration, arms the release at now with DP left as it was (still on when the enable invariant held), sets OE_OFF, saves once, keeps every trip |
| ChannelProperties.OutputEnableIdempotent | eez_psu_sketch/channel.cpp:554-559 | a second outputEnable(e) after a first one changes nothing, so the pair saves at most once; asking for the current state changes nothing, also when the output is on while the channel is no longer ok |
| ChannelProperties.OutputEnableRefusedSaves | eez_psu_sketch/channel.cpp:554-559 | two refused outputEnable(true) calls save twice and change nothing else |
| ChannelProperties.RemoteSensingEnableGate | eez_psu_sketch/channel.cpp:533-540 | the sense flag follows the request unless enabling a channel that is not ok (then only a save); the call is idempotent, saves once per change and touches only flags and outside state |
| ChannelProperties.EnterKeepsCycle | eez_psu_sketch/channel.cpp:110-119 | protectionEnter leaves the readings, set points and conversion cycle alone |
| ChannelProperties.DisableKeepsCycle | eez_psu_sketch/channel.cpp:498-531 | disabling the output leaves the readings, set points and conversion cycle alone |
| ChannelProperties.EnterTailKeepsCycle | eez_psu_sketch/channel.cpp:113-118 | latching the trip, setting its bit and beeping leave the readings and the cycle alone |
| ChannelProperties.ProtectionCheckKeepsCycle | eez_psu_sketch/channel.cpp:121-172 | protectionCheck leaves the readings, set points and conversion cycle alone |
| ChannelProperties.AdcCycle | eez_psu_sketch/channel.cpp:371-414 | U_MON→I_MON; I_MON→U_MON while the output is on, else both monitors zeroed and →U_SET; U_SET→I_SET; I_SET→U_MON while on, else no conversion; each state stores its corrected reading |
| ChannelProperties.UncalibratedMonitorEnds | eez_psu_sketch/channel.cpp:325-327 | without calibration a U_MON completion of ADC_MIN/ADC_MAX stores U_MIN/U_MAX |
| ChannelProperties.EventPowerGate | eez_psu_sketch/channel.cpp:455-466 | event does nothing while powered down; with the power-good bit missing it only clears power_ok, skipping the reading |
| ChannelProperties.PowerFailBlocksEnable | eez_psu_sketch/channel.cpp:455-466 | after a power-good failure the output cannot be turned on |
| ChannelProperties.TickRelease | eez_psu_sketch/channel.cpp:314-323 | tick releases a pending DP exactly when its period has elapsed, sets DP_OFF, and then never acts again; otherwise it changes nothing |
| ChannelProperties.DisableThenTick | eez_psu_sketch/channel.cpp:521-528 | after a disable at time off, DP is still asserted at a tick exactly when DP_OFF_DELAY_PERIOD has not yet passed since off |
| ChannelProperties.EnableCancelsRelease | eez_psu_sketch/channel.cpp:521-524 | after an enable, DP is on and no later tick changes anything |
| ChannelProperties.SetPointDrivesDac | eez_psu_sketch/channel.cpp:576-598 | set point and cleared readback stored, one save; the DAC gets the value itself without calibration and the table's DAC value at either calibration point |
| ChannelProperties.SetVoltageReadBack | eez_psu_sketch/channel.cpp:576-586 | on ideal hardware the corrected readback of the value setVoltage drives is the set point |
| ChannelProperties.ClearProtectionClears | eez_psu_sketch/channel.cpp:611-623 | every trip and alarm and its QUES bit is cleared, on the serial interface and, when its self-test passed, on ethernet; the channel counts as tripped afterwards exactly when the temperature protection tripped it |
| ChannelProperties.ResetDefaults | eez_psu_sketch/channel.cpp:199-244 | reset's defaults: flags all off but cal_enabled, which follows isCalibrationExists; no trips, alarms or QUES protection bits (serial, and ethernet when its self-test passed); factory protection settings; default values; no save; OPER bits of both interfaces, lines and calibration untouched |
| ChannelProperties.ClearCalibrationConfIdentity | eez_psu_sketch/channel.cpp:246-260 | after clearCalibrationConf no calibration exists and the correction returns every reading unchanged |
| ChannelProperties.ClearProtectionConfDefaults | eez_psu_sketch/channel.cpp:262-271 | every protection enable flag, delay and the power level take their factory default, nothing else changes |
| ChannelProperties.CheckFlags | eez_psu_sketch/channel.cpp:121-172 | a protection check leaves the flags alone unless it turns the output off |
| ChannelProperties.AdcDataIsReadyFlags | eez_psu_sketch/channel.cpp:371-414 | a completion leaves the flags alone unless a trip turns the output off |
| ChannelProperties.SetModeFlags | eez_psu_sketch/channel.cpp:421-453 | if the output survives setCvMode/setCcMode, it was on, the mode is set exactly when it was requested and the supply is powered up, and the other mode is untouched |
| ChannelProperties.EventModes | eez_psu_sketch/channel.cpp:455-470 | after a completion with power good, a channel still on is in CV exactly when the CV bit is set and in CC exactly when the CC bit is set; one that is off is in neither |
| ChannelProperties.CheckAtAppend | eez_psu_sketch/channel.cpp:121-172 | running checks at times a then at times b is running them at a followed by b |
| ChannelProperties.DebounceHolds | eez_psu_sketch/channel.cpp:145-158 | an armed, still-detected alarm survives any number of checks before its deadline with no change at all |
| ChannelProperties.DebounceTrips | eez_psu_sketch/channel.cpp:144-166 | detected from t0 on: every check before the deadline leaves the output on with the alarm armed at t0, and the first check at or after it trips |
| ChannelProperties.MonitorCompletionIsOppCheck | eez_psu_sketch/channel.cpp:355-358 | a U_MON/I_MON completion ends with the flags, protections, outside state and lines that protectionCheck(opp) gives on the state holding the new reading |
| ChannelProperties.MonitorCompletionOpp | eez_psu_sketch/channel.cpp:373-394 | a U_MON/I_MON completion with OPP's guard false on the new reading disarms OPP and changes no other protection, flag or outside state; with it true, it arms OPP at now, waits unchanged, trips at the deadline, or trips at once when its delay is zero or less |
| ChannelProperties.ReadbackCompletionChecksNothing | eez_psu_sketch/channel.cpp:396-412 | U_SET/I_SET completions change no protection, flag, outside state or monitor reading |
| ChannelProperties.StepKeepsValid | eez_psu_sketch/channel.cpp:199-623 | every entry point keeps the state valid |
| ChannelProperties.ValueAddReadingKeepsValid | eez_psu_sketch/channel.cpp:355-358 | valueAddReading keeps the state valid |
| ChannelProperties.AdcDataIsReadyKeepsValid | eez_psu_sketch/channel.cpp:371-414 | adcDataIsReady keeps the state valid |
| ChannelTypes.InitValue | eez_psu_sketch/channel.cpp:51-56 | Value::init zeroes the set point, the monitor reading and the DAC readback, and takes the step from its argument |
| ChannelTypes.DefaultProtectionConf | eez_psu_sketch/channel.cpp:262-271 | the factory enable flag of each protection, its factory delay (OVP and OCP then waiting it less PROT_DELAY_CORRECTION) and the factory OPP level |
| ChannelTypes.IsTestOk | eez_psu_sketch/channel.cpp:304-308 | true exactly when the IO expander, ADC and DAC tests all passed; a failed or not-run test of any of them makes it false |
| ChannelTypes.IsOk | eez_psu_sketch/channel.cpp:310-312 | ok exactly when powered up, power-good not lost and the drivers test-ok; either power condition missing makes it false |
| ChannelTypes.IsOutputEnabled | eez_psu_sketch/channel.cpp:561-563 | the output flag while the supply is powered up, false while it is not |
| ChannelTypes.IsTripped | eez_psu_sketch/channel.cpp:604-609 | any of OVP, OCP, OPP tripped, or the temperature protection, makes the channel tripped; without the temperature trip it is tripped exactly when one of the three is |
| Calibration.IsCalibrationExists | eez_psu_sketch/channel.cpp:600-602 | calibration exists exactly when both the voltage and the current parameters exist |
| ChannelTypes.TripCondition | eez_psu_sketch/channel.cpp:127-140 | OVP can only fire in CV mode and always does in CV alone; with CC also set it needs the current 10 mA or more off its set point; OCP symmetrically with CC and the voltage; OPP exactly when u.mon × i.mon exceeds p_level |
| ChannelTypes.EffectiveDelay | eez_psu_sketch/channel.cpp:126-142 | OVP and OCP wait their configured delay shortened by PROT_DELAY_CORRECTION, OPP its configured delay unchanged |
| ChannelProperties.DisabledNeverTrips | eez_psu_sketch/channel.cpp:144-172 | with its enable flag (u_state, i_state, p_state) off, a protection never arms and never trips over any number of checks, and nothing else changes |
| ChannelSpec.ReadingToCalibratedValueSpec | eez_psu_sketch/channel.cpp:343-353 | the reading itself while calibration is off; with it on, the table's ADC end points of the chosen quantity read as its measured end values |
| ChannelProperties.EventTripForcesOff | eez_psu_sketch/channel.cpp:455-470 | whatever trips during an event (OPP in the completion, OVP or OCP in the mode calls after it) leaves the output off when the event returns |
| ChannelProperties.StepTripForcesOff | eez_psu_sketch/channel.cpp:110-119 | over every entry point, a protection that becomes tripped leaves the output off when the entry point returns, and no entry point but an event trips anything |

## Left out

- `flags.power_ok` is only ever cleared here (by `reset` and by `event` on a power-good failure). No code in channel.cpp sets it; whatever sets it lies outside this model, so from the initial state alone no path of the modelled entry points enables the output; the properties are stated for every valid state.
- `eez_psu_sketch/gui_calibration.cpp` is not part of this model. It is a user-interface wizard over the calibration module.
- The driver objects (`ioexp`, `adc`, `dac`), their `init`/`test`/`tick`, and the board and binding-post outputs (`board::*Led*`, `bp::switchOutput`, `bp::switchSense`, `updateBoardCcAndCvSwitch`) are not modelled. They are reduced to the fields of `Drivers`: the lines driven, the next conversion with a count of conversions started, and the last DAC values. Their own timing and SPI traffic are left out.
- `profile::save` and `sound::playBeep` are counters. `profile::enableSave`, `DebugTrace` and `psu::generateError` are left out, because they are calls into code outside this model with no effect on the channel's state.
- `psu::powerDownBySensor`, called by `event` on a power-good failure, is not followed. That call leads through the system power-down into `onPowerDown` (channel.cpp:190-197), which turns the output and remote sensing off. In the model, after a power-good failure only power_ok is cleared: the output flag and line, the sense flag and the modes keep their values. Enabling is refused from then on (`PowerFailBlocksEnable`).
- `calibration::isEnabled`/`calibration::stop` are a single flag in `Outside`.
- `adcReadMonDac` and `adcReadAll` block on `delay(...)`, so they are left out as real-time waits.
- `Channel::Simulator` and the `CONF_DEBUG` mirrors are simulator and debug code, left out.
- `onPowerDown` (channel.cpp:190-197) is not modelled. It calls `outputEnable(false)` and `remoteSensingEnable(false)` with saving disabled, and is reached only through the system power-down path above.
- `init`, `test`, `update`, `isTestFailed`, `isPowerOk` and `isRemoteSensingEnabled` are outside the modelled entry points. They are driver initialisation, self-test and re-driving of outputs, or plain field reads.
- Floating point is modelled as real arithmetic, with no rounding and no `fabs` precision.
- `micros()` is a natural number that does not wrap around. An operation reads one time, even where the source calls `micros()` twice.
- The header constants are parameters of `Config`: the converter range, `PROT_DELAY_CORRECTION`, `DP_OFF_DELAY_PERIOD` and `CALIBRATION_REMARK_INIT`. The GPIO word is decoded into its three bits (`Gpio`), because the bit positions are not part of this model.
- `util::remap`, `util::clamp` and the ISUM status-register helpers are not part of this model:
  - `util::remap` is taken to be the standard two-point line and `util::clamp` the standard clamp;
  - the status registers are sets of bits, one pair for each interface.
- The calibration tables are assumed usable: their end points differ whenever calibration is enabled or present (`ChannelSpec.Valid`). The calibration module that writes them is not part of this model.
- ChannelImpl.Channel.DoOutputEnable: the source runs the enable and disable paths interleaved in one body. The model splits them into `EnableOutput` and `DisableOutput`, which perform the same assignments in the same order for each path.
- `setQuesBits`, `setOperBits`, `doDpEnable` and `adc.start` are written inline as assignments in the methods and as the functions `PushQues`, `PushOper`, `DoDpEnableSpec` and `StartConversion` in the specification.
- The class methods are proved equal to the `ChannelSpec` functions, and the properties are proved about those functions. No property is restated separately for the objects.
