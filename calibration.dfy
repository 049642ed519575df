/** The per-channel calibration table and the two-point correction a channel
    applies with it (eez_psu_sketch/channel.cpp, readingToCalibratedValue,
    setVoltage/setCurrent, clearCalibrationConf, isCalibrationExists). */
module Calibration {
  import opened Util

  /** One calibration point: the DAC value driven, the engineering value
      measured externally and the ADC value read back. */
  datatype CalPoint = CalPoint(dac: real, val: real, adc: real)

  /** The three points of one quantity. Only min and max take part in the
      correction; mid is kept for the record. */
  datatype CalTable = CalTable(min: CalPoint, mid: CalPoint, max: CalPoint)

  datatype CalibrationConf = CalibrationConf(
    uExists: bool, iExists: bool,
    u: CalTable, i: CalTable,
    date: string, remark: string)

  /** A table the two-point correction can use in both directions: its two
      outer points differ in ADC value and in engineering value. */
  predicate UsableTable(t: CalTable) {
    t.min.adc != t.max.adc && t.min.val != t.max.val
  }

  /** Calibration counts as present only when both quantities have one. */
  function IsCalibrationExists(c: CalibrationConf): (r: bool)
    ensures r ==> c.uExists && c.iExists
    ensures c.uExists && c.iExists ==> r
    ensures !c.uExists || !c.iExists ==> !r
  {
    c.iExists && c.uExists
  }

  /** The monitor reading after correction: the line through the table's
      (adc, val) end points when calibration is enabled, else the reading. */
  function CalibratedReading(calEnabled: bool, t: CalTable, reading: real): (r: real)
    requires calEnabled ==> UsableTable(t)
    ensures !calEnabled ==> r == reading
    ensures calEnabled && reading == t.min.adc ==> r == t.min.val
    ensures calEnabled && reading == t.max.adc ==> r == t.max.val
  {
    if calEnabled then Remap(reading, t.min.adc, t.min.val, t.max.adc, t.max.val) else reading
  }

  /** The value handed to the DAC for a set point: the line through the
      table's (val, dac) end points when calibration is enabled. */
  function CalibratedDacValue(calEnabled: bool, t: CalTable, value: real): (r: real)
    requires calEnabled ==> UsableTable(t)
    ensures !calEnabled ==> r == value
    ensures calEnabled && value == t.min.val ==> r == t.min.dac
    ensures calEnabled && value == t.max.val ==> r == t.max.dac
  {
    if calEnabled then Remap(value, t.min.val, t.min.dac, t.max.val, t.max.dac) else value
  }

  function ClearedPoint(v: real): CalPoint { CalPoint(v, v, v) }

  /** The table clearCalibrationConf writes: every field of a point equal to
      the factory calibration value, mid half-way between min and max. */
  function ClearedTable(lo: real, hi: real): CalTable {
    CalTable(ClearedPoint(lo), ClearedPoint((lo + hi) / 2.0), ClearedPoint(hi))
  }

  function ClearedCalibrationConf(uLo: real, uHi: real, iLo: real, iHi: real, remarkInit: string): (c: CalibrationConf)
    ensures !IsCalibrationExists(c)
    ensures uLo != uHi && iLo != iHi ==> UsableTable(c.u) && UsableTable(c.i)
  {
    CalibrationConf(false, false, ClearedTable(uLo, uHi), ClearedTable(iLo, iHi), "", remarkInit)
  }

  /** A cleared table is the identity in both directions, so a stale
      calibration-enabled flag over a cleared table changes no value. */
  lemma ClearedTableIsIdentity(lo: real, hi: real, x: real)
    requires lo != hi
    ensures UsableTable(ClearedTable(lo, hi))
    ensures CalibratedReading(true, ClearedTable(lo, hi), x) == x
    ensures CalibratedDacValue(true, ClearedTable(lo, hi), x) == x
  {
    RemapDiagonal(x, lo, hi);
  }

  /** With ideal hardware, where the ADC reads back exactly the code the DAC
      was given at both end points, correcting the readback of a corrected set
      point gives the set point back. */
  lemma CalibrationRoundTrip(t: CalTable, value: real)
    requires UsableTable(t)
    requires t.min.dac == t.min.adc && t.max.dac == t.max.adc
    ensures CalibratedReading(true, t, CalibratedDacValue(true, t, value)) == value
  {
    RemapRoundTrip(value, t.min.val, t.min.dac, t.max.val, t.max.dac);
  }

  /** The mid point of a table never changes either correction. */
  lemma MidPointUnused(t: CalTable, p: CalPoint, calEnabled: bool, x: real)
    requires calEnabled ==> UsableTable(t)
    ensures CalibratedReading(calEnabled, t.(mid := p), x) == CalibratedReading(calEnabled, t, x)
    ensures CalibratedDacValue(calEnabled, t.(mid := p), x) == CalibratedDacValue(calEnabled, t, x)
  {
  }
}
