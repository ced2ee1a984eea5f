/** Value types shared by every part of the model. */
module Common {

  datatype Option<+T> = None | Some(value: T)

  /** A float reading: a finite value, or NaN/infinity. Comparisons with a bad reading are false, as in C. */
  datatype Temp = Bad | Deg(c: real) {
    predicate AtLeast(limit: real) { Deg? && c >= limit }
    predicate Below(limit: real) { Deg? && c < limit }
  }

  function Min(a: int, b: int): int { if a < b then a else b }

  function Max(a: int, b: int): int { if a < b then b else a }

  function Clamp(v: int, lo: int, hi: int): int
  {
    if v < lo then lo else if v > hi then hi else v
  }

  /** C integer division: the quotient is truncated toward zero. */
  function TruncDiv(a: int, b: int): int
    requires b > 0
  {
    if a >= 0 then a / b else -((-a) / b)
  }

  function MinReal(a: real, b: real): real { if a < b then a else b }

  function MaxReal(a: real, b: real): real { if a < b then b else a }

  /** ceilf over the reals. */
  function Ceil(x: real): int { -((-x).Floor) }

  /** One NVS write: it commits, or it fails and any subset of the cells may have landed. */
  datatype NvsWrite = Committed | Failed(firstLanded: bool, secondLanded: bool)
}

/** shu1_heater_fault_t (main/app_state.h:27-46). */
module HeaterFaults {
  const OK := 0
  const SENSOR_FAULT := 1
  const OVERTEMP := 2
  const NO_RISE := 3
  const DRYING_TIMER_EXPIRED := 6
  const PRINTER_NOT_READY := 7
  const PREHEAT_COMPLETE := 8
  const SESSION_TIMEOUT := 9
  const DRYOUT_COMPLETE := 10
  const HEALTH_TEST_COMPLETE := 11
  const HEALTH_TEST_FAILED := 12
  const PERSISTED_FAULT := 14
  const NVS_UNREADABLE := 15
  const PANIC_OFF := 16
  const LINK_LOST := 17
  const ZERO_CROSS_LOST := 18
  const FAULT_COUNT := 19

  /** A reason outside the enum is recorded as a generic persisted fault. */
  function Sanitize(fault: int): int
  {
    if fault <= OK || fault >= FAULT_COUNT then PERSISTED_FAULT else fault
  }
}
