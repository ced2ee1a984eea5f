/** The shared control state: main/app_state.c, main/heater.c and main/session_journal.c over values. */
module ControlPlane {
  import opened Common
  import opened PlantState
  import opened SafetyLatch
  import opened FanTriac
  import opened ControlLease
  import HF = HeaterFaults

  /** Everything the policy guard protects, with the SSR pin. `prepared`/`dirty` belong to the session journal. */
  datatype Plant = Plant(
    settings: Settings,
    rt: Runtime,
    epoch: nat,
    maintenance: bool,
    latch: Latch,
    prepared: bool,
    dirty: bool,
    fan: Fan,
    ssr: bool,
    lease: Lease,
    board: Board,
    printer: Printer)

  const CHECKPOINT_LIMIT_C := 45.0
  const MAINTENANCE_LIMIT_C := 30.0

  // ---------------------------------------------------------------- main/app_state.c

  function NextEpoch(e: nat): nat
  {
    var a := (e + 1) % UINT32;
    if a == 0 then 1 else a
  }

  predicate OutputsBusy(p: Plant) { p.rt.heaterOn || p.rt.fanOn || Active(p.fan) }

  predicate StartAllowed(p: Plant) { !p.maintenance && !p.latch.latched && !p.latch.inhibited }

  predicate ScheduleAllowed(p: Plant, nowUs: int)
  {
    StartAllowed(p) && (p.lease.owner.LocalJob? || (SnapshotOf(p.lease).active && !Expired(p.lease, nowUs)))
  }

  /** shu1_control_network_setup_begin: nothing works, nothing is powered, nobody else holds the reservation. */
  predicate ReservationFree(p: Plant) { !p.maintenance && !AnyWork(p.settings) && !OutputsBusy(p) }

  predicate CheckpointAllowed(p: Plant, nowMs: int)
  {
    && !p.latch.latched && !p.latch.inhibited
    && FreshBelow(p.rt, p.board, nowMs, CHECKPOINT_LIMIT_C, CHECKPOINT_LIMIT_C)
    && ReservationFree(p)
  }

  /** shu1_control_maintenance_begin: the stricter cold condition of OTA and factory reset. */
  predicate MaintenanceAllowed(p: Plant, nowMs: int)
  {
    && ReservationFree(p) && !p.latch.latched
    && p.rt.lastSensorMs > 0 && 0 <= nowMs - p.rt.lastSensorMs <= SENSOR_MAX_AGE_MS
    && p.rt.chamberStatus.SensorOk? && p.rt.ptcStatus.SensorOk?
    && p.rt.chamberInstant.Below(MAINTENANCE_LIMIT_C) && p.rt.ptcInstant.Below(MAINTENANCE_LIMIT_C)
  }

  /** shu1_state_update_settings_command. */
  function AfterCommand(p: Plant, s: Settings): Plant
  {
    p.(settings := LimitTargets(s), epoch := NextEpoch(p.epoch))
  }

  /** shu1_state_commit_control_if_epoch. */
  function AfterCommit(p: Plant, s: Settings, rt: Runtime, expected: nat): Plant
  {
    if p.epoch == expected then p.(settings := LimitTargets(s), rt := rt) else p
  }

  // ---------------------------------------------------------------- main/heater.c

  function AfterCut(p: Plant): Plant { p.(ssr := false, rt := p.rt.(heaterOn := false)) }

  /** The interlock of shu1_heater_set once the fan request is placed. */
  predicate MayEnergise(p: Plant, nowUs: int)
  {
    Running(p.fan, nowUs) && p.prepared && !p.latch.latched && !p.latch.inhibited
  }

  function AfterHeaterSet(p: Plant, heat: bool, fanOn: bool, nowUs: int): Plant
  {
    var q := (if heat && fanOn then p else AfterCut(p)).(fan := AfterSet(p.fan, fanOn));
    var on := heat && fanOn && MayEnergise(q, nowUs);
    q.(ssr := on, rt := q.rt.(heaterOn := on, fanOn := Running(q.fan, nowUs)))
  }

  function Inhibited(p: Plant): Plant { p.(latch := AfterInhibit(p.latch)) }

  /** Deferred trip: the SSR is cut before anything else. */
  function Tripped(p: Plant, fault: int): Plant
  {
    AfterCut(p).(latch := AfterDeferTrip(p.latch, fault))
  }

  /** shu1_safety_latch_clear_block_reason: true when it returns the empty string. */
  predicate ClearUnblocked(p: Plant, nowMs: int)
  {
    && !p.latch.inhibited
    && !p.settings.workOn && !p.settings.schedule.enabled && !p.rt.heaterOn
    && FreshBelow(p.rt, p.board, nowMs, CHAMBER_HARD_CUTOFF_C, PTC_HARD_CUTOFF_C)
    && !(p.latch.fault == HF.ZERO_CROSS_LOST && !p.rt.zeroCross)
  }

  // ---------------------------------------------------------------- main/session_journal.c

  /** What one service call of the journal decides under the guard. */
  datatype JournalPlan = JournalIdle | WriteDirty | WriteClean

  function JournalDecision(p: Plant, nowMs: int): JournalPlan
  {
    if p.latch.latched || p.latch.inhibited then JournalIdle
    else if p.settings.workOn || p.settings.schedule.enabled then (if p.prepared then JournalIdle else WriteDirty)
    else if p.dirty && CheckpointAllowed(p, nowMs) then WriteClean
    else JournalIdle
  }

  function AfterJournalDecision(p: Plant, nowMs: int): Plant
  {
    if JournalDecision(p, nowMs).WriteClean? then p.(maintenance := true, prepared := false) else p
  }

  function AfterDirtyWritten(p: Plant, ok: bool): Plant
  {
    if ok then p.(dirty := true, prepared := true) else Inhibited(p)
  }

  function AfterCleanWritten(p: Plant, ok: bool): Plant
  {
    (if ok then p.(dirty := false) else Inhibited(p)).(maintenance := false)
  }

  /** write_marker: a failed write may or may not have landed. */
  function AfterMarker(cell: Option<int>, value: bool, w: NvsWrite): Option<int>
  {
    var written := Some(if value then 1 else 0);
    if w.Committed? || w.firstLanded then written else cell
  }

  datatype MarkerRead = MarkerReadFails | MarkerReadsOk

  /** shu1_session_journal_init: latch, `dirty`, and whether the journal is unusable. */
  function AfterJournalInit(l: Latch, cell: Option<int>, read: MarkerRead): (Latch, bool, bool)
  {
    if read.MarkerReadFails? then (l, false, true)
    else if cell.None? then (l, false, false)
    else if cell.value > 1 then (l, false, true)
    else if cell.value != 0 then (AfterTripVolatile(l, HF.PERSISTED_FAULT), true, false)
    else (l, false, false)
  }
}
