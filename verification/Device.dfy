/**
 * main/app_state.c, main/heater.c, main/session_journal.c and main/settings_deferred.c in the form they have there:
 * shared records updated in place, step by step, with durable writes in between.
 */
module Device {
  import opened Common
  import opened PlantState
  import opened SafetyLatch
  import opened FanTriac
  import opened ControlLease
  import opened ControlPlane
  import opened Firmware
  import HF = HeaterFaults

  class Controller {
    const latch: FaultLatch
    const fan: TriacFan
    const arbiter: Arbiter
    var settings: Settings
    var rt: Runtime
    var epoch: nat
    var maintenance: bool
    var prepared: bool
    var dirty: bool
    var ssrPin: bool
    var board: Board
    var printer: Printer

    ghost predicate Valid()
      reads this, fan
    {
      fan.Valid()
    }

    ghost function View(): Plant
      reads this, latch, fan, arbiter
    {
      Plant(settings, rt, epoch, maintenance, latch.View(), prepared, dirty, fan.View(), ssrPin, arbiter.View(), board,
            printer)
    }

    /** Power-up, before the latch and the journal have been read: everything off, nothing prepared. */
    constructor (settings: Settings, board: Board)
      ensures Valid() && fresh(latch) && fresh(fan) && fresh(arbiter)
      ensures View() == Plant(settings, BOOT_RUNTIME, 1, false, RESET, false, false, POWER_ON, false, NO_LEASE,
                              board, BOOT_PRINTER)
    {
      latch := new FaultLatch();
      fan := new TriacFan();
      arbiter := new Arbiter();
      this.settings, this.board, printer, rt := settings, board, BOOT_PRINTER, BOOT_RUNTIME;
      epoch, maintenance, prepared, dirty, ssrPin := 1, false, false, false, false;
    }

    // -------------------------------------------------------------- main/heater.c

    method CutPower()
      modifies this`ssrPin, this`rt
      ensures View() == AfterCut(old(View()))
    {
      ssrPin := false;
      rt := rt.(heaterOn := false);
    }

    /**
     * The interlock: the fan is requested first, and the SSR follows only an applied fan, a ready journal, no fault.
     */
    method HeaterSet(heat: bool, fanOn: bool, nowUs: int)
      requires Valid()
      modifies this`ssrPin, this`rt, fan
      ensures Valid() && View() == AfterHeaterSet(old(View()), heat, fanOn, nowUs)
    {
      hide AfterSet, Running;
      if !heat || !fanOn {
        CutPower();
      }
      fan.Set(fanOn);
      ghost var q := (if heat && fanOn then old(View()) else AfterCut(old(View()))).(fan := fan.View());
      assert View() == q;
      var running := fan.IsRunning(nowUs);
      var physical := heat && fanOn && running && prepared && !latch.latched && !latch.inhibited;
      assert physical == (heat && fanOn && MayEnergise(q, nowUs));
      WriteOutputs(physical, running);
    }

    /** The SSR pin and its runtime mirror. */
    method WriteOutputs(on: bool, running: bool)
      modifies this`ssrPin, this`rt
      ensures View() == old(View()).(ssr := on, rt := old(rt).(heaterOn := on, fanOn := running))
    {
      ssrPin := on;
      rt := rt.(heaterOn := on);
      rt := rt.(fanOn := running);
    }

    /** Cutting power precedes the trip, so no energised moment waits for it. */
    method TripDeferred(fault: int)
      modifies this`ssrPin, this`rt, latch
      ensures View() == Tripped(old(View()), fault)
    {
      CutPower();
      latch.DeferTrip(fault);
    }

    // -------------------------------------------------------------- main/app_state.c

    method IsOutputBusy() returns (busy: bool)
      ensures busy == OutputsBusy(View())
    {
      busy := rt.heaterOn || rt.fanOn || (fan.initialized && fan.requested);
    }

    method IsStartAllowed() returns (allowed: bool)
      ensures allowed == StartAllowed(View())
    {
      allowed := !maintenance && !latch.latched && !latch.inhibited;
    }

    method IsScheduleAllowed(nowUs: int) returns (allowed: bool)
      ensures allowed == ScheduleAllowed(View(), nowUs)
    {
      var started := IsStartAllowed();
      var a := arbiter;
      var leased := a.ready && Remote(a.owner) && a.id.Some?;
      allowed := started && (a.owner.LocalJob? || (leased && nowUs <= a.deadlineUs));
    }

    method LimitSettings(s: Settings) returns (limited: Settings)
      ensures limited == LimitTargets(s)
    {
      var maximum := if MAX_TARGET_C < VALIDATION_MAX_TARGET_C then MAX_TARGET_C else VALIDATION_MAX_TARGET_C;
      limited := s.(targetC := Clamp(s.targetC, 0, maximum));
      limited := limited.(drying := s.drying.(customC := Clamp(s.drying.customC, 0, maximum)));
      limited := limited.(preheat := s.preheat.(targetC := Clamp(s.preheat.targetC, 0, maximum)));
      limited := limited.(schedule := s.schedule.(targetC := Clamp(s.schedule.targetC, 0, maximum)));
      limited := limited.(dryout := s.dryout.(targetC := Clamp(s.dryout.targetC, 0, maximum)));
      limited := limited.(health := s.health.(targetC := Clamp(s.health.targetC, 0, maximum)));
      limited := limited.(ramp := s.ramp.(endC := Clamp(s.ramp.endC, 0, maximum),
                                          currentC := Clamp(s.ramp.currentC, 0, maximum)));
      limited := limited.(keepWarm := s.keepWarm.(targetC := Clamp(s.keepWarm.targetC, 0, maximum)));
    }

    method AdvanceEpoch()
      modifies this`epoch
      ensures epoch == NextEpoch(old(epoch))
    {
      epoch := (epoch + 1) % UINT32;
      if epoch == 0 {
        epoch := epoch + 1;
      }
    }

    method UpdateSettingsCommand(s: Settings)
      modifies this`settings, this`epoch
      ensures View() == AfterCommand(old(View()), s)
    {
      settings := LimitSettings(s);
      AdvanceEpoch();
    }

    /** A pass that started from an older command epoch changes nothing. */
    method CommitControlIfEpoch(s: Settings, runtime: Runtime, expected: nat) returns (current: bool)
      modifies this`settings, this`rt
      ensures current == (epoch == expected) && View() == AfterCommit(old(View()), s, runtime, expected)
    {
      current := epoch == expected;
      if current {
        settings := LimitSettings(s);
        rt := runtime;
      }
    }

    method NetworkSetupBegin() returns (ok: bool)
      modifies this`maintenance
      ensures ok == ReservationFree(old(View()))
      ensures View() == if ok then old(View()).(maintenance := true) else old(View())
    {
      var busy := IsOutputBusy();
      if maintenance || settings.workOn || settings.schedule.enabled || settings.preheat.running ||
         settings.drying.running || settings.dryout.running || settings.health.running || settings.keepWarm.active ||
         settings.pickup || busy {
        return false;
      }
      maintenance := true;
      ok := true;
    }

    method CheckpointBegin(nowMs: int) returns (ok: bool)
      modifies this`maintenance
      ensures ok == CheckpointAllowed(old(View()), nowMs)
      ensures View() == if ok then old(View()).(maintenance := true) else old(View())
    {
      var age := nowMs - rt.lastSensorMs;
      var chamber := SafetyTemperature(rt.chamberInstant, board.chamberOffset);
      var ptc := SafetyTemperature(rt.ptcInstant, board.ptcOffset);
      if latch.latched || latch.inhibited || rt.lastSensorMs <= 0 || age < 0 || age > SENSOR_MAX_AGE_MS ||
         !rt.chamberStatus.SensorOk? || !rt.ptcStatus.SensorOk? ||
         !chamber.Below(CHECKPOINT_LIMIT_C) || !ptc.Below(CHECKPOINT_LIMIT_C) {
        return false;
      }
      ok := NetworkSetupBegin();
    }

    method MaintenanceBegin(nowMs: int) returns (ok: bool)
      modifies this`maintenance
      ensures ok == MaintenanceAllowed(old(View()), nowMs)
      ensures View() == if ok then old(View()).(maintenance := true) else old(View())
    {
      var busy := IsOutputBusy();
      if maintenance || settings.workOn || settings.schedule.enabled || settings.preheat.running ||
         settings.drying.running || settings.dryout.running || settings.health.running || settings.keepWarm.active ||
         settings.pickup || busy || latch.latched {
        return false;
      }
      var age := nowMs - rt.lastSensorMs;
      if rt.lastSensorMs <= 0 || age < 0 || age > SENSOR_MAX_AGE_MS ||
         !rt.chamberStatus.SensorOk? || !rt.ptcStatus.SensorOk? ||
         !rt.chamberInstant.Below(MAINTENANCE_LIMIT_C) || !rt.ptcInstant.Below(MAINTENANCE_LIMIT_C) {
        return false;
      }
      maintenance := true;
      ok := true;
    }

    method MaintenanceEnd()
      modifies this`maintenance
      ensures View() == old(View()).(maintenance := false)
    {
      maintenance := false;
    }

    /** Safe stop as every channel issues it: stop all work, drop the owner, advance the epoch. */
    method SafeStop()
      modifies this`settings, this`epoch, arbiter
      ensures View() == AfterStop(old(View()))
    {
      UpdateSettingsCommand(Stopped(settings));
      arbiter.ReleaseAny();
    }

    method EmergencyStop()
      modifies this`settings, this`epoch, arbiter, latch
      ensures View() == AfterEmergencyStop(old(View()))
    {
      latch.TripVolatile(HF.PANIC_OFF);
      SafeStop();
    }

    method RequestClear()
      modifies this`settings, this`epoch, arbiter, latch
      ensures View() == AfterClearRequest(old(View()))
    {
      arbiter.ReleaseAny();
      UpdateSettingsCommand(Stopped(settings));
      latch.RequestClear();
    }

    // -------------------------------------------------------------- main/safety_latch.c

    /** shu1_safety_latch_clear_block_reason. */
    method ClearBlocked(nowMs: int) returns (blocked: bool)
      ensures blocked == !ClearUnblocked(View(), nowMs)
    {
      var age := nowMs - rt.lastSensorMs;
      if latch.inhibited {
        return true;
      }
      if settings.workOn || settings.schedule.enabled || rt.heaterOn {
        return true;
      }
      if rt.lastSensorMs <= 0 || age < 0 || age > SENSOR_MAX_AGE_MS ||
         !rt.chamberStatus.SensorOk? || !rt.ptcStatus.SensorOk? || rt.chamberInstant.Bad? || rt.ptcInstant.Bad? {
        return true;
      }
      if !SafetyTemperature(rt.chamberInstant, board.chamberOffset).Below(CHAMBER_HARD_CUTOFF_C) ||
         !SafetyTemperature(rt.ptcInstant, board.ptcOffset).Below(PTC_HARD_CUTOFF_C) {
        return true;
      }
      blocked := latch.fault == HF.ZERO_CROSS_LOST && !rt.zeroCross;
    }

    /** One critical phase of shu1_safety_latch_service after the flash write, under the second guard. */
    method FinishClear(generation: nat, written: bool, nowMs: int) returns (safe: bool)
      modifies latch
      ensures safe == MayFinishClear(old(View()).latch, generation, written, ClearUnblocked(old(View()), nowMs))
      ensures View() == old(View()).(latch := AfterServiceFinish(old(View()).latch, safe))
    {
      var blocked := ClearBlocked(nowMs);
      safe := latch.ServiceFinish(generation, written, !blocked);
    }

    // -------------------------------------------------------------- main/session_journal.c

    /** Up to the flash write: what is due, with the reservation taken and `prepared` dropped for a clean write. */
    method JournalBegin(nowMs: int) returns (plan: JournalPlan)
      modifies this`maintenance, this`prepared
      ensures plan == JournalDecision(old(View()), nowMs)
      ensures View() == AfterJournalDecision(old(View()), nowMs)
    {
      if latch.latched || latch.inhibited {
        return JournalIdle;
      }
      if settings.workOn || settings.schedule.enabled {
        return if prepared then JournalIdle else WriteDirty;
      }
      if !dirty {
        return JournalIdle;
      }
      var reserved := CheckpointBegin(nowMs);
      if !reserved {
        return JournalIdle;
      }
      prepared := false;
      plan := WriteClean;
    }

    method JournalDirtyWritten(ok: bool)
      modifies this`dirty, this`prepared, latch
      ensures View() == AfterDirtyWritten(old(View()), ok)
    {
      if ok {
        dirty := true;
        prepared := true;
      } else {
        latch.Inhibit();
      }
    }

    method JournalCleanWritten(ok: bool)
      modifies this`dirty, this`maintenance, latch
      ensures View() == AfterCleanWritten(old(View()), ok)
    {
      if ok {
        dirty := false;
      } else {
        latch.Inhibit();
      }
      MaintenanceEnd();
    }

    /** shu1_session_journal_init; true when the record cannot be trusted. */
    method JournalInit(cell: Option<int>, read: MarkerRead) returns (unusable: bool)
      modifies this`prepared, this`dirty, latch
      ensures (View().latch, dirty, unusable) == AfterJournalInit(old(View()).latch, cell, read)
      ensures View() == old(View()).(prepared := false, dirty := dirty, latch := View().latch)
    {
      prepared := false;
      dirty := false;
      if read.MarkerReadFails? {
        return true;
      }
      if cell.None? {
        return false;
      }
      if cell.value > 1 {
        return true;
      }
      dirty := cell.value != 0;
      if dirty {
        latch.TripVolatile(HF.PERSISTED_FAULT);
      }
      unusable := false;
    }
  }

  // ---------------------------------------------------------------- main/settings_deferred.c

  class Outbox {
    var pending: Settings
    var revision: nat
    var saved: nat
    var durable: Option<Settings>

    ghost function View(): Mailbox
      reads this
    {
      Mailbox(pending, revision, saved, durable)
    }

    method Defer(s: Settings)
      modifies this
      ensures View() == Deferred(old(View()), s)
    {
      pending := s;
      revision := revision + 1;
    }

    /** Under the guard: whether a flush is due, and what it will write. */
    method Take(c: Controller, nowMs: int) returns (taken: bool, writing: nat, snapshot: Settings)
      modifies c`maintenance
      ensures taken == (revision != saved && CheckpointAllowed(old(c.View()), nowMs))
      ensures writing == revision && snapshot == pending
      ensures c.View() == if taken then old(c.View()).(maintenance := true) else old(c.View())
    {
      writing, snapshot := revision, pending;
      if writing == saved {
        return false, writing, snapshot;
      }
      taken := c.CheckpointBegin(nowMs);
    }

    /** Only the acknowledgement is committed; a newer deferral stays pending. */
    method Acknowledge(c: Controller, writing: nat, ok: bool)
      modifies this`saved, c`maintenance
      ensures View() == old(View()).(saved := if ok then writing else old(saved))
      ensures c.View() == old(c.View()).(maintenance := false)
    {
      if ok {
        saved := writing;
      }
      c.MaintenanceEnd();
    }
  }
}
