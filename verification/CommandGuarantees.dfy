/** Commands, boot and reservations over runs of the device: what each does, and exactly when it is refused. */
module CommandGuarantees {
  import opened Common
  import opened PlantState
  import opened SafetyLatch
  import opened FanTriac
  import opened ControlLease
  import opened ControlPlane
  import opened ControlTick
  import opened Conditions
  import opened TickGuarantees
  import opened Firmware
  import opened FirmwareInvariants
  import opened FirmwareGuarantees
  import HF = HeaterFaults

  // ---------------------------------------------------------------- stored targets

  lemma LimitIsBounds(s: Settings)
    ensures LimitTargets(s) == WithBounds(s)
  {
  }

  lemma BoundsAreStable(s: Settings)
    ensures WithBounds(WithBounds(s)) == WithBounds(s)
  {
  }

  /** A pass stores limited settings, or leaves those it found. */
  lemma PassStoresBounds(p: Plant, c: Ctl, i: TickIn)
    ensures var t := Tick(p, c, i).p.settings; t == p.settings || t == WithBounds(t)
  {
    hide Tick, Consulted, PlanOutputs, Commit, Drive, LimitTargets, WithBounds;
    var plan := Planned(p, c, i);
    TickUnfolds(p, c, i);
    ConsultedFrame(p, c, i);
    PlanFacts(Consulted(p, c, i), Decided(p, c, i).controller, i);
    CommitFacts(plan, i, p.epoch);
    var (q, committed) := Commit(plan, i, p.epoch);
    DriveFacts(q, plan, committed, i);
    LimitIsBounds(plan.st);
    BoundsAreStable(plan.st);
  }

  lemma StepStoresBounds(s: Sys, e: Event)
    requires s.p.settings == WithBounds(s.p.settings)
    ensures var t := Step(s, e).p.settings; t == WithBounds(t)
  {
    hide Step, Tick, LimitTargets, WithBounds;
    match e
    case ControlPass(i) =>
      PassIsTick(s, i);
      PassStoresBounds(s.p, s.c, i);
    case _ => OtherStores(s, e);
  }

  lemma OtherStores(s: Sys, e: Event)
    requires !e.ControlPass?
    ensures var t := Step(s, e).p.settings; t == s.p.settings || t == WithBounds(t)
  {
    hide Tick, Seen, AfterWork, LimitTargets, WithBounds, Stopped, Sanitized, BootLatch, AfterRelease, After, NextEpoch,
         Admitted, ReservationFree, MaintenanceAllowed, AfterEdge, AfterTripVolatile, AfterRequestClear, Deferred;
    match e
    case Work(w) => WorkKeepsJob(s, w);
    case Command(st, _) =>
      LimitIsBounds(st);
      BoundsAreStable(st);
    case PowerLoss(b) =>
      LimitIsBounds(Sanitized(b.settings));
      BoundsAreStable(Sanitized(b.settings));
    case _ =>
      LimitIsBounds(Stopped(s.p.settings));
      BoundsAreStable(Stopped(s.p.settings));
  }

  /** In every reachable state every stored target is within 0 to 55 C. */
  lemma {:induction false} StoredTargetsAreBounded(ss: seq<Sys>, es: seq<Event>, k: nat)
    requires Run(ss, es) && k <= |es|
    ensures ss[k].p.settings == WithBounds(ss[k].p.settings)
  {
    hide PowerUp, Step, WithBounds;
    if k == 0 {
      PowerUpStoresBounds(ss[0]);
    } else {
      StoredTargetsAreBounded(ss, es, k - 1);
      assert Next(ss, es, k - 1);
      StepStoresBounds(ss[k - 1], es[k - 1]);
    }
  }

  lemma PowerUpStoresBounds(s: Sys)
    requires PowerUp(s)
    ensures s.p.settings == WithBounds(s.p.settings)
  {
    hide BootLatch, LimitTargets, WithBounds, Sanitized;
    var b: BootIn :| s == Booted(s.cells, s.marker, s.mailbox.durable, b);
    LimitIsBounds(Sanitized(b.settings));
    BoundsAreStable(Sanitized(b.settings));
  }

  // ---------------------------------------------------------------- commands

  /** A latch, an inhibit or a reservation stands against a start. */
  predicate Blocked(p: Plant) { p.latch.latched || p.latch.inhibited || p.maintenance }

  /** The epoch a control pass compares with: changed, and never zero. */
  predicate Advanced(before: nat, after: nat) { after != before && after != 0 }

  lemma EpochAdvances(e: nat)
    ensures e < 0x1_0000_0000 ==> Advanced(e, NextEpoch(e)) && NextEpoch(e) < 0x1_0000_0000
  {
  }

  /**
   * A command that asks for work or a schedule is refused exactly while something stands against a start, and then
   * changes nothing. Any other takes effect at once: its settings within bounds, a new epoch, and the mailbox if it is
   * to be kept; nothing else.
   */
  lemma CommandTakesEffect(ss: seq<Sys>, es: seq<Event>, k: nat)
    requires Steps(ss, es) && k < |es| && es[k].Command?
    ensures var s, t, st := ss[k], ss[k + 1], es[k].s;
            if (st.workOn || st.schedule.enabled) && Blocked(s.p) then t == s
            else
              && t == s.(p := s.p.(settings := WithBounds(st), epoch := t.p.epoch), mailbox := t.mailbox)
              && (s.p.epoch < 0x1_0000_0000 ==> Advanced(s.p.epoch, t.p.epoch))
              && (if es[k].deferred
                  then t.mailbox == s.mailbox.(pending := WithBounds(st), revision := s.mailbox.revision + 1)
                  else t.mailbox == s.mailbox)
  {
    hide Step, LimitTargets, WithBounds, NextEpoch;
    assert Next(ss, es, k);
    CommandStep(ss[k], es[k]);
    LimitIsBounds(es[k].s);
    EpochAdvances(ss[k].p.epoch);
  }

  lemma CommandStep(s: Sys, e: Event)
    requires e.Command?
    ensures Step(s, e) == if (e.s.workOn || e.s.schedule.enabled) && Blocked(s.p) then s
                          else s.(p := s.p.(settings := LimitTargets(e.s), epoch := NextEpoch(s.p.epoch)),
                                  mailbox := if e.deferred
                                             then s.mailbox.(pending := LimitTargets(e.s),
                                                             revision := s.mailbox.revision + 1)
                                             else s.mailbox)
  {
    hide Tick, Seen, AfterWork, Booted, LimitTargets, NextEpoch;
  }

  lemma StoppedHasNoJob(s: Settings)
    ensures NoJob(WithBounds(Stopped(s)))
  {
  }

  /** A stop of any kind leaves no job, drops the owner, advances the epoch, and moves nothing else of the device. */
  lemma StopEndsEverything(ss: seq<Sys>, es: seq<Event>, k: nat)
    requires Steps(ss, es) && k < |es| && (es[k].Stop? || es[k].EmergencyStop? || es[k].RequestClear?)
    ensures var s, t := ss[k], ss[k + 1];
            && NoJob(t.p.settings) && (s.p.lease.ready ==> t.p.lease.owner.NoSource?)
            && (s.p.epoch < 0x1_0000_0000 ==> Advanced(s.p.epoch, t.p.epoch))
            && t == s.(p := s.p.(settings := t.p.settings, epoch := t.p.epoch, lease := t.p.lease, latch := t.p.latch))
            && (es[k].Stop? ==> t.p.latch == s.p.latch)
  {
    hide Step, LimitTargets, WithBounds, NextEpoch, Stopped, NoJob, AfterRelease;
    assert Next(ss, es, k);
    StopStep(ss[k], es[k]);
    LimitIsBounds(Stopped(ss[k].p.settings));
    StoppedHasNoJob(ss[k].p.settings);
    EpochAdvances(ss[k].p.epoch);
    ReleaseDropsOwner(ss[k].p.lease);
  }

  lemma ReleaseDropsOwner(l: Lease)
    ensures l.ready ==> AfterRelease(l).owner.NoSource?
  {
  }

  lemma StopStep(s: Sys, e: Event)
    requires e.Stop? || e.EmergencyStop? || e.RequestClear?
    ensures var t := Step(s, e);
            && t == s.(p := s.p.(settings := LimitTargets(Stopped(s.p.settings)), epoch := NextEpoch(s.p.epoch),
                                 lease := AfterRelease(s.p.lease), latch := t.p.latch))
            && (e.Stop? ==> t.p.latch == s.p.latch)
  {
    hide Tick, Seen, AfterWork, Booted, LimitTargets, NextEpoch, Stopped, AfterRelease;
  }

  // ---------------------------------------------------------------- reservations

  /** What networking and calibration need: nothing reserved, working or powered. */
  predicate Free(p: Plant) { !p.maintenance && NothingWorks(p.settings) && OutputsOff(p) }

  /** What an OTA update or a factory reset needs as well: no latch, and recent readings of both sensors below 30 C. */
  predicate ColdFree(p: Plant, nowMs: int)
  {
    && Free(p) && !p.latch.latched && RecentReadings(p.rt, nowMs)
    && p.rt.chamberInstant.c < 30.0 && p.rt.ptcInstant.c < 30.0
  }

  /** What a settings flush or a clean marker needs: no latch or inhibit, and both sensors safely below 45 C. */
  predicate CheckpointFree(p: Plant, nowMs: int)
  {
    && Free(p) && !p.latch.latched && !p.latch.inhibited && RecentReadings(p.rt, nowMs)
    && Cooler(p.rt.chamberInstant, p.board.chamberOffset, 45.0) && Cooler(p.rt.ptcInstant, p.board.ptcOffset, 45.0)
  }

  lemma ReservationsAre(p: Plant, nowMs: int)
    ensures ReservationFree(p) <==> Free(p)
    ensures MaintenanceAllowed(p, nowMs) <==> ColdFree(p, nowMs)
    ensures CheckpointAllowed(p, nowMs) <==> CheckpointFree(p, nowMs)
  {
  }

  /** A reservation is granted exactly on these conditions, and a refused one changes nothing. */
  lemma ReservationIff(ss: seq<Sys>, es: seq<Event>, k: nat)
    requires Steps(ss, es) && k < |es| && es[k].Reserve?
    ensures var s, granted := ss[k], if es[k].cold then ColdFree(ss[k].p, es[k].nowMs) else Free(ss[k].p);
            ss[k + 1] == if granted then s.(p := s.p.(maintenance := true), other := true) else s
  {
    hide Step, Free, ColdFree, CheckpointFree, MaintenanceAllowed, ReservationFree, CheckpointAllowed;
    assert Next(ss, es, k);
    ReservationsAre(ss[k].p, es[k].nowMs);
    ReserveStep(ss[k], es[k].cold, es[k].nowMs);
  }

  lemma ReserveStep(s: Sys, cold: bool, nowMs: int)
    ensures Step(s, Reserve(cold, nowMs))
         == if (if cold then MaintenanceAllowed(s.p, nowMs) else ReservationFree(s.p))
            then s.(p := s.p.(maintenance := true), other := true) else s
  {
    hide Tick, Seen, AfterWork, Booted, MaintenanceAllowed, ReservationFree;
  }

  /**
   * A factory reset is admitted exactly on a free, unlatched and cold device, and then holds the reservation for good;
   * a calibration is taken, and a reservation given back, exactly by its holder outside a reset.
   */
  lemma HolderIff(ss: seq<Sys>, es: seq<Event>, k: nat)
    requires Steps(ss, es) && k < |es| && (es[k].FactoryReset? || es[k].Calibrate? || es[k].EndReservation?)
    ensures var s, t := ss[k], ss[k + 1];
            match es[k]
            case FactoryReset(nowMs, erased) =>
              t == (if ColdFree(s.p, nowMs)
                    then s.(p := s.p.(maintenance := true), other := true, resetting := true,
                            mailbox := if erased then s.mailbox.(durable := None) else s.mailbox)
                    else s)
            case Calibrate(board) => t == (if s.other && !s.resetting then s.(p := s.p.(board := board)) else s)
            case EndReservation =>
              t == (if s.other && !s.resetting then s.(p := s.p.(maintenance := false), other := false) else s)
            case _ => true
  {
    hide Step, ColdFree, MaintenanceAllowed, CheckpointAllowed, ReservationFree, CheckpointFree, Free;
    assert Next(ss, es, k);
    if es[k].FactoryReset? {
      ReservationsAre(ss[k].p, es[k].nowMs);
    }
    HolderStep(ss[k], es[k]);
  }

  lemma HolderStep(s: Sys, e: Event)
    requires e.FactoryReset? || e.Calibrate? || e.EndReservation?
    ensures Step(s, e)
         == match e
            case FactoryReset(nowMs, erased) =>
              if MaintenanceAllowed(s.p, nowMs)
              then s.(p := s.p.(maintenance := true), other := true, resetting := true,
                      mailbox := s.mailbox.(durable := if erased then None else s.mailbox.durable))
              else s
            case Calibrate(board) => if s.other && !s.resetting then s.(p := s.p.(board := board)) else s
            case EndReservation =>
              if s.other && !s.resetting then s.(p := s.p.(maintenance := false), other := false) else s
            case _ => s
  {
    hide Tick, Seen, AfterWork, Booted, MaintenanceAllowed, ReservationFree;
  }

  /** A watchdog or a service that fails latches and inhibits the device for this boot; the watchdog cuts the SSR. */
  lemma FailuresInhibit(ss: seq<Sys>, es: seq<Event>, k: nat)
    requires Steps(ss, es) && k < |es| && (es[k].WatchdogFails? || es[k].ServiceFails?)
    ensures var s, t := ss[k].p, ss[k + 1].p;
            && t.latch.latched && t.latch.inhibited && !t.latch.clearRequested && !t.latch.deferredClear
            && t.ssr == (s.ssr && es[k].ServiceFails?) && t.settings == s.settings && t.fan == s.fan
  {
    assert Next(ss, es, k);
  }

  /** When a ready worker takes up a settings flush: something newer than what was saved, and a free, cool device. */
  lemma FlushIff(ss: seq<Sys>, es: seq<Event>, k: nat)
    requires Steps(ss, es) && k < |es| && es[k].Work? && es[k].w.duty.FlushSettings? && ss[k].worker.Ready?
    ensures var s := ss[k];
            ss[k + 1] == if s.mailbox.revision != s.mailbox.saved && CheckpointFree(s.p, es[k].w.nowUs / 1000)
                         then s.(p := s.p.(maintenance := true),
                                 worker := FlushTaken(s.mailbox.revision, s.mailbox.pending))
                         else s
  {
    hide Step, Free, ColdFree, CheckpointFree, MaintenanceAllowed, ReservationFree, CheckpointAllowed;
    assert Next(ss, es, k);
    WorkIsAfterWork(ss[k], es[k].w);
    ReservationsAre(ss[k].p, es[k].w.nowUs / 1000);
  }

  /**
   * What the session journal writes: a dirty marker as soon as there is work or a schedule without one; a clean one
   * under a checkpoint reservation once the session is over; nothing while latched or inhibited.
   */
  lemma JournalIff(ss: seq<Sys>, es: seq<Event>, k: nat)
    requires Steps(ss, es) && k < |es| && es[k].Work? && es[k].w.duty.ServiceJournal? && ss[k].worker.Ready?
    ensures var s, t := ss[k], ss[k + 1];
            var on := s.p.settings.workOn || s.p.settings.schedule.enabled;
            var open := !s.p.latch.latched && !s.p.latch.inhibited;
            t == if open && on && !s.p.prepared then s.(worker := DirtyTaken)
                 else if open && !on && s.p.dirty && CheckpointFree(s.p, es[k].w.nowUs / 1000)
                 then s.(p := s.p.(maintenance := true, prepared := false), worker := CleanTaken)
                 else s
  {
    hide Step, Free, ColdFree, CheckpointFree, MaintenanceAllowed, ReservationFree, CheckpointAllowed;
    assert Next(ss, es, k);
    WorkIsAfterWork(ss[k], es[k].w);
    ReservationsAre(ss[k].p, es[k].w.nowUs / 1000);
  }

  /** A marker write that failed inhibits; one that committed prepares the session, or ends it with the reservation. */
  lemma JournalEnds(ss: seq<Sys>, es: seq<Event>, k: nat)
    requires Steps(ss, es) && k < |es| && es[k].Work? && (ss[k].worker.DirtyWritten? || ss[k].worker.CleanWritten?)
    ensures var s, t := ss[k], ss[k + 1];
            && t.worker.Ready? && (s.worker.CleanWritten? ==> !t.p.maintenance)
            && (if s.worker.ok
                then t.p.latch == s.p.latch && t.p.dirty == s.worker.DirtyWritten?
                     && t.p.prepared == (s.p.prepared || s.worker.DirtyWritten?)
                else t.p.latch.latched && t.p.latch.inhibited && t.p.prepared == s.p.prepared && t.p.dirty == s.p.dirty)
  {
    hide Step, Begin, AfterLatchDuty, AfterFlushDuty;
    assert Next(ss, es, k);
    WorkIsAfterWork(ss[k], es[k].w);
  }

  // ---------------------------------------------------------------- boot

  /** The fault cells read as a set latch: flash cannot be opened, or the latch cell cannot be read or is not 0. */
  predicate CellsLatch(cells: FaultCells, read: BootRead)
  {
    || read.OpenFails?
    || (&& !(cells.code.None? && cells.latch.None?)
        && (read.LatchReadFails? || (cells.latch.Some? && cells.latch.value != 0)))
  }

  /** Hardware, journal or marker make the boot unusable. */
  predicate BootUnusable(marker: Option<int>, b: BootIn)
  {
    !b.usable || !b.wdtArmed || b.marker.MarkerReadFails? || (marker.Some? && marker.value > 1)
  }

  /**
   * Every boot starts with both outputs off, nothing reserved, no owner and no job; latched exactly if the fault cells
   * say so or cannot be read, the session marker was left dirty, or the boot is unusable; and inhibited exactly then.
   */
  lemma BootIff(ss: seq<Sys>, es: seq<Event>, k: nat)
    requires Steps(ss, es) && k < |es| && es[k].PowerLoss?
    ensures var s, b, t := ss[k], es[k].b, ss[k + 1];
            && (t.p.latch.inhibited <==> BootUnusable(s.marker, b))
            && (t.p.latch.latched <==>
                  || !b.mutexOk || CellsLatch(s.cells, b.read) || BootUnusable(s.marker, b)
                  || (s.marker.Some? && s.marker.value != 0))
            && !t.p.ssr && !t.p.rt.heaterOn && !t.p.fan.requested && !t.p.maintenance && !t.p.prepared
            && t.p.lease.owner.NoSource? && t.worker.Ready? && !t.other && !t.resetting
            && t.cells == s.cells && t.marker == s.marker && t.mailbox.durable == s.mailbox.durable
  {
    hide LimitTargets, Sanitized;
    assert Next(ss, es, k);
  }

  lemma BootHasNoJob(ss: seq<Sys>, es: seq<Event>, k: nat)
    requires Steps(ss, es) && k < |es| && es[k].PowerLoss?
    ensures var t := ss[k + 1].p.settings;
            && NothingWorks(t) && !t.latchArmed && t.mode.Auto? && t.sessionStartedMs == 0
            && t.drying.endMs == 0 && t.preheat.endMs == 0 && t.dryout.endMs == 0 && t.keepWarm.endMs == 0
            && t.ramp.phase.RampIdle? && t.ramp.startMs == 0 && t.ramp.endMs == 0 && t.schedule.startMs == 0
            && t.preheat.phase.PreheatIdle? && t.health.phase.HealthIdle?
  {
    hide Step, LimitTargets, Sanitized, BootLatch;
    assert Next(ss, es, k);
    BootStores(ss[k], es[k].b);
    LimitIsBounds(Sanitized(es[k].b.settings));
    SanitizedHasNoJob(es[k].b.settings);
  }

  lemma BootStores(s: Sys, b: BootIn)
    ensures Step(s, PowerLoss(b)).p.settings == LimitTargets(Sanitized(b.settings))
  {
    hide LimitTargets, Sanitized, BootLatch, Tick, AfterWork;
  }

  lemma SanitizedHasNoJob(s: Settings)
    ensures var t := WithBounds(Sanitized(s));
            && NothingWorks(t) && !t.latchArmed && t.mode.Auto? && t.sessionStartedMs == 0
            && t.drying.endMs == 0 && t.preheat.endMs == 0 && t.dryout.endMs == 0 && t.keepWarm.endMs == 0
            && t.ramp.phase.RampIdle? && t.ramp.startMs == 0 && t.ramp.endMs == 0 && t.schedule.startMs == 0
            && t.preheat.phase.PreheatIdle? && t.health.phase.HealthIdle?
  {
  }
}
