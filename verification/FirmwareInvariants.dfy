/**
 * What every reachable state of the controller satisfies, whatever the interleaving, flash failures or power losses.
 */
module FirmwareInvariants {
  import opened Common
  import opened PlantState
  import opened SafetyLatch
  import opened FanTriac
  import opened ControlLease
  import opened SensorWatch
  import opened ControlPlane
  import opened ControlTick
  import opened TickGuarantees
  import opened Firmware
  import HF = HeaterFaults

  // ---------------------------------------------------------------- the SSR, the marker and the reservation

  /** The worker's phases during which it owns the maintenance reservation. */
  predicate Reserving(w: Worker) { w.CleanTaken? || w.CleanWritten? || w.FlushTaken? || w.FlushWritten? }

  predicate EnergySafe(p: Plant)
  {
    && (p.ssr ==> p.prepared && p.fan.applied && !p.maintenance)
    && p.rt.heaterOn == p.ssr
    && (p.fan.applied ==> p.fan.requested)
    && (p.prepared ==> p.dirty)
  }

  predicate JournalSafe(p: Plant, w: Worker, other: bool, marker: Option<int>)
  {
    && (p.prepared ==> marker == Some(1))
    && (w == DirtyWritten(true) ==> marker == Some(1))
    && (w.CleanTaken? || w.CleanWritten? ==> !p.prepared)
    && p.maintenance == (other || Reserving(w)) && !(other && Reserving(w))
  }

  predicate Safe(s: Sys) { EnergySafe(s.p) && JournalSafe(s.p, s.worker, s.other, s.marker) }

  /** The gate and the request never part in the wrong direction, whatever the interrupt does. */
  lemma {:induction false} GateFollowsRequest(f: Fan, edges: seq<int>)
    requires f.applied ==> f.requested
    ensures var g := AfterEdges(f, edges); (g.applied ==> g.requested) && (f.applied ==> g.applied)
    decreases |edges|
  {
    if edges != [] {
      GateFollowsRequest(AfterEdge(f, edges[0]), edges[1..]);
    }
  }

  lemma FanAfterPass(p: Plant, c: Ctl, i: TickIn)
    requires p.fan.applied ==> p.fan.requested
    ensures var g := Tick(p, c, i).p.fan; g.applied ==> g.requested
  {
    hide Tick, Planned, AfterEdges;
    FanTrace(p, c, i);
    GateFollowsRequest(p.fan, i.admitEdges);
    GateFollowsRequest(AfterEdges(p.fan, i.admitEdges), i.zcEdges);
    GateFollowsRequest(FanAtRead(p, i), i.statsEdges);
    GateFollowsRequest(AfterEdges(FanAtRead(p, i), i.statsEdges), i.setEdges);
  }

  lemma PassKeepsEnergy(p: Plant, c: Ctl, i: TickIn)
    requires EnergySafe(p)
    ensures EnergySafe(Tick(p, c, i).p)
  {
    hide Tick, IsFresh, Readable, SafetyTemperature;
    TickFrame(p, c, i);
    FanAfterPass(p, c, i);
    if Tick(p, c, i).p.ssr {
      EnergisedPassIsAdmitted(p, c, i);
    }
  }

  lemma PassKeepsSafe(s: Sys, i: TickIn)
    requires Safe(s)
    ensures Safe(Step(s, ControlPass(i)))
  {
    hide Tick;
    PassKeepsEnergy(s.p, s.c, i);
    TickFrame(s.p, s.c, i);
  }

  lemma CommandKeepsSafe(s: Sys, e: Event)
    requires Safe(s) && (e.Command? || e.Stop? || e.EmergencyStop? || e.RequestClear? || e.LeaseOp?)
    ensures Safe(Step(s, e))
  {
    hide LimitTargets, Stopped, AfterRelease, After, NextEpoch, Admitted, AfterTripVolatile;
  }

  lemma OutsideKeepsSafe(s: Sys, e: Event)
    requires Safe(s)
    requires e.WatchdogFails? || e.ZeroCross? || e.PrinterReport? || e.ServiceFails? || e.Reserve? || e.Calibrate? ||
             e.EndReservation? || e.FactoryReset?
    ensures Safe(Step(s, e))
  {
    hide AfterInhibit, FreshBelow, AnyWork, Tick, Seen, AfterWork, Booted, AfterCommand, AfterStop, AfterEmergencyStop,
         AfterClearRequest, After, Admitted;
  }

  lemma BeginKeepsSafe(s: Sys, w: WorkerIn)
    requires Safe(s) && s.worker.Ready?
    ensures Safe(AfterWork(s, w))
  {
    hide FreshBelow, AnyWork;
  }

  lemma JournalKeepsSafe(s: Sys, w: WorkerIn)
    requires Safe(s) && JournalDuty(s.worker)
    ensures Safe(AfterJournalDuty(s, w))
  {
    hide AfterInhibit;
  }

  lemma FlushKeepsSafe(s: Sys, w: WorkerIn)
    requires Safe(s) && (s.worker.FlushTaken? || s.worker.FlushWritten?)
    ensures Safe(AfterFlushDuty(s, w))
  {
  }

  lemma WorkKeepsSafe(s: Sys, w: WorkerIn)
    requires Safe(s)
    ensures Safe(AfterWork(s, w))
  {
    hide Begin, AfterJournalDuty, AfterFlushDuty, AfterLatchDuty, ClearUnblocked;
    if s.worker.Ready? {
      BeginKeepsSafe(s, w);
    } else if LatchDuty(s.worker) {
      DutyStaysOnLatch(BenchOf(s), ClearUnblocked(s.p, w.nowUs / 1000), w);
    } else if JournalDuty(s.worker) {
      JournalKeepsSafe(s, w);
    } else {
      FlushKeepsSafe(s, w);
    }
  }

  /** A latch duty leads only to latch duties or back to ready. */
  lemma DutyStaysOnLatch(b: Bench, unblocked: bool, w: WorkerIn)
    requires LatchDuty(b.worker)
    ensures var d := AfterLatchDuty(b, unblocked, w);
            (LatchDuty(d.worker) || d.worker.Ready?) && d.latch.inhibited == b.latch.inhibited
  {
  }

  lemma BootIsSafe(s: Sys, b: BootIn)
    ensures Safe(Step(s, PowerLoss(b)))
  {
    hide BootLatch, LimitTargets, Sanitized;
  }

  lemma StepKeepsSafe(s: Sys, e: Event)
    requires Safe(s)
    ensures Safe(Step(s, e))
  {
    hide Safe, Tick, AfterWork, Booted;
    match e
    case ControlPass(i) => PassKeepsSafe(s, i);
    case Work(w) => WorkKeepsSafe(s, w);
    case PowerLoss(b) => BootIsSafe(s, b);
    case Command(_, _) => CommandKeepsSafe(s, e);
    case Stop => CommandKeepsSafe(s, e);
    case EmergencyStop => CommandKeepsSafe(s, e);
    case RequestClear => CommandKeepsSafe(s, e);
    case LeaseOp(_) => CommandKeepsSafe(s, e);
    case _ => OutsideKeepsSafe(s, e);
  }

  // ---------------------------------------------------------------- the latch and its two durable cells

  predicate LatchSane(l: Latch) { (l.inhibited ==> l.latched) && (l.persistPending ==> l.latched) }

  /** What the worker knows about the latch while it is busy with it. */
  predicate WorkerSane(l: Latch, w: Worker)
  {
    && (w.RetryTaken? ==> w.latched && w.generation <= l.generation && l.persistPending
                          && (w.generation == l.generation ==> w.fault == l.fault))
    && (w.RetryWritten? ==> w.generation <= l.generation && l.persistPending)
  }

  /** From the check that allows the flash clear until its outcome is settled. */
  predicate ClearWindow(w: Worker) { w.ClearChecked? || w.ClearWritten? }

  /** Flash holds the latch that is in force. */
  predicate Stored(l: Latch, cells: FaultCells)
  {
    cells.latch == Some(1) && (!l.inhibited ==> cells.code == Some(l.fault))
  }

  predicate Durable(l: Latch, w: Worker, cells: FaultCells, held: bool)
  {
    && (held ==> l.latched)
    && (held && !l.persistPending && !ClearWindow(w) ==> Stored(l, cells))
    && (w.RetryWritten? && w.ok && w.generation == l.generation ==> Stored(l, cells))
    && (w.ClearWritten? && w.written ==> cells == FaultCells(Some(HF.OK), Some(0)))
  }

  predicate LatchSafe(s: Sys)
  {
    LatchSane(s.p.latch) && WorkerSane(s.p.latch, s.worker) && Durable(s.p.latch, s.worker, s.cells, s.held)
  }

  /** Moves of the latch by the control task leave the worker's knowledge valid. */
  lemma MoveKeepsLatch(l: Latch, q: Latch, w: Worker, cells: FaultCells, held: bool, tripped: bool, armed: bool)
    requires LatchSane(l) && WorkerSane(l, w) && Durable(l, w, cells, held) && LatchMoves(l, q, tripped, armed)
    ensures LatchSane(q) && WorkerSane(q, w) && Durable(q, w, cells, held || tripped)
  {
  }

  lemma InhibitKeepsLatch(l: Latch, w: Worker, cells: FaultCells, held: bool)
    requires LatchSane(l) && WorkerSane(l, w) && Durable(l, w, cells, held)
    ensures var q := AfterInhibit(l); LatchSane(q) && WorkerSane(q, w) && Durable(q, w, cells, held)
  {
  }

  lemma PassKeepsLatch(s: Sys, i: TickIn)
    requires LatchSafe(s)
    ensures LatchSafe(Step(s, ControlPass(i)))
  {
    hide Tick, Consulted, LatchMoves, LatchSane, WorkerSane, Durable, AfterInhibit;
    var o := Tick(s.p, s.c, i);
    var l := Consulted(s.p, s.c, i).pass.p.latch;
    TickMovesLatch(s.p, s.c, i);
    MoveKeepsLatch(s.p.latch, l, s.worker, s.cells, s.held, o.tripped, o.armed);
    InhibitKeepsLatch(l, s.worker, s.cells, s.held || o.tripped);
  }

  lemma CommandKeepsLatch(s: Sys, e: Event)
    requires LatchSafe(s) && (e.Command? || e.Stop? || e.EmergencyStop? || e.RequestClear? || e.LeaseOp?)
    ensures LatchSafe(Step(s, e))
  {
    hide LimitTargets, Stopped, AfterRelease, After, NextEpoch, Admitted;
  }

  lemma OutsideKeepsLatch(s: Sys, e: Event)
    requires LatchSafe(s)
    requires e.WatchdogFails? || e.ZeroCross? || e.PrinterReport? || e.ServiceFails? || e.Reserve? || e.Calibrate? ||
             e.EndReservation? || e.FactoryReset?
    ensures LatchSafe(Step(s, e))
  {
    hide ReservationFree, MaintenanceAllowed, AfterEdge, Tick, Seen, AfterWork, Booted, AfterCommand, AfterStop,
         AfterEmergencyStop, AfterClearRequest, After, Admitted;
  }

  /** Where a ready worker stands after it turned to the latch. */
  function Turned(l: Latch): Worker
  {
    if !ServiceTakesClear(l) then Retrying else if l.mutexOk then Clearing(l.clearGeneration) else Ready
  }

  /** The worker is ready, or at the start of a journal write or a settings flush. */
  predicate OffLatch(w: Worker) { w.Ready? || w.DirtyTaken? || w.CleanTaken? || w.FlushTaken? }

  /** A ready worker turns to the latch, and perhaps takes a clear; or it leaves the latch alone. */
  lemma BeginMoves(s: Sys, w: WorkerIn)
    requires s.worker.Ready?
    ensures var t := Begin(s, w);
            && t.cells == s.cells && t.held == s.held
            && if w.duty.ServiceLatch? then t.p.latch == AfterServiceBegin(s.p.latch) && t.worker == Turned(s.p.latch)
               else t.p.latch == s.p.latch && OffLatch(t.worker)
  {
    hide JournalDecision, CheckpointAllowed, AfterServiceBegin;
  }

  lemma TurnedKeepsLatch(l: Latch, cells: FaultCells, held: bool)
    requires LatchSane(l) && Durable(l, Ready, cells, held)
    ensures var q, v := AfterServiceBegin(l), Turned(l); LatchSane(q) && WorkerSane(q, v) && Durable(q, v, cells, held)
  {
  }

  lemma OffLatchKeepsLatch(l: Latch, v: Worker, cells: FaultCells, held: bool)
    requires Durable(l, Ready, cells, held) && OffLatch(v)
    ensures WorkerSane(l, v) && Durable(l, v, cells, held)
  {
  }

  lemma ReadyKeepsLatch(s: Sys, w: WorkerIn)
    requires LatchSafe(s) && s.worker.Ready?
    ensures LatchSafe(AfterWork(s, w))
  {
    hide Begin, AfterServiceBegin, LatchSane, WorkerSane, Durable, OffLatch, Turned;
    BeginMoves(s, w);
    if w.duty.ServiceLatch? {
      TurnedKeepsLatch(s.p.latch, s.cells, s.held);
    } else {
      OffLatchKeepsLatch(s.p.latch, Begin(s, w).worker, s.cells, s.held);
    }
  }

  /** The heart of the matter: clear and retry, on the latch and its cells alone. */
  lemma DutyKeepsLatch(b: Bench, unblocked: bool, w: WorkerIn, held: bool)
    requires LatchDuty(b.worker)
    requires LatchSane(b.latch) && WorkerSane(b.latch, b.worker) && Durable(b.latch, b.worker, b.cells, held)
    ensures var d := AfterLatchDuty(b, unblocked, w);
            && LatchSane(d.latch) && WorkerSane(d.latch, d.worker)
            && Durable(d.latch, d.worker, d.cells, held && d.latch.latched)
  {
  }

  /** Of the latch, the journal can only inhibit it, and only when its flash write failed. */
  lemma JournalLatch(s: Sys, w: WorkerIn)
    requires JournalDuty(s.worker)
    ensures var t := AfterJournalDuty(s, w);
            && t.p.latch == (if s.worker == DirtyWritten(false) || s.worker == CleanWritten(false)
                             then AfterInhibit(s.p.latch) else s.p.latch)
            && t.cells == s.cells && t.held == s.held && (JournalDuty(t.worker) || t.worker.Ready?)
  {
    hide AfterMarker, AfterInhibit;
  }

  lemma JournalKeepsLatch(s: Sys, w: WorkerIn)
    requires LatchSafe(s) && JournalDuty(s.worker)
    ensures LatchSafe(AfterJournalDuty(s, w))
  {
    hide AfterJournalDuty, AfterInhibit;
    JournalLatch(s, w);
    InhibitKeepsLatch(s.p.latch, s.worker, s.cells, s.held);
  }

  lemma FlushKeepsLatch(s: Sys, w: WorkerIn)
    requires LatchSafe(s) && (s.worker.FlushTaken? || s.worker.FlushWritten?)
    ensures LatchSafe(AfterFlushDuty(s, w))
  {
    hide LatchSane;
  }

  /** Nothing the worker does breaks the link between the latch in force and its durable cells. */
  lemma WorkKeepsLatch(s: Sys, w: WorkerIn)
    requires LatchSafe(s)
    ensures LatchSafe(AfterWork(s, w))
  {
    if s.worker.Ready? {
      ReadyKeepsLatch(s, w);
    } else if LatchDuty(s.worker) {
      hide Begin, AfterJournalDuty, AfterFlushDuty, AfterLatchDuty, ClearUnblocked, LatchSane, WorkerSane, Durable;
      DutyKeepsLatch(BenchOf(s), ClearUnblocked(s.p, w.nowUs / 1000), w, s.held);
    } else {
      hide Begin, AfterLatchDuty, LatchSafe, AfterJournalDuty, AfterFlushDuty;
      if JournalDuty(s.worker) {
        JournalKeepsLatch(s, w);
      } else {
        FlushKeepsLatch(s, w);
      }
    }
  }

  lemma BootKeepsLatch(s: Sys, b: BootIn)
    ensures LatchSafe(Step(s, PowerLoss(b)))
  {
    hide LimitTargets, Sanitized, Restored;
  }

  lemma StepKeepsLatch(s: Sys, e: Event)
    requires LatchSafe(s)
    ensures LatchSafe(Step(s, e))
  {
    hide LatchSafe, Tick, AfterWork, Booted;
    match e
    case ControlPass(i) => PassKeepsLatch(s, i);
    case Work(w) => WorkKeepsLatch(s, w);
    case PowerLoss(b) => BootKeepsLatch(s, b);
    case Command(_, _) => CommandKeepsLatch(s, e);
    case Stop => CommandKeepsLatch(s, e);
    case EmergencyStop => CommandKeepsLatch(s, e);
    case RequestClear => CommandKeepsLatch(s, e);
    case LeaseOp(_) => CommandKeepsLatch(s, e);
    case _ => OutsideKeepsLatch(s, e);
  }

  // ---------------------------------------------------------------- the settings mailbox

  /** With nothing pending, the store holds exactly the settings deferred last. */
  predicate MailSafe(s: Sys)
  {
    var m := s.mailbox;
    && m.saved <= m.revision && (s.resetting ==> s.other)
    && (m.saved == m.revision && m.revision > 0 && !s.resetting ==> m.durable == Some(m.pending))
    && (s.worker.FlushTaken? ==> m.saved < s.worker.revision <= m.revision
                                 && (s.worker.revision == m.revision ==> s.worker.snapshot == m.pending))
    && (s.worker.FlushWritten? ==> m.saved < s.worker.revision <= m.revision
                                   && (s.worker.ok && s.worker.revision == m.revision ==> m.durable == Some(m.pending)))
  }

  lemma ReservedIsExclusive(s: Sys)
    requires Safe(s)
    ensures s.other ==> s.p.maintenance && !Reserving(s.worker)
  {
  }

  lemma BootKeepsMail(s: Sys, b: BootIn)
    ensures MailSafe(Step(s, PowerLoss(b)))
  {
    hide BootLatch, LimitTargets, Sanitized;
  }

  lemma WorkKeepsMail(s: Sys, w: WorkerIn)
    requires MailSafe(s) && Safe(s)
    ensures MailSafe(AfterWork(s, w))
  {
    hide Safe;
    ReservedIsExclusive(s);
    hide ClearUnblocked, JournalDecision, CheckpointAllowed, AfterMarker, AfterInhibit, AfterJournalDecision,
         AfterLatchDuty;
    if LatchDuty(s.worker) {
      DutyStaysOnLatch(BenchOf(s), ClearUnblocked(s.p, w.nowUs / 1000), w);
    }
  }

  /** Only a deferred command and a factory reset touch the mailbox outside the worker. */
  lemma OthersLeaveMail(s: Sys, e: Event)
    requires !e.Work? && !e.PowerLoss?
    ensures var t := Step(s, e);
            && t.worker == s.worker
            && (!e.Command? && !e.FactoryReset? ==> t.mailbox == s.mailbox && t.resetting == s.resetting)
            && (e.Command? ==> t.resetting == s.resetting && t.other == s.other
                               && (t.mailbox == s.mailbox || t.mailbox == Deferred(s.mailbox, LimitTargets(e.s))))
            && (e.FactoryReset? ==> t == s
                                    || (t.resetting && t.other
                                        && t.mailbox == s.mailbox.(durable := t.mailbox.durable)))
            && (s.other && s.resetting ==> t.other)
  {
    hide Tick, Seen, AfterWork, Booted, AfterCommand, AfterStop, AfterEmergencyStop, AfterClearRequest, Inhibited,
         Admitted, LimitTargets, AfterCut, AfterEdge, After, ReservationFree, MaintenanceAllowed, Deferred;
  }

  lemma ResetNeedsNoReservation(s: Sys, e: Event)
    requires e.FactoryReset? && Step(s, e) != s
    ensures !s.p.maintenance
  {
    hide Tick, Seen, AfterWork, Booted, AfterCommand, AfterStop, AfterEmergencyStop, AfterClearRequest, Inhibited,
         Admitted, AfterCut, AfterEdge, After;
  }

  lemma StepKeepsMail(s: Sys, e: Event)
    requires MailSafe(s) && Safe(s)
    ensures MailSafe(Step(s, e))
  {
    hide Step, Safe, AfterWork, LimitTargets;
    match e
    case Work(w) =>
      WorkKeepsMail(s, w);
      WorkIsAfterWork(s, w);
    case PowerLoss(b) => BootKeepsMail(s, b);
    case _ =>
      OthersLeaveMail(s, e);
      if e.FactoryReset? && Step(s, e) != s {
        ResetNeedsNoReservation(s, e);
        FreeHasNoFlush(s);
      }
  }

  lemma FreeHasNoFlush(s: Sys)
    requires Safe(s) && !s.p.maintenance
    ensures !Reserving(s.worker)
  {
  }
}
