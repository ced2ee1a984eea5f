/** When and why the fault latch goes from set to clear, and what flash holds meanwhile. */
module ClearGuarantees {
  import opened Common
  import opened PlantState
  import opened SafetyLatch
  import opened FanTriac
  import opened ControlLease
  import opened ControlPlane
  import opened ControlTick
  import opened Conditions
  import opened TickGuarantees
  import opened Firmware
  import opened FirmwareInvariants
  import opened FirmwareGuarantees
  import opened HazardGuarantees
  import HF = HeaterFaults

  // ---------------------------------------------------------------- the generation counter

  /** A deferred trip, an inhibit or a power loss, in the step from s to t. */
  predicate Disturbs(s: Sys, e: Event, t: Sys)
  {
    match e
    case ControlPass(_) => t.note.tripped || t.note.inhibits
    case WatchdogFails => true
    case ServiceFails => true
    case Work(_) => s.worker == DirtyWritten(false) || s.worker == CleanWritten(false)
    case PowerLoss(_) => true
    case _ => false
  }

  /** The generation of a clear the latch has armed but the worker has not taken. */
  function ArmedIn(l: Latch): Option<nat> { if l.deferredClear then Some(l.clearGeneration) else None }

  /** The generation of the clear the worker is busy with. */
  function TakenBy(w: Worker): Option<nat>
  {
    match w
    case Clearing(g) => Some(g)
    case ClearChecked(g, _) => Some(g)
    case ClearWritten(g, _) => Some(g)
    case _ => None
  }

  /**
   * One step as seen by the clear protocol: the generation never falls, rises on a disturbance; a pending clear is one
   * that was pending before, unless the step armed it.
   */
  predicate ClearStep(l: Latch, w: Worker, q: Latch, v: Worker, disturbed: bool, arms: bool)
  {
    && q.generation >= l.generation && (disturbed ==> q.generation > l.generation)
    && (ArmedIn(q).Some? ==> ArmedIn(q) == ArmedIn(l) || (arms && ArmedIn(q) == Some(q.generation)))
    && (TakenBy(v).Some? ==> TakenBy(v) == TakenBy(w) || TakenBy(v) == ArmedIn(l))
    && (l.inhibited ==> q.inhibited)
  }

  predicate ArmsClear(e: Event, t: Sys) { e.ControlPass? && t.note.armed }

  predicate Follows(s: Sys, e: Event)
  {
    var t := Step(s, e);
    ClearStep(s.p.latch, s.worker, t.p.latch, t.worker, Disturbs(s, e, t), ArmsClear(e, t))
  }

  lemma PassFollows(s: Sys, i: TickIn)
    ensures Follows(s, ControlPass(i))
  {
    hide Tick, Consulted;
    TickMovesLatch(s.p, s.c, i);
  }

  lemma DutyFollows(b: Bench, unblocked: bool, w: WorkerIn)
    requires LatchDuty(b.worker)
    ensures var d := AfterLatchDuty(b, unblocked, w);
            ClearStep(b.latch, b.worker, d.latch, d.worker, false, false)
  {
  }

  lemma BeginFollows(s: Sys, w: WorkerIn)
    requires s.worker.Ready?
    ensures var t := Begin(s, w); ClearStep(s.p.latch, s.worker, t.p.latch, t.worker, false, false)
  {
    hide Begin;
    BeginMoves(s, w);
  }

  lemma JournalFollows(s: Sys, w: WorkerIn)
    requires JournalDuty(s.worker)
    ensures var t := AfterJournalDuty(s, w);
            ClearStep(s.p.latch, s.worker, t.p.latch, t.worker,
                      s.worker == DirtyWritten(false) || s.worker == CleanWritten(false), false)
  {
    hide AfterJournalDuty;
    JournalLatch(s, w);
  }

  lemma FlushFollows(s: Sys, w: WorkerIn)
    requires s.worker.FlushTaken? || s.worker.FlushWritten?
    ensures var t := AfterFlushDuty(s, w); ClearStep(s.p.latch, s.worker, t.p.latch, t.worker, false, false)
  {
  }

  lemma WorkFollows(s: Sys, w: WorkerIn)
    ensures Follows(s, Work(w))
  {
    hide Begin, AfterJournalDuty, AfterFlushDuty, AfterLatchDuty, ClearUnblocked, ClearStep;
    if s.worker.Ready? {
      BeginFollows(s, w);
    } else if LatchDuty(s.worker) {
      DutyFollows(BenchOf(s), ClearUnblocked(s.p, w.nowUs / 1000), w);
    } else if JournalDuty(s.worker) {
      JournalFollows(s, w);
    } else {
      FlushFollows(s, w);
    }
  }

  lemma OthersFollow(s: Sys, e: Event)
    requires !e.ControlPass? && !e.Work? && !e.PowerLoss?
    ensures Follows(s, e) && (s.p.latch.latched ==> Step(s, e).p.latch.latched)
  {
    hide Tick, LimitTargets, Stopped, AfterRelease, After, NextEpoch, Admitted, ReservationFree, MaintenanceAllowed,
         AfterEdge;
  }

  lemma StepFollows(s: Sys, e: Event)
    requires !e.PowerLoss?
    ensures Follows(s, e)
  {
    hide Follows;
    match e
    case ControlPass(i) => PassFollows(s, i);
    case Work(w) => WorkFollows(s, w);
    case _ => OthersFollow(s, e);
  }

  // ---------------------------------------------------------------- an inhibit lasts until power is cycled

  lemma InhibitLastsOneStep(s: Sys, e: Event)
    requires s.p.latch.inhibited && !e.PowerLoss?
    ensures Step(s, e).p.latch.inhibited
  {
    hide Step, Disturbs, ArmsClear, ArmedIn, TakenBy;
    StepFollows(s, e);
  }

  lemma {:induction false} InhibitLastsTheBoot(ss: seq<Sys>, es: seq<Event>, j: nat, k: nat)
    requires Run(ss, es) && j <= k <= |es| && ss[j].p.latch.inhibited
    requires forall m :: j <= m < k ==> !es[m].PowerLoss?
    ensures ss[k].p.latch.inhibited && ss[k].p.latch.latched
    decreases k
  {
    hide PowerUp, Step, Safe, MailSafe;
    InvariantsHold(ss, es, k);
    if j < k {
      InhibitLastsTheBoot(ss, es, j, k - 1);
      assert Next(ss, es, k - 1);
      InhibitLastsOneStep(ss[k - 1], es[k - 1]);
    }
  }

  // ---------------------------------------------------------------- where a clear comes from

  /** The pass of event j armed a clear at generation g, and power has stayed on up to event k. */
  predicate ArmedAt(ss: seq<Sys>, es: seq<Event>, j: nat, k: nat, g: nat)
    requires |ss| == |es| + 1 && k <= |es|
  {
    && j < k && ArmsClear(es[j], ss[j + 1]) && ss[j + 1].p.latch.generation == g
    && (forall m :: j <= m < k ==> !es[m].PowerLoss?)
  }

  lemma BootArmsNothing(s: Sys, b: BootIn)
    ensures var t := Step(s, PowerLoss(b)); ArmedIn(t.p.latch).None? && TakenBy(t.worker).None?
  {
    hide LimitTargets, Sanitized, Restored;
  }

  predicate Pending(t: Sys, g: nat) { ArmedIn(t.p.latch) == Some(g) || TakenBy(t.worker) == Some(g) }

  lemma PendingComesFrom(s: Sys, e: Event, g: nat)
    requires Pending(Step(s, e), g) && !e.PowerLoss?
    ensures Pending(s, g) || (ArmsClear(e, Step(s, e)) && Step(s, e).p.latch.generation == g)
  {
    hide Step, ArmsClear, Disturbs;
    StepFollows(s, e);
  }

  /** Every pending clear was armed by a pass of this boot. */
  lemma {:induction false} PendingWasArmed(ss: seq<Sys>, es: seq<Event>, k: nat, g: nat) returns (j: nat)
    requires Run(ss, es) && k <= |es| && Pending(ss[k], g)
    ensures ArmedAt(ss, es, j, k, g)
    decreases k
  {
    hide PowerUp, Step, ArmsClear, Pending;
    if k == 0 {
      PowerUpArmsNothing(ss[0], g);
      assert false;
    } else {
      assert Next(ss, es, k - 1);
      if es[k - 1].PowerLoss? {
        BootHasNothingPending(ss[k - 1], es[k - 1].b, g);
        assert false;
      } else {
        PendingComesFrom(ss[k - 1], es[k - 1], g);
        if Pending(ss[k - 1], g) {
          j := PendingWasArmed(ss, es, k - 1, g);
        } else {
          j := k - 1;
        }
      }
    }
  }

  lemma BootHasNothingPending(s: Sys, b: BootIn, g: nat)
    ensures !Pending(Step(s, PowerLoss(b)), g)
  {
    hide Step, ArmedIn, TakenBy;
    BootArmsNothing(s, b);
  }

  lemma PowerUpArmsNothing(s: Sys, g: nat)
    requires PowerUp(s)
    ensures !Pending(s, g)
  {
    hide Booted, Pending;
    var b: BootIn :| s == Booted(s.cells, s.marker, s.mailbox.durable, b);
    assert Step(s, PowerLoss(b)) == s;
    BootHasNothingPending(s, b, g);
  }

  /** While power stays on the generation never falls, so equal generations mean nothing disturbed the latch between. */
  lemma {:induction false} GenerationTells(ss: seq<Sys>, es: seq<Event>, j: nat, k: nat)
    requires Steps(ss, es) && j <= k <= |es| && forall m :: j <= m < k ==> !es[m].PowerLoss?
    ensures ss[j].p.latch.generation <= ss[k].p.latch.generation
    ensures ss[j].p.latch.generation == ss[k].p.latch.generation ==>
              forall m :: j <= m < k ==> !Disturbs(ss[m], es[m], ss[m + 1])
    decreases k
  {
    hide Step, Disturbs;
    if j < k {
      GenerationTells(ss, es, j, k - 1);
      assert Next(ss, es, k - 1);
      StepFollows(ss[k - 1], es[k - 1]);
    }
  }

  /** Short of a power loss, only the last phase of a worker clear can unlatch. */
  lemma DutyUnlatches(b: Bench, unblocked: bool, w: WorkerIn)
    requires LatchDuty(b.worker) && b.latch.latched && !AfterLatchDuty(b, unblocked, w).latch.latched
    ensures b.worker.ClearWritten? && b.worker.written && unblocked && !b.latch.inhibited
    ensures b.worker.generation == b.latch.generation
  {
  }

  /** What allows a clear: nothing works, is scheduled or heats; recent readings, not hot; the lost signal is back. */
  predicate SafeToClear(p: Plant, nowMs: int)
  {
    && !p.latch.inhibited && !p.settings.workOn && !p.settings.schedule.enabled && !p.rt.heaterOn
    && RecentReadings(p.rt, nowMs) && BelowHardLimits(p.rt.chamberInstant, p.rt.ptcInstant, p.board)
    && (p.latch.fault == HF.ZERO_CROSS_LOST ==> p.rt.zeroCross)
  }

  /** The block reason is empty exactly when it is safe to clear. */
  lemma UnblockedIsSafe(p: Plant, nowMs: int)
    ensures ClearUnblocked(p, nowMs) <==> SafeToClear(p, nowMs)
  {
  }

  predicate FinishesClear(s: Sys, e: Event)
  {
    && e.Work? && s.worker.ClearWritten? && s.worker.written && s.worker.generation == s.p.latch.generation
    && SafeToClear(s.p, e.w.nowUs / 1000)
  }

  lemma DutyFinishes(b: Bench, unblocked: bool, w: WorkerIn)
    requires b.worker.ClearWritten? && b.latch.latched
    ensures !AfterLatchDuty(b, unblocked, w).latch.latched <==>
              b.worker.written && b.worker.generation == b.latch.generation && unblocked && !b.latch.inhibited
  {
  }

  /**
   * The last phase of a clear unlatches exactly when flash took the clear, nothing disturbed the latch, and it is safe.
   */
  lemma FinishIsExact(ss: seq<Sys>, es: seq<Event>, k: nat)
    requires Steps(ss, es) && k < |es| && es[k].Work? && ss[k].worker.ClearWritten? && ss[k].p.latch.latched
    ensures !ss[k + 1].p.latch.latched <==> FinishesClear(ss[k], es[k])
  {
    hide Step, ClearUnblocked, SafeToClear, AfterLatchDuty;
    assert Next(ss, es, k);
    var nowMs := es[k].w.nowUs / 1000;
    WorkIsAfterWork(ss[k], es[k].w);
    UnblockedIsSafe(ss[k].p, nowMs);
    SafeIsUninhibited(ss[k].p, nowMs);
    DutyFinishes(BenchOf(ss[k]), ClearUnblocked(ss[k].p, nowMs), es[k].w);
  }

  lemma SafeIsUninhibited(p: Plant, nowMs: int)
    ensures SafeToClear(p, nowMs) ==> !p.latch.inhibited
  {
  }

  lemma PassNeverUnlatches(s: Sys, i: TickIn)
    requires s.p.latch.latched
    ensures Step(s, ControlPass(i)).p.latch.latched
  {
    hide Tick, Consulted;
    TickMovesLatch(s.p, s.c, i);
  }

  lemma BeginKeepsLatched(s: Sys, w: WorkerIn)
    ensures Begin(s, w).p.latch.latched == s.p.latch.latched
  {
    hide JournalDecision, CheckpointAllowed;
  }

  lemma JournalKeepsLatched(s: Sys, w: WorkerIn)
    requires JournalDuty(s.worker) && s.p.latch.latched
    ensures AfterJournalDuty(s, w).p.latch.latched
  {
    hide AfterJournalDuty;
    JournalLatch(s, w);
  }

  lemma WorkUnlatches(s: Sys, w: WorkerIn)
    requires s.p.latch.latched && !AfterWork(s, w).p.latch.latched
    ensures FinishesClear(s, Work(w))
  {
    hide Begin, AfterLatchDuty, AfterJournalDuty, ClearUnblocked, SafeToClear;
    BeginKeepsLatched(s, w);
    UnblockedIsSafe(s.p, w.nowUs / 1000);
    if LatchDuty(s.worker) {
      DutyUnlatches(BenchOf(s), ClearUnblocked(s.p, w.nowUs / 1000), w);
    } else if JournalDuty(s.worker) {
      JournalKeepsLatched(s, w);
    }
  }

  lemma OnlyFinishUnlatches(s: Sys, e: Event)
    requires s.p.latch.latched && !Step(s, e).p.latch.latched && !e.PowerLoss?
    ensures FinishesClear(s, e)
  {
    hide FinishesClear, Tick, AfterWork;
    match e
    case ControlPass(i) => PassNeverUnlatches(s, i);
    case Work(w) => WorkUnlatches(s, w);
    case _ => OthersFollow(s, e);
  }

  /** In any run, the latch goes from set to clear only by a power loss or the last phase of a worker clear. */
  lemma UnlatchIsFinish(ss: seq<Sys>, es: seq<Event>, k: nat)
    requires Steps(ss, es) && k < |es| && ss[k].p.latch.latched && !ss[k + 1].p.latch.latched
    ensures es[k].PowerLoss? || FinishesClear(ss[k], es[k])
  {
    hide FinishesClear, Step;
    assert Next(ss, es, k);
    if !es[k].PowerLoss? {
      OnlyFinishUnlatches(ss[k], es[k]);
    }
  }

  /**
   * The latch goes from set to clear only when flash already holds the clear, the device is not inhibited and, at that
   * instant, nothing works, nothing is scheduled, the SSR is off and recent readings are below both hard limits; the
   * pass that armed the clear had been asked to and found cold sensors and no work; and since then there was no
   * deferred trip, no inhibit and no power loss.
   */
  lemma ClearIsEarned(ss: seq<Sys>, es: seq<Event>, k: nat) returns (j: nat)
    requires Run(ss, es) && k < |es|
    requires ss[k].p.latch.latched && !ss[k + 1].p.latch.latched && !es[k].PowerLoss?
    ensures FinishesClear(ss[k], es[k]) && ss[k].cells == FaultCells(Some(HF.OK), Some(0)) && !ss[k].p.ssr
    ensures j < k && es[j].ControlPass? && MayArm(ss[j].p, ss[j].c, es[j].i)
    ensures forall m :: j < m < k ==> !Disturbs(ss[m], es[m], ss[m + 1])
  {
    hide PowerUp, Step, ArmsClear, Disturbs, SafeToClear;
    UnlatchIsFinish(ss, es, k);
    InvariantsHold(ss, es, k);
    SafeIsOff(ss[k].p, es[k].w.nowUs / 1000);
    j := PendingWasArmed(ss, es, k, ss[k].worker.generation);
    GenerationTells(ss, es, j + 1, k);
    ArmingPass(ss, es, j);
  }

  /** A pass that armed a clear found that it may. */
  lemma ArmingPass(ss: seq<Sys>, es: seq<Event>, j: nat)
    requires Steps(ss, es) && j < |es| && ArmsClear(es[j], ss[j + 1])
    ensures es[j].ControlPass? && MayArm(ss[j].p, ss[j].c, es[j].i)
  {
    hide Step, Tick, MayArm;
    assert Next(ss, es, j);
    PassIsTick(ss[j], es[j].i);
    ArmIff(ss[j].p, ss[j].c, es[j].i);
  }

  lemma SafeIsOff(p: Plant, nowMs: int)
    requires SafeToClear(p, nowMs) && EnergySafe(p)
    ensures !p.ssr
  {
    hide RecentReadings, BelowHardLimits;
  }

  /** The clear is written to flash only after the same check: the worker goes on exactly if it still holds. */
  lemma CheckIsExact(ss: seq<Sys>, es: seq<Event>, k: nat)
    requires Steps(ss, es) && k < |es| && es[k].Work? && (ss[k].worker.Clearing? || ss[k].worker.ClearChecked?)
    ensures var s, t, w := ss[k], ss[k + 1], es[k].w;
            if s.worker.Clearing?
            then t == s.(worker := ClearChecked(s.worker.generation,
                                                s.p.latch.latched && s.worker.generation == s.p.latch.generation
                                                && SafeToClear(s.p, w.nowUs / 1000)),
                         held := t.held)
            else && t.p == s.p && t.worker == ClearWritten(s.worker.generation, s.worker.safe && w.write.Committed?)
                 && (!s.worker.safe ==> t.cells == s.cells)
                 && (s.worker.safe && w.write.Committed? ==> t.cells == FaultCells(Some(0), Some(0)))
  {
    hide Step, ClearUnblocked, SafeToClear;
    assert Next(ss, es, k);
    var nowMs := es[k].w.nowUs / 1000;
    WorkIsAfterWork(ss[k], es[k].w);
    UnblockedIsSafe(ss[k].p, nowMs);
    SafeIsUninhibited(ss[k].p, nowMs);
  }

  // ---------------------------------------------------------------- what flash holds

  /**
   * A latch set by a deferred trip, with persistence no longer pending and the worker outside its clear window, is in
   * flash with its reason; so it survives any power loss.
   */
  lemma TripSurvivesPowerLoss(ss: seq<Sys>, es: seq<Event>, k: nat)
    requires Run(ss, es) && k <= |es|
    requires ss[k].held && !ss[k].p.latch.persistPending && !ClearWindow(ss[k].worker)
    ensures var t := ss[k];
            && t.p.latch.latched && t.cells.latch == Some(1)
            && (!t.p.latch.inhibited ==> t.cells.code == Some(t.p.latch.fault))
    ensures k < |es| && es[k].PowerLoss? ==> ss[k + 1].p.latch.latched
  {
    hide PowerUp, Step;
    InvariantsHold(ss, es, k);
    if k < |es| && es[k].PowerLoss? {
      assert Next(ss, es, k);
      StoredBootIsLatched(ss[k], es[k].b);
    }
  }

  lemma StoredBootIsLatched(s: Sys, b: BootIn)
    requires s.cells.latch == Some(1)
    ensures Step(s, PowerLoss(b)).p.latch.latched
  {
    hide LimitTargets, Sanitized;
  }

  /** A retry marks as persisted only the trip whose reason it wrote, and only ever writes a latch still in force. */
  lemma RetryIsHonest(ss: seq<Sys>, es: seq<Event>, k: nat)
    requires Run(ss, es) && k < |es| && es[k].Work?
    ensures var t, u := ss[k], ss[k + 1];
            && (t.worker.RetryTaken? ==> t.p.latch.latched && t.worker.latched)
            && (t.worker.RetryWritten? && t.p.latch.persistPending && !u.p.latch.persistPending ==>
                  u.cells.latch == Some(1) && (!u.p.latch.inhibited ==> u.cells.code == Some(u.p.latch.fault)))
  {
    hide PowerUp, Step;
    InvariantsHold(ss, es, k);
    assert Next(ss, es, k);
    if ss[k].worker.RetryWritten? {
      RetryEnds(ss[k], es[k].w);
    }
  }

  lemma RetryEnds(s: Sys, w: WorkerIn)
    requires LatchSafe(s) && s.worker.RetryWritten?
    ensures var u := Step(s, Work(w));
            s.p.latch.persistPending && !u.p.latch.persistPending ==>
              u.cells.latch == Some(1) && (!u.p.latch.inhibited ==> u.cells.code == Some(u.p.latch.fault))
  {
    hide ClearUnblocked, Begin, AfterJournalDuty, AfterFlushDuty;
  }

  /**
   * With nothing pending in the mailbox, and no factory reset in this boot, the store holds the settings deferred last.
   */
  lemma SettledMailIsStored(ss: seq<Sys>, es: seq<Event>, k: nat)
    requires Run(ss, es) && k <= |es| && !ss[k].resetting
    requires ss[k].mailbox.revision > 0 && ss[k].mailbox.revision == ss[k].mailbox.saved
    ensures ss[k].mailbox.durable == Some(ss[k].mailbox.pending)
  {
    hide PowerUp, Steps;
    InvariantsHold(ss, es, k);
  }

  lemma ResetStep(s: Sys, e: Event)
    requires !e.PowerLoss?
    ensures var t := Step(s, e); t.resetting == (s.resetting || (e.FactoryReset? && MaintenanceAllowed(s.p, e.nowMs)))
  {
    hide Tick, AfterWork, AfterCommand, AfterStop, AfterEmergencyStop, AfterClearRequest, Inhibited, Admitted,
         LimitTargets, Seen, After, AfterEdge, ReservationFree, MaintenanceAllowed;
    if e.Work? {
      WorkNeverResets(s, e.w);
    }
  }

  lemma WorkNeverResets(s: Sys, w: WorkerIn)
    ensures AfterWork(s, w).resetting == s.resetting
  {
    hide ClearUnblocked, AfterLatchDuty, JournalDecision, CheckpointAllowed;
  }

  /**
   * A factory reset is the only exception, and it shuts the device down for good: from its admission to the next power
   * loss the reservation is held, so the SSR is off, no work can start and no deferred settings are flushed.
   */
  lemma {:induction false} ResetHoldsUntilRestart(ss: seq<Sys>, es: seq<Event>, j: nat, k: nat)
    requires Run(ss, es) && j < k <= |es| && es[j].FactoryReset? && MaintenanceAllowed(ss[j].p, es[j].nowMs)
    requires forall m :: j <= m < k ==> !es[m].PowerLoss?
    ensures ss[k].resetting && ss[k].p.maintenance && !ss[k].p.ssr
    ensures !ss[k].worker.FlushTaken? && !StartAllowed(ss[k].p)
    decreases k
  {
    hide PowerUp, Step, MaintenanceAllowed, LatchSafe;
    InvariantsHold(ss, es, k);
    assert Next(ss, es, k - 1);
    if k > j + 1 {
      ResetHoldsUntilRestart(ss, es, j, k - 1);
    }
    ResetStep(ss[k - 1], es[k - 1]);
  }

  // ---------------------------------------------------------------- a trip gets stored

  /** A pending reason is due: the first attempt at once, the next ones 2 s apart. */
  predicate WriteDue(l: Latch, nowUs: int)
  {
    l.persistPending && l.mutexOk && (l.lastAttemptUs == 0 || nowUs - l.lastAttemptUs >= 2_000_000)
  }

  /** The worker takes up a pending reason exactly when it is due. */
  lemma RetryIff(ss: seq<Sys>, es: seq<Event>, k: nat)
    requires Steps(ss, es) && k < |es| && es[k].Work? && ss[k].worker.Retrying?
    ensures var s, t := ss[k], ss[k + 1];
            if WriteDue(s.p.latch, es[k].w.nowUs)
            then t.worker == RetryTaken(s.p.latch.generation, s.p.latch.latched, s.p.latch.fault)
            else t.worker == Ready && t.p.latch == s.p.latch
  {
    hide Step, ClearUnblocked, Begin, AfterJournalDuty, AfterFlushDuty;
    assert Next(ss, es, k);
    WorkIsAfterWork(ss[k], es[k].w);
  }

  /** One worker step at time t whose write commits. */
  function Stored(s: Sys, t: int): Sys { Step(s, Work(WorkerIn(t, Committed, ServiceLatch))) }

  /**
   * A pending trip that is due is in flash four undisturbed worker steps later, with its reason, and no longer pending;
   * provided no clear is armed and the writes commit.
   */
  lemma TripGetsStored(s: Sys, t: int)
    requires s.worker.Ready? && s.p.latch.latched && !s.p.latch.deferredClear && WriteDue(s.p.latch, t)
    ensures var u := Stored(Stored(Stored(Stored(s, t), t), t), t);
            && u.cells == FaultCells(Some(s.p.latch.fault), Some(1)) && u.worker.Ready?
            && u.p.latch == s.p.latch.(persistPending := false, lastAttemptUs := t)
  {
    hide Step, ClearUnblocked;
    var w := WorkerIn(t, Committed, ServiceLatch);
    WorkIsAfterWork(s, w);
    var a := Stored(s, t);
    WorkIsAfterWork(a, w);
    var b := Stored(a, t);
    WorkIsAfterWork(b, w);
    var c := Stored(b, t);
    WorkIsAfterWork(c, w);
  }
}
