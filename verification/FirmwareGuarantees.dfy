/** What holds over every run of the controller: any flash content at power-up, any interleaving, any power loss. */
module FirmwareGuarantees {
  import opened Common
  import opened PlantState
  import opened SafetyLatch
  import opened FanTriac
  import opened ControlLease
  import opened SensorWatch
  import opened ControlPlane
  import opened ControlTick
  import opened Conditions
  import opened HeatGuarantees
  import opened TickGuarantees
  import opened Firmware
  import opened FirmwareInvariants
  import HF = HeaterFaults

  /** A power-up with arbitrary flash contents. */
  ghost predicate PowerUp(s: Sys)
  {
    exists b: BootIn :: s == Booted(s.cells, s.marker, s.mailbox.durable, b)
  }

  lemma PowerUpIsSafe(s: Sys)
    requires PowerUp(s)
    ensures Safe(s) && LatchSafe(s) && MailSafe(s)
  {
    hide Safe, LatchSafe, MailSafe, Booted;
    var b: BootIn :| s == Booted(s.cells, s.marker, s.mailbox.durable, b);
    assert Step(s, PowerLoss(b)) == s;
    BootIsSafe(s, b);
    BootKeepsLatch(s, b);
    BootKeepsMail(s, b);
  }

  /** A run of the device from its first power-up. */
  ghost predicate Run(ss: seq<Sys>, es: seq<Event>) { Steps(ss, es) && PowerUp(ss[0]) }

  /** The three families of invariants hold in every reachable state. */
  lemma {:induction false} InvariantsHold(ss: seq<Sys>, es: seq<Event>, k: nat)
    requires Run(ss, es) && k <= |es|
    ensures Safe(ss[k]) && LatchSafe(ss[k]) && MailSafe(ss[k])
  {
    hide Safe, LatchSafe, MailSafe, Step, PowerUp;
    if k == 0 {
      PowerUpIsSafe(ss[0]);
    } else {
      InvariantsHold(ss, es, k - 1);
      assert Next(ss, es, k - 1);
      StepKeepsSafe(ss[k - 1], es[k - 1]);
      StepKeepsLatch(ss[k - 1], es[k - 1]);
      StepKeepsMail(ss[k - 1], es[k - 1]);
    }
  }

  // ---------------------------------------------------------------- the session marker

  /** A marker of 1, or one that cannot be read, boots latched. */
  lemma MarkedBootIsLatched(s: Sys, b: BootIn)
    requires s.marker == Some(1)
    ensures Step(s, PowerLoss(b)).p.latch.latched
  {
    hide Restored, LimitTargets, Sanitized;
  }

  /**
   * Whenever the SSR is on, flash says the session is dirty, the fan gate is applied, the runtime mirror agrees and
   * nobody holds the maintenance reservation; so losing power at that instant boots latched.
   */
  lemma EnergisedIsMarked(ss: seq<Sys>, es: seq<Event>, k: nat)
    requires Run(ss, es) && k <= |es| && ss[k].p.ssr
    ensures var t := ss[k];
            && t.marker == Some(1) && t.p.dirty && t.p.fan.applied && t.p.fan.requested && t.p.rt.heaterOn
            && !t.p.maintenance
    ensures k < |es| && es[k].PowerLoss? ==> ss[k + 1].p.latch.latched
  {
    hide PowerUp, Step;
    InvariantsHold(ss, es, k);
    if k < |es| && es[k].PowerLoss? {
      assert Next(ss, es, k);
      MarkedBootIsLatched(ss[k], es[k].b);
    }
  }

  /** The maintenance reservation has at most one holder, and is set exactly while it has one. */
  lemma ReservationIsExclusive(ss: seq<Sys>, es: seq<Event>, k: nat)
    requires Run(ss, es) && k <= |es|
    ensures var t := ss[k];
            && t.p.maintenance == (t.other || Reserving(t.worker)) && !(t.other && Reserving(t.worker))
            && (t.p.maintenance ==> !t.p.ssr)
  {
    hide PowerUp, Steps;
    InvariantsHold(ss, es, k);
  }

  // ---------------------------------------------------------------- only an admitted pass energises

  /** The worker never touches the job, the SSR or the readings, and never lifts an inhibit. */
  predicate SameJob(p: Plant, q: Plant)
  {
    q.ssr == p.ssr && q.rt == p.rt && q.settings == p.settings && (p.latch.inhibited ==> q.latch.inhibited)
  }

  lemma ReadyDutyKeepsJob(s: Sys, w: WorkerIn)
    requires s.worker.Ready?
    ensures SameJob(s.p, Begin(s, w).p)
  {
    hide JournalDecision, CheckpointAllowed;
  }

  lemma JournalDutyKeepsJob(s: Sys, w: WorkerIn)
    requires JournalDuty(s.worker)
    ensures SameJob(s.p, AfterJournalDuty(s, w).p)
  {
    hide AfterMarker;
  }

  lemma FlushDutyKeepsJob(s: Sys, w: WorkerIn)
    requires s.worker.FlushTaken? || s.worker.FlushWritten?
    ensures SameJob(s.p, AfterFlushDuty(s, w).p)
  {
  }

  lemma WorkKeepsJob(s: Sys, w: WorkerIn)
    ensures SameJob(s.p, AfterWork(s, w).p)
  {
    hide Begin, AfterJournalDuty, AfterFlushDuty, AfterLatchDuty, ClearUnblocked;
    if s.worker.Ready? {
      ReadyDutyKeepsJob(s, w);
    } else if LatchDuty(s.worker) {
      DutyStaysOnLatch(BenchOf(s), ClearUnblocked(s.p, w.nowUs / 1000), w);
    } else {
      if JournalDuty(s.worker) {
        JournalDutyKeepsJob(s, w);
      } else {
        FlushDutyKeepsJob(s, w);
      }
    }
  }

  lemma CommandsNeverEnergise(s: Sys, e: Event)
    requires e.Command? || e.Stop? || e.EmergencyStop? || e.RequestClear? || e.LeaseOp?
    ensures Step(s, e).p.ssr == s.p.ssr && Step(s, e).p.latch.inhibited == s.p.latch.inhibited
  {
    hide LimitTargets, Stopped, AfterRelease, After, NextEpoch, Admitted, Tick, Seen, AfterWork, Booted, Deferred,
         MaintenanceAllowed, ReservationFree, AfterCut, AfterEdge;
  }

  lemma OutsideNeverEnergises(s: Sys, e: Event)
    requires e.WatchdogFails? || e.ZeroCross? || e.PrinterReport? || e.ServiceFails? || e.Reserve? || e.Calibrate? ||
             e.EndReservation? || e.FactoryReset?
    ensures var t := Step(s, e);
            && (t.p.ssr ==> s.p.ssr) && t.p.settings == s.p.settings
            && (s.p.latch.inhibited ==> t.p.latch.inhibited)
  {
    hide ReservationFree, MaintenanceAllowed, AfterEdge, Tick, Seen, AfterWork, Booted, AfterCommand, AfterStop,
         AfterEmergencyStop, AfterClearRequest, After, Admitted;
  }

  lemma OnlyPassesEnergise(s: Sys, e: Event)
    requires !e.ControlPass? && Step(s, e).p.ssr
    ensures s.p.ssr
  {
    hide Tick, AfterWork, Booted;
    match e
    case Work(w) => WorkKeepsJob(s, w);
    case PowerLoss(b) => BootStaysDead(s, b);
    case Command(_, _) => CommandsNeverEnergise(s, e);
    case Stop => CommandsNeverEnergise(s, e);
    case EmergencyStop => CommandsNeverEnergise(s, e);
    case RequestClear => CommandsNeverEnergise(s, e);
    case LeaseOp(_) => CommandsNeverEnergise(s, e);
    case _ => OutsideNeverEnergises(s, e);
  }

  /** Event j is the latest control pass before state k, and the SSR has been on ever since it. */
  predicate EnergisedBy(ss: seq<Sys>, es: seq<Event>, j: nat, k: nat)
    requires |ss| == |es| + 1 && k <= |es|
  {
    && j < k && es[j].ControlPass?
    && (forall m :: j < m < k ==> !es[m].ControlPass?)
    && (forall m :: j < m <= k ==> ss[m].p.ssr)
  }

  /** An SSR that is on was switched on, or kept on, by the latest control pass, and has been on ever since. */
  lemma {:induction false} EnergisedByLatestPass(ss: seq<Sys>, es: seq<Event>, k: nat) returns (j: nat)
    requires Run(ss, es) && k <= |es| && ss[k].p.ssr
    ensures EnergisedBy(ss, es, j, k)
    decreases k
  {
    hide PowerUp, Step;
    if k == 0 {
      PowerUpIsOff(ss[0]);
      assert false;
    } else if es[k - 1].ControlPass? {
      j := k - 1;
    } else {
      assert Next(ss, es, k - 1);
      OnlyPassesEnergise(ss[k - 1], es[k - 1]);
      j := EnergisedByLatestPass(ss, es, k - 1);
    }
  }

  /**
   * What a pass from s to t must have found to leave the SSR on, as far as it is seen from outside: the conditions of
   * `Heats` on the settings it commits; and t works on the set-point of that job with no fault, latch or inhibit.
   */
  predicate PassAdmits(s: Sys, i: TickIn, t: Sys)
  {
    && SensorsAllow(s.p, s.c, i, t.p.settings.ptcCutoffC) && DeviceAllows(s.p, s.c, i, false)
    && JobAsks(t.p.settings, t.c.autoSeen, s.p, s.c, i) && NothingTrips(s.p, s.c, i, t.p.rt.targetC)
    && OutputsAllow(s.p, i) && GateLive(t.p.fan, i.setUs)
    && t.p.rt.targetC == SetPointOf(t.p.settings) && SampleOf(i).chamberInstant.Below(t.p.rt.targetC as real)
    && !t.p.latch.latched && !t.p.latch.inhibited
    && t.p.rt.fault == HF.OK && t.p.rt.gateReady && t.p.rt.heaterOn && !t.c.foldback
  }

  lemma WantedIsBelow(was: bool, t: Temp, targetC: int)
    requires WantsHeat(was, t, targetC)
    ensures t.Below(targetC as real)
  {
  }

  lemma EnergisedTick(s: Sys, i: TickIn)
    requires Step(s, ControlPass(i)).p.ssr
    ensures PassAdmits(s, i, Step(s, ControlPass(i)))
  {
    hide Step, Tick, JobOf, SensorsAllow, NothingTrips, OutputsAllow, GateLive, AfterEdges, SetPointOf, PrinterBacks,
         PreFan, WantsHeat, Readable, Running, SampleAccepted, SafetyTemperature, LimitTargets;
    PassIsTick(s, i);
    EnergisedPassIsAdmitted(s.p, s.c, i);
    PassHeatsIff(s.p, s.c, i);
    CommittedTarget(s.p, s.c, i);
    CommittedJob(s.p, s.c, i);
    RunningIsExact(Tick(s.p, s.c, i).p.fan, i.setUs);
    WantedIsBelow(s.c.demand, SampleOf(i).chamberInstant, SetPointOf(JobOf(s.p, s.c, i).s));
  }

  /** A pass leaves the SSR on if and only if everything it is given allows it. */
  lemma PassEnergisesIff(ss: seq<Sys>, es: seq<Event>, k: nat)
    requires Steps(ss, es) && k < |es| && es[k].ControlPass?
    ensures ss[k + 1].p.ssr <==> Heats(ss[k].p, ss[k].c, es[k].i)
  {
    hide Step, Tick, Heats;
    assert Next(ss, es, k);
    PassIsTick(ss[k], es[k].i);
    PassHeatsIff(ss[k].p, ss[k].c, es[k].i);
  }

  /** Every pass that leaves the latch clear works on the set-point of the job it commits. */
  lemma TargetFollowsJob(ss: seq<Sys>, es: seq<Event>, k: nat)
    requires Steps(ss, es) && k < |es| && es[k].ControlPass? && !ss[k + 1].p.latch.latched
    ensures ss[k + 1].p.rt.targetC == SetPointOf(ss[k + 1].p.settings)
  {
    hide Step, Tick, SetPointOf;
    assert Next(ss, es, k);
    PassIsTick(ss[k], es[k].i);
    CommittedTarget(ss[k].p, ss[k].c, es[k].i);
  }

  /** Whenever the SSR is on, in any run, the latest pass found everything in order, and nothing has cut it since. */
  lemma EnergisedIsAdmitted(ss: seq<Sys>, es: seq<Event>, k: nat) returns (j: nat)
    requires Run(ss, es) && k <= |es| && ss[k].p.ssr
    ensures EnergisedBy(ss, es, j, k) && PassAdmits(ss[j], es[j].i, ss[j + 1])
  {
    hide PowerUp, Step, PassAdmits;
    j := EnergisedByLatestPass(ss, es, k);
    assert Next(ss, es, j);
    assert ss[j + 1].p.ssr;
    EnergisedTick(ss[j], es[j].i);
  }

  lemma PowerUpIsOff(s: Sys)
    requires PowerUp(s)
    ensures !s.p.ssr && Quiet(s.p.settings)
  {
    hide BootLatch, LimitTargets;
    var b: BootIn :| s == Booted(s.cells, s.marker, s.mailbox.durable, b);
    LimitKeepsQuiet(Sanitized(b.settings));
  }

  // ---------------------------------------------------------------- a seen latch ends heating for good

  predicate StartsWork(e: Event) { e.Command? && !Quiet(e.s) }

  /** Off, and with nothing that could switch itself on. */
  predicate Dead(s: Sys) { !s.p.ssr && (Quiet(s.p.settings) || s.p.latch.inhibited) }

  lemma CommandStaysDead(s: Sys, e: Event)
    requires Dead(s) && !StartsWork(e) && (e.Command? || e.Stop? || e.EmergencyStop? || e.RequestClear? || e.LeaseOp?)
    ensures Dead(Step(s, e))
  {
    hide LimitTargets, Stopped, AfterRelease, After, NextEpoch, Admitted, Quiet;
    StoppedIsQuiet(s.p.settings);
    LimitKeepsQuiet(Stopped(s.p.settings));
    if e.Command? {
      LimitKeepsQuiet(e.s);
    }
  }

  lemma OutsideStaysDead(s: Sys, e: Event)
    requires Dead(s)
    requires e.WatchdogFails? || e.ZeroCross? || e.PrinterReport? || e.ServiceFails? || e.Reserve? || e.Calibrate? ||
             e.EndReservation? || e.FactoryReset? || e.Work?
    ensures Dead(Step(s, e))
  {
    hide Quiet, AfterWork;
    if e.Work? {
      WorkKeepsJob(s, e.w);
    } else {
      OutsideNeverEnergises(s, e);
    }
  }

  lemma BootStaysDead(s: Sys, b: BootIn)
    ensures Dead(Step(s, PowerLoss(b)))
  {
    hide BootLatch, LimitTargets;
    LimitKeepsQuiet(Sanitized(b.settings));
  }

  lemma StepStaysDead(s: Sys, e: Event)
    requires Dead(s) && !StartsWork(e)
    ensures Dead(Step(s, e))
  {
    hide Tick, AfterWork, Booted, Quiet;
    match e
    case ControlPass(i) => QuietPass(s.p, s.c, i);
    case PowerLoss(b) => BootStaysDead(s, b);
    case Command(_, _) => CommandStaysDead(s, e);
    case Stop => CommandStaysDead(s, e);
    case EmergencyStop => CommandStaysDead(s, e);
    case RequestClear => CommandStaysDead(s, e);
    case LeaseOp(_) => CommandStaysDead(s, e);
    case _ => OutsideStaysDead(s, e);
  }

  /**
   * Once a pass has seen the latch, only an external start command can bring heat back: passes, the worker (a
   * successful clear included), sensors, printer, interrupts, other commands and even a reboot never do.
   */
  lemma {:induction false} SeenLatchEndsHeating(ss: seq<Sys>, es: seq<Event>, j: nat, k: nat)
    requires Steps(ss, es) && j < k <= |es| && es[j].ControlPass? && ss[j + 1].note.sawLatch
    requires forall m :: j < m < k ==> !StartsWork(es[m])
    ensures Dead(ss[k])
    decreases k
  {
    hide Step, Dead;
    assert Next(ss, es, k - 1);
    if k == j + 1 {
      LatchedPassIsDead(ss[j], es[j].i);
    } else {
      SeenLatchEndsHeating(ss, es, j, k - 1);
      StepStaysDead(ss[k - 1], es[k - 1]);
    }
  }

  lemma LatchedPassIsDead(s: Sys, i: TickIn)
    requires Step(s, ControlPass(i)).note.sawLatch
    ensures Dead(Step(s, ControlPass(i)))
  {
    hide Tick, Quiet;
    SawLatchStops(s.p, s.c, i);
  }
}
