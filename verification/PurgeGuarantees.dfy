/** Residual heat: the blower stays requested until both sensors confirm a cold device. */
module PurgeGuarantees {
  import opened Common
  import opened PlantState
  import opened SafetyLatch
  import opened FanTriac
  import opened ControlPlane
  import opened ControlTick
  import opened SensorWatch
  import opened Jobs
  import opened JobSession
  import opened Conditions
  import opened HeatGuarantees
  import opened TickGuarantees
  import opened Firmware
  import opened FirmwareGuarantees
  import opened ZeroCrossGuarantees

  /** "Heated" is forgotten exactly when residual heat counts as gone, and while it lasts something asks for airflow. */
  lemma PurgeRule(a: Pass, heatMode: bool)
    ensures var b := Purge(a, heatMode);
            && (b.c.heated ==> heatMode || b.c.purge)
            && (heatMode ==> b.c.heated)
            && (a.c.heated ==> (b.c.heated <==> !PurgeMayEnd(a, heatMode)))
  {
  }

  lemma PlanPurges(l: LatchStage, controller: bool, i: TickIn)
    ensures var o := PlanOutputs(l, controller, i);
            var heatMode := HeatMode(l, controller);
            var b := Purge(l.pass, heatMode);
            && o.heated == b.c.heated && o.purge == b.c.purge && (heatMode || b.c.purge ==> o.fan)
  {
    hide AfterEdges, NextPurge, Gate, ReleaseOwned, HeatAdmitted;
  }

  /** The statics a pass inherits reach the purge rule unchanged. */
  lemma HeatedReachesPurge(p: Plant, c: Ctl, i: TickIn)
    ensures Consulted(p, c, i).pass.c.heated == c.heated && Consulted(p, c, i).pass.c.purge == c.purge
  {
    hide Sense, RunJobs, WatchSensors, DecideDemand, JudgeFaults, ConsultLatch;
    SenseParts(p, c, i);
    RunJobsFacts(Sense(p, c, i), i);
    WatchFacts(Jobbed(p, c, i), i, SampleAccepted(c.watch, i));
    DemandFrame(Watched(p, c, i), i);
    JudgeFacts(Decided(p, c, i), i);
    LatchFrame(Judged(p, c, i), Decided(p, c, i).sensorsOk, Decided(p, c, i).overtemp);
  }

  /** One pass: airflow is requested whenever the device still counts as heated. */
  lemma PassPurges(p: Plant, c: Ctl, i: TickIn)
    ensures var o := Tick(p, c, i);
            && (o.c.heated && p.fan.initialized ==> o.p.fan.requested)
            && o.p.fan.initialized == p.fan.initialized
            && (c.heated ==> (o.c.heated <==> !o.cool))
  {
    hide Tick, Consulted, PlanOutputs, Purge, PurgeMayEnd, AfterEdges;
    var l := Consulted(p, c, i);
    var controller := Decided(p, c, i).controller;
    TickUnfolds(p, c, i);
    HeatedReachesPurge(p, c, i);
    PurgeRule(l.pass, HeatMode(l, controller));
    PlanPurges(l, controller, i);
    FanTrace(p, c, i);
    EdgesKeepRequest(p.fan, i.admitEdges);
    EdgesKeepRequest(AfterEdges(p.fan, i.admitEdges), i.zcEdges);
    EdgesKeepRequest(FanAtRead(p, i), i.statsEdges);
    EdgesKeepRequest(AfterEdges(FanAtRead(p, i), i.statsEdges), i.setEdges);
  }

  // ---------------------------------------------------------------- heat counts as heat

  lemma HeatNeedsController(a: Pass, i: TickIn)
    ensures DecideDemand(a, i).heat ==> DecideDemand(a, i).controller
  {
    hide Refresh, DemandInhibited, Overtemp, UsableSensors;
  }

  /** A pass that leaves the SSR on was in heat mode, and so marks the device as heated. */
  lemma HeatingPassHeats(p: Plant, c: Ctl, i: TickIn)
    requires Tick(p, c, i).p.ssr
    ensures Tick(p, c, i).c.heated
  {
    hide Tick, Consulted, Decided, PlanOutputs, Purge, PurgeMayEnd;
    var l := Consulted(p, c, i);
    var controller := Decided(p, c, i).controller;
    EnergisedPlan(p, c, i);
    PlannedHeat(p, c, i);
    ConsultedHeat(p, c, i);
    DecidedController(p, c, i);
    TickUnfolds(p, c, i);
    PurgeRule(l.pass, HeatMode(l, controller));
    PlanPurges(l, controller, i);
  }

  lemma DecidedController(p: Plant, c: Ctl, i: TickIn)
    ensures Decided(p, c, i).heat ==> Decided(p, c, i).controller
  {
    hide DecideDemand, Watched;
    HeatNeedsController(Watched(p, c, i), i);
  }

  // ---------------------------------------------------------------- what ends a purge

  /** The limit a pass compares both sensors with: the release temperature, or 3 C above it before a purge has begun. */
  function PurgeLimitC(p: Plant, c: Ctl): int { ReleaseC(p.settings) + if c.purge then 0 else 3 }

  lemma ColdIsBothBelow(rt: Runtime, limitC: int)
    ensures ColdBelow(rt, limitC) <==> BothBelow(rt, limitC)
  {
  }

  lemma ReleaseIsClamped(s: Settings)
    ensures ReleaseC(s) == Clamp(s.coolReleaseC, 30, 65)
  {
  }

  lemma LatchKeepsTemperatures(f: FaultStage, sensorsOk: bool, hot: bool)
    ensures var a := ConsultLatch(f, sensorsOk, hot).pass;
            && a.rt == f.pass.rt.(fault := a.rt.fault, heaterOn := a.rt.heaterOn)
            && a.st.coolReleaseC == f.pass.st.coolReleaseC
  {
    hide ReleaseOwned, AfterDeferTrip, AfterDeferClear, AfterTakeClear, Arms;
  }

  /** The readings and the release setting that reach the purge rule. */
  lemma ReadingsReachPurge(p: Plant, c: Ctl, i: TickIn)
    ensures var rt, a := Watched(p, c, i).rt, Consulted(p, c, i).pass;
            && a.rt.chamber == rt.chamber && a.rt.ptc == rt.ptc
            && a.rt.chamberStatus == rt.chamberStatus && a.rt.ptcStatus == rt.ptcStatus
            && a.st.coolReleaseC == p.settings.coolReleaseC
  {
    hide Sense, Jobbed, Watched, AfterJobs, DecideDemand, JudgeFaults, ConsultLatch, AfterEdges, ScheduleAllowed, JobOf;
    SenseFacts(p, c, i);
    JobbedIs(p, c, i);
    JobIs(p, c, i);
    JobsKeepSetup(ContextOf(p, c, i), EnvOf(p, c, i));
    EarlyFrame(p, c, i);
    DemandFrame(Watched(p, c, i), i);
    JudgeFacts(Decided(p, c, i), i);
    ConsultIsLatch(p, c, i);
    LatchKeepsTemperatures(Judged(p, c, i), Decided(p, c, i).sensorsOk, Decided(p, c, i).overtemp);
  }

  /** A pass may end a purge exactly when both sensors read cold and it is not in charge of a heating job. */
  lemma CoolIsExact(p: Plant, c: Ctl, i: TickIn)
    ensures var o := Tick(p, c, i);
            o.cool <==> BothBelow(Watched(p, c, i).rt, PurgeLimitC(p, c)) && (o.sawLatch || !Drives(p, c, i))
  {
    hide Tick, Watched, Decided, Judged, Consulted, Planned, Commit, Drive, Drives, ColdBelow, ReleaseC, Clamp,
         LatchMoves, Straining, AfterInhibit;
    ReleaseIsClamped(p.settings);
    TickUnfolds(p, c, i);
    TickMovesLatch(p, c, i);
    HeatedReachesPurge(p, c, i);
    ReadingsReachPurge(p, c, i);
    ControllerIsExact(p, c, i);
    ColdIsBothBelow(Consulted(p, c, i).pass.rt, PurgeLimitC(p, c));
  }

  /** A good sample with both averaged readings below the limit. */
  predicate ColdSample(p: Plant, c: Ctl, i: TickIn)
  {
    && GoodSample(c, i)
    && var s := i.sample.value;
    s.chamber.Deg? && s.chamber.c < PurgeLimitC(p, c) as real && s.ptc.Deg? && s.ptc.c < PurgeLimitC(p, c) as real
  }

  /**
   * A pass that ends with the latch set, or whose committed job is off, unbacked by the printer or over a hard limit.
   */
  predicate OutOfHeat(p: Plant, i: TickIn, q: Plant, seen: bool)
  {
    || q.latch.latched
    || !JobOn(q.settings) || !PrinterBacks(q.settings, p.printer, seen, i.NowMs())
    || !BelowHardLimits(SampleOf(i).chamberInstant, SampleOf(i).ptcInstant, p.board)
  }

  lemma BelowIsCold(p: Plant, c: Ctl, i: TickIn)
    ensures var rt := Watched(p, c, i).rt;
            && (BothBelow(rt, PurgeLimitC(p, c)) ==> ColdSample(p, c, i))
            && (ColdSample(p, c, i) && !Stuck(c.watch, SampleOf(i), i.acquiredUs) ==> BothBelow(rt, PurgeLimitC(p, c)))
            && (BothBelow(rt, PurgeLimitC(p, c)) && JobOf(p, c, i).s.workOn ==>
                  !Stuck(c.watch, SampleOf(i), i.acquiredUs))
  {
    hide Watched, GoodSample, Stuck, PurgeLimitC, JobOf;
    TrustedReadings(p, c, i);
    if GoodSample(c, i) {
      GoodIsReadable(c, i);
    }
  }

  lemma OutOfHeatIs(p: Plant, c: Ctl, i: TickIn)
    requires GoodSample(c, i) && !Tick(p, c, i).p.latch.latched
    ensures var o := Tick(p, c, i);
            && (OutOfHeat(p, i, o.p, o.c.autoSeen) ==> !Drives(p, c, i))
            && (!Drives(p, c, i) && !Stuck(c.watch, SampleOf(i), i.acquiredUs) ==>
                  OutOfHeat(p, i, o.p, o.c.autoSeen))
  {
    hide Tick, JobOf, GoodSample, Stuck, JobOn, PrinterBacks, BelowHardLimits, SetPointOf, PreFan;
    GoodIsReadable(c, i);
    CommittedTarget(p, c, i);
    CommittedJob(p, c, i);
  }

  lemma IdleIsOut(p: Plant, i: TickIn, q: Plant, seen: bool)
    requires !q.settings.workOn
    ensures OutOfHeat(p, i, q, seen)
  {
  }

  /**
   * Residual heat is forgotten only by a cold sample in a pass out of heat mode; and by every such pass, unless a
   * channel is stuck or a command slips in.
   */
  lemma CoolMeans(p: Plant, c: Ctl, i: TickIn)
    ensures var o := Tick(p, c, i);
            && (o.cool ==> ColdSample(p, c, i) && OutOfHeat(p, i, o.p, o.c.autoSeen))
            && (!i.raced && !Stuck(c.watch, SampleOf(i), i.acquiredUs) ==>
                  (ColdSample(p, c, i) && OutOfHeat(p, i, o.p, o.c.autoSeen) ==> o.cool))
  {
    hide Tick, Watched, JobOf, Drives, GoodSample, Stuck, OutOfHeat, BothBelow, PurgeLimitC, JobOn, LatchMoves,
         Consulted;
    CoolIsExact(p, c, i);
    BelowIsCold(p, c, i);
    TickMovesLatch(p, c, i);
    if !Tick(p, c, i).p.latch.latched {
      SawNothing(p, c, i);
      if GoodSample(c, i) {
        OutOfHeatIs(p, c, i);
        CommittedJob(p, c, i);
        if !Tick(p, c, i).p.settings.workOn {
          IdleIsOut(p, i, Tick(p, c, i).p, Tick(p, c, i).c.autoSeen);
        }
      }
    }
    LatchedIsOut(p, c, i);
  }

  lemma SawNothing(p: Plant, c: Ctl, i: TickIn)
    ensures var o := Tick(p, c, i);
            && (!o.p.latch.latched ==> !o.sawLatch && !o.inhibits) && (o.p.latch.latched && !i.raced ==> o.sawLatch)
  {
    hide Tick, Consulted, LatchMoves;
    TickMovesLatch(p, c, i);
  }

  lemma LatchedIsOut(p: Plant, c: Ctl, i: TickIn)
    ensures var o := Tick(p, c, i);
            o.p.latch.latched ==> OutOfHeat(p, i, o.p, o.c.autoSeen) && (!i.raced ==> o.sawLatch)
  {
    hide Tick, Consulted, LatchMoves, JobOn, PrinterBacks, BelowHardLimits;
    SawNothing(p, c, i);
  }

  /** A committed pass that ends a purge leaves both readings below the limit, and the SSR off. */
  lemma PurgeEndsCold(p: Plant, c: Ctl, i: TickIn)
    requires Tick(p, c, i).cool && !Tick(p, c, i).inhibits
    ensures var o := Tick(p, c, i); BothBelow(o.p.rt, PurgeLimitC(p, c)) && !o.p.ssr
  {
    hide Tick, Watched, Consulted, PlanOutputs, Commit, Drive, LimitTargets, DecideDemand, Drives, JobOf, PurgeLimitC,
         LatchMoves;
    var plan := Planned(p, c, i);
    TickUnfolds(p, c, i);
    CoolIsExact(p, c, i);
    ReadingsReachPurge(p, c, i);
    PlanFacts(Consulted(p, c, i), Decided(p, c, i).controller, i);
    CommitFacts(plan, i, p.epoch);
    var (q, committed) := Commit(plan, i, p.epoch);
    DriveFacts(q, plan, committed, i);
    if Tick(p, c, i).p.ssr {
      EnergisedPlan(p, c, i);
      PlannedHeat(p, c, i);
      ConsultedHeat(p, c, i);
      DecidedController(p, c, i);
      ControllerIsExact(p, c, i);
      TickMovesLatch(p, c, i);
    }
  }

  // ---------------------------------------------------------------- over whole runs

  lemma OthersKeepAirflow(s: Sys, e: Event)
    requires !e.ControlPass? && !e.PowerLoss?
    ensures var t := Step(s, e);
            && t.c == s.c && t.p.fan.requested == s.p.fan.requested && t.p.fan.initialized == s.p.fan.initialized
  {
    hide Step, AfterEdges;
    OthersKeepFan(s, e);
    EdgesKeepRequest(s.p.fan, EdgeOf(e));
  }

  lemma PassKeepsAirflow(s: Sys, i: TickIn)
    ensures var t := Step(s, ControlPass(i));
            && (t.c.heated && s.p.fan.initialized ==> t.p.fan.requested)
            && t.p.fan.initialized == s.p.fan.initialized
            && (s.c.heated ==> (t.c.heated <==> !t.note.cool)) && (t.p.ssr ==> t.c.heated)
            && (t.note.cool ==> FindsCold(s, ControlPass(i), t))
            && (FindsCold(s, ControlPass(i), t) && !i.raced && !Stuck(s.c.watch, SampleOf(i), i.acquiredUs)
                ==> t.note.cool)
            && (t.note.cool && !t.note.inhibits ==> BothBelow(t.p.rt, PurgeLimitC(s.p, s.c)) && !t.p.ssr)
  {
    hide Tick, Step, Seen, BothBelow, PurgeLimitC, ColdSample, OutOfHeat, Stuck;
    CoolMeans(s.p, s.c, i);
    PassIsTick(s, i);
    PassPurges(s.p, s.c, i);
    if Tick(s.p, s.c, i).p.ssr {
      HeatingPassHeats(s.p, s.c, i);
    }
    if Tick(s.p, s.c, i).cool && !Tick(s.p, s.c, i).inhibits {
      PurgeEndsCold(s.p, s.c, i);
    }
  }

  /** A pass from s to t out of heat mode, with a good sample of both sensors below the limit. */
  predicate FindsCold(s: Sys, e: Event, t: Sys)
  {
    e.ControlPass? && ColdSample(s.p, s.c, e.i) && OutOfHeat(s.p, e.i, t.p, t.c.autoSeen)
  }

  /** Heated stays heated, with airflow, until a pass finds both sensors cold or power is lost. */
  lemma {:induction false} AirflowLasts(ss: seq<Sys>, es: seq<Event>, j: nat, k: nat)
    requires Steps(ss, es) && j < k <= |es| && es[j].ControlPass? && ss[j + 1].c.heated
    requires ss[j + 1].p.fan.initialized
    requires forall m :: j < m < k ==> !es[m].PowerLoss? && !FindsCold(ss[m], es[m], ss[m + 1])
    ensures ss[k].c.heated && ss[k].p.fan.requested && ss[k].p.fan.initialized
    decreases k
  {
    hide Step, FindsCold;
    assert Next(ss, es, k - 1);
    if k == j + 1 {
      PassKeepsAirflow(ss[j], es[j].i);
    } else {
      AirflowLasts(ss, es, j, k - 1);
      assert !FindsCold(ss[k - 1], es[k - 1], ss[k]);
      if es[k - 1].ControlPass? {
        PassKeepsAirflow(ss[k - 1], es[k - 1].i);
      } else {
        OthersKeepAirflow(ss[k - 1], es[k - 1]);
      }
    }
  }

  /**
   * From any instant with the SSR on, airflow stays requested until a pass out of heat mode finds both sensors cold or
   * power is lost; no command, fault, clear or storage step can end it early.
   */
  lemma HeatIsPurged(ss: seq<Sys>, es: seq<Event>, j: nat, k: nat)
    requires Run(ss, es) && j <= k <= |es| && ss[j].p.ssr
    requires forall m :: j <= m < k ==> !es[m].PowerLoss? && !FindsCold(ss[m], es[m], ss[m + 1])
    ensures ss[k].c.heated && ss[k].p.fan.requested
  {
    hide PowerUp, Step, FindsCold;
    var i := EnergisedIsAdmitted(ss, es, j);
    assert Next(ss, es, i);
    assert ss[i + 1].p.ssr;
    PassKeepsAirflow(ss[i], es[i].i);
    forall m | i < m < k
      ensures !es[m].PowerLoss? && !FindsCold(ss[m], es[m], ss[m + 1])
    {
      if m < j {
        assert ss[m + 1].p.ssr;
        StillHeating(ss, es, m);
      }
    }
    AirflowLasts(ss, es, i, k);
  }

  /** An event that leaves the SSR on is neither a power loss nor a pass that ends the purge, unless it is a pass. */
  lemma StillHeating(ss: seq<Sys>, es: seq<Event>, m: nat)
    requires Steps(ss, es) && m < |es| && ss[m + 1].p.ssr && !es[m].ControlPass?
    ensures !es[m].PowerLoss? && !FindsCold(ss[m], es[m], ss[m + 1])
  {
    hide Step;
    assert Next(ss, es, m);
    if es[m].PowerLoss? {
      BootStaysDead(ss[m], es[m].b);
    }
  }

  /**
   * A purge ends on evidence: a pass forgets residual heat only on a good sample of both sensors below the limit, out
   * of heat mode; if it commits, both readings it leaves are valid, finite and below the limit, and the SSR is off.
   */
  lemma PurgeEndsOnEvidence(ss: seq<Sys>, es: seq<Event>, k: nat)
    requires Steps(ss, es) && k < |es| && es[k].ControlPass? && ss[k].c.heated && !ss[k + 1].c.heated
    ensures FindsCold(ss[k], es[k], ss[k + 1])
    ensures es[k].i.raced || (BothBelow(ss[k + 1].p.rt, PurgeLimitC(ss[k].p, ss[k].c)) && !ss[k + 1].p.ssr)
  {
    hide Step, Tick, FindsCold, BothBelow, PurgeLimitC;
    assert Next(ss, es, k);
    PassKeepsAirflow(ss[k], es[k].i);
    RacedInhibits(ss[k], es[k].i);
  }

  lemma RacedInhibits(s: Sys, i: TickIn)
    ensures Step(s, ControlPass(i)).note.inhibits <==> i.raced
  {
    hide Step, Tick, LatchMoves, Consulted;
    PassIsTick(s, i);
    TickMovesLatch(s.p, s.c, i);
  }

  /** And it does end: such a pass forgets residual heat, unless a channel is stuck or a command slips in. */
  lemma ColdPassEndsPurge(ss: seq<Sys>, es: seq<Event>, k: nat)
    requires Steps(ss, es) && k < |es| && ss[k].c.heated && FindsCold(ss[k], es[k], ss[k + 1])
    requires !es[k].i.raced && !Stuck(ss[k].c.watch, SampleOf(es[k].i), es[k].i.acquiredUs)
    ensures !ss[k + 1].c.heated
  {
    hide Step, ColdSample, OutOfHeat, Stuck, BothBelow, PurgeLimitC;
    assert Next(ss, es, k);
    PassKeepsAirflow(ss[k], es[k].i);
  }

  /** Every boot starts heated and purging: only evidence, never a reboot, ends the purge. */
  lemma BootStartsHeated(ss: seq<Sys>, es: seq<Event>, k: nat)
    requires Steps(ss, es) && k < |es| && es[k].PowerLoss?
    ensures ss[k + 1].c.heated && ss[k + 1].c.purge
  {
    hide BootLatch, LimitTargets, Sanitized;
    assert Next(ss, es, k);
  }

  lemma {:induction false} HeatedSinceBoot(ss: seq<Sys>, es: seq<Event>, j: nat, k: nat)
    requires Steps(ss, es) && j < k <= |es| && es[j].PowerLoss?
    requires forall m :: j < m < k ==> !es[m].PowerLoss? && !FindsCold(ss[m], es[m], ss[m + 1])
    ensures ss[k].c.heated && ss[k].p.fan.initialized == ss[j + 1].p.fan.initialized
    decreases k
  {
    hide Step, FindsCold;
    assert Next(ss, es, k - 1);
    if k == j + 1 {
      BootStartsHeated(ss, es, j);
    } else {
      HeatedSinceBoot(ss, es, j, k - 1);
      assert !FindsCold(ss[k - 1], es[k - 1], ss[k]);
      if es[k - 1].ControlPass? {
        PassKeepsAirflow(ss[k - 1], es[k - 1].i);
      } else {
        OthersKeepAirflow(ss[k - 1], es[k - 1]);
      }
    }
  }

  /**
   * A reboot does not end a purge: after a power loss at j, from any pass b of the new boot on, airflow stays
   * requested until a pass finds both sensors cold or power is lost again.
   */
  lemma BootIsPurged(ss: seq<Sys>, es: seq<Event>, j: nat, b: nat, k: nat)
    requires Steps(ss, es) && j < b < k <= |es| && es[j].PowerLoss? && es[b].ControlPass? && ss[j + 1].p.fan.initialized
    requires forall m :: j < m < k ==> !es[m].PowerLoss? && !FindsCold(ss[m], es[m], ss[m + 1])
    ensures ss[k].c.heated && ss[k].p.fan.requested
  {
    hide Step, Steps, FindsCold;
    StepsLength(ss, es);
    HeatedSinceBoot(ss, es, j, b + 1);
    AirflowLasts(ss, es, b, k);
  }
}
