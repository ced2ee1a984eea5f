/** What a hazard, a latch and a job mean for latch, airflow and owner at the end of a pass, in every run. */
module HazardGuarantees {
  import opened Common
  import opened PlantState
  import opened SafetyLatch
  import opened FanTriac
  import opened ControlLease
  import opened SensorWatch
  import opened Jobs
  import opened JobSession
  import opened ControlPlane
  import opened ControlTick
  import opened Conditions
  import opened HeatGuarantees
  import opened TickGuarantees
  import opened Firmware
  import opened FirmwareInvariants
  import opened FirmwareGuarantees
  import opened ZeroCrossGuarantees
  import HF = HeaterFaults

  // ---------------------------------------------------------------- overtemperature and bad sensors

  /** A channel that reports well reads at or above its hard limit. */
  predicate TooHot(s: Sample, b: Board)
  {
    || (s.chamberStatus.SensorOk? && Hotter(s.chamberInstant, b.chamberOffset, 85.0))
    || (s.ptcStatus.SensorOk? && Hotter(s.ptcInstant, b.ptcOffset, 105.0))
  }

  lemma OvertempIs(s: Sample, b: Board)
    ensures Overtemp(s, b) <==> TooHot(s, b)
  {
  }

  lemma OvertempIsHazard(a: Pass, i: TickIn)
    requires Overtemp(SampleOf(i), a.p.board)
    ensures JudgeFaults(DecideDemand(a, i), i).hazard
  {
    hide DriveJob, DemandInhibited, Overtemp, Refresh, AfterEdges, NextRise, UsableSensors, ActiveOrArmed;
    RefreshFacts(a, i);
    DemandParts(a, i);
    DemandFrame(a, i);
  }

  /** A pass that reads either channel at or above its hard limit ends latched with the SSR off, whatever the job. */
  lemma OvertempLatches(ss: seq<Sys>, es: seq<Event>, k: nat)
    requires Steps(ss, es) && k < |es| && es[k].ControlPass? && TooHot(SampleOf(es[k].i), ss[k].p.board)
    ensures ss[k + 1].p.latch.latched && !ss[k + 1].p.ssr
  {
    hide Step, Tick, TooHot, Overtemp, Watched, DecideDemand, JudgeFaults, SampleOf;
    assert Next(ss, es, k);
    var s, i := ss[k], es[k].i;
    PassIsTick(s, i);
    OvertempIs(SampleOf(i), s.p.board);
    EarlyFrame(s.p, s.c, i);
    OvertempIsHazard(Watched(s.p, s.c, i), i);
    HazardLatches(s.p, s.c, i);
    LatchedIsOff(s.p, s.c, i);
  }

  lemma LatchedIsOff(p: Plant, c: Ctl, i: TickIn)
    requires Tick(p, c, i).p.latch.latched
    ensures !Tick(p, c, i).p.ssr
  {
    hide Tick;
    if Tick(p, c, i).p.ssr {
      EnergisedPlan(p, c, i);
    }
  }

  /**
   * Work, the session flag or any job that is on, or the SSR's mirror: a sensor fault counts while one of them holds.
   */
  predicate Engaged(s: Settings, heaterOn: bool)
  {
    s.latchArmed || !NothingWorks(s.(schedule := s.schedule.(enabled := false))) || heaterOn
  }

  lemma EngagedIs(a: Pass)
    ensures ActiveOrArmed(a) <==> Engaged(a.st, a.rt.heaterOn)
  {
  }

  lemma UnusableIsHazard(a: Pass, i: TickIn)
    requires !UsableSensors(a.rt, SampleOf(i)) && Engaged(a.st, a.rt.heaterOn)
    ensures JudgeFaults(DecideDemand(a, i), i).hazard
  {
    hide DriveJob, DemandInhibited, Overtemp, Refresh, AfterEdges, NextRise, UsableSensors, Engaged, ActiveOrArmed,
         SampleOf;
    RefreshFacts(a, i);
    DemandParts(a, i);
    DemandFrame(a, i);
    FaultCarries(a, i);
    EngagedIs(DecideDemand(a, i).pass);
  }

  lemma FaultCarries(a: Pass, i: TickIn)
    requires !UsableSensors(a.rt, SampleOf(i))
    ensures var d := DecideDemand(a, i); d.pass.rt.fault == HF.SENSOR_FAULT || d.pass.rt.fault == HF.OVERTEMP
  {
    hide DriveJob, Overtemp, Refresh, UsableSensors;
    DemandParts(a, i);
  }

  /** Without a good sample no pass leaves the sensors usable. */
  lemma BadSampleIsUnusable(p: Plant, c: Ctl, i: TickIn)
    requires !GoodSample(c, i)
    ensures !UsableSensors(Watched(p, c, i).rt, SampleOf(i))
  {
    hide Watched, GoodSample, SampleOf;
    TrustedReadings(p, c, i);
    UsableIsValid(Watched(p, c, i).rt, SampleOf(i));
  }

  lemma BadSampleLatches(p: Plant, c: Ctl, i: TickIn)
    requires !GoodSample(c, i) && Engaged(JobOf(p, c, i).s, false)
    ensures Tick(p, c, i).p.latch.latched
  {
    hide Tick, Watched, DecideDemand, JudgeFaults, GoodSample, UsableSensors, Engaged, JobOf, SampleOf, Jobbed;
    BadSampleIsUnusable(p, c, i);
    JobbedIs(p, c, i);
    EarlyFrame(p, c, i);
    EngagedEitherWay(JobOf(p, c, i).s, Watched(p, c, i).rt.heaterOn);
    UnusableIsHazard(Watched(p, c, i), i);
    HazardLatches(p, c, i);
  }

  lemma EngagedEitherWay(s: Settings, heaterOn: bool)
    ensures Engaged(s, false) ==> Engaged(s, heaterOn)
  {
  }

  lemma ArmedIsEngaged(p: Plant, c: Ctl, i: TickIn)
    requires p.settings.latchArmed && !p.settings.schedule.enabled
    ensures Engaged(JobOf(p, c, i).s, false)
  {
    hide Sense, AfterJobs, ScheduleAllowed;
    SenseFacts(p, c, i);
    JobIs(p, c, i);
    JobsKeepSetup(ContextOf(p, c, i), EnvOf(p, c, i));
  }

  lemma WorkIsEngaged(p: Plant, c: Ctl, i: TickIn)
    requires !Tick(p, c, i).p.latch.latched && Tick(p, c, i).p.settings.workOn
    ensures Engaged(JobOf(p, c, i).s, false)
  {
    hide Tick, JobOf, SetPointOf, PrinterBacks, JobOn, PreFan;
    CommittedJob(p, c, i);
  }

  /**
   * A pass without a good sample ends latched or without work, and in any case without heat; and latched whenever it
   * finds the session flag set and no schedule pending, even if its own job steps end the work.
   */
  lemma BadSampleEndsWork(ss: seq<Sys>, es: seq<Event>, k: nat)
    requires Steps(ss, es) && k < |es| && es[k].ControlPass? && !GoodSample(ss[k].c, es[k].i)
    ensures ss[k + 1].p.latch.latched || !ss[k + 1].p.settings.workOn
    ensures !ss[k + 1].p.ssr
    ensures ss[k].p.settings.latchArmed && !ss[k].p.settings.schedule.enabled ==> ss[k + 1].p.latch.latched
  {
    hide Step, Tick, GoodSample, Engaged, JobOf, Heats;
    assert Next(ss, es, k);
    var s, i := ss[k], es[k].i;
    PassIsTick(s, i);
    PassHeatsIff(s.p, s.c, i);
    HeatNeedsSample(s.p, s.c, i);
    if s.p.settings.latchArmed && !s.p.settings.schedule.enabled {
      ArmedIsEngaged(s.p, s.c, i);
      BadSampleLatches(s.p, s.c, i);
    } else if !Tick(s.p, s.c, i).p.latch.latched && Tick(s.p, s.c, i).p.settings.workOn {
      WorkIsEngaged(s.p, s.c, i);
      BadSampleLatches(s.p, s.c, i);
    }
  }

  lemma HeatNeedsSample(p: Plant, c: Ctl, i: TickIn)
    ensures Heats(p, c, i) ==> GoodSample(c, i)
  {
    hide GoodSample, JobOf, Stuck, BelowHardLimits, FoldbackClear, JobAsks, DeviceAllows, NothingTrips, OutputsAllow;
  }

  // ---------------------------------------------------------------- airflow

  /**
   * Something asks for airflow: a latch, residual heat, a heating job in charge, or a dry-out or health test running.
   */
  predicate NeedsAir(p: Plant, c: Ctl, i: TickIn, purging: bool, latched: bool)
  {
    var st := JobOf(p, c, i).s;
    || latched || purging || Drives(p, c, i)
    || (st.mode.DryOut? && st.dryout.running) || (st.mode.HealthTest? && st.health.running)
  }

  lemma SteerBlows(b: Pass, i: TickIn, sensorsOk: bool, hot: bool)
    requires sensorsOk ==> b.rt.chamberInstant.Deg?
    ensures Steer(b, i, sensorsOk, hot).2 == Steer(b, i, sensorsOk, hot).3
  {
    hide DemandInhibited, AutoAllowed;
  }

  lemma TrimBlows(d: Pass, heat: bool, fan: bool, controller: bool)
    ensures var (e, _, fan') := Trim(d, heat, fan, controller);
            && e.st == d.st
            && (fan' <==> || fan || (d.st.mode.DryOut? && d.st.dryout.running)
                          || (d.st.mode.HealthTest? && d.st.health.running))
  {
  }

  lemma DemandBlows(a: Pass, i: TickIn)
    ensures var d := DecideDemand(a, i);
            d.fan <==> || d.controller || (a.st.mode.DryOut? && a.st.dryout.running)
                       || (a.st.mode.HealthTest? && a.st.health.running)
  {
    hide Steer, Refresh, Overtemp, UsableSensors, Trim;
    var b := Refresh(a, i);
    var ok, hot := UsableSensors(a.rt, SampleOf(i)), Overtemp(SampleOf(i), a.p.board);
    var (d, heat, fan, controller) := Steer(b, i, ok, hot);
    RefreshFacts(a, i);
    UsableIsFinite(a.rt, SampleOf(i));
    SteerBlows(b, i, ok, hot);
    SteerFrame(b, i, ok, hot);
    TrimBlows(d, heat, fan, controller);
  }

  lemma UsableIsFinite(rt: Runtime, s: Sample)
    ensures UsableSensors(rt, s) ==> rt.chamberInstant.Deg?
  {
  }

  /** A fault that asks for airflow is a hazard, and so ends in the latch. */
  lemma FaultsBlow(d: Demand, i: TickIn)
    ensures var f := JudgeFaults(d, i); (d.fan ==> f.fan) && (f.fan ==> d.fan || f.hazard)
  {
    hide AfterEdges, NextRise, ActiveOrArmed, StatsAt, ZcSession;
  }

  lemma PlanAirs(l: LatchStage, controller: bool, i: TickIn)
    ensures var o := PlanOutputs(l, controller, i);
            o.fan <==> l.fan || o.purge || (controller && !l.pass.p.latch.latched) || l.pass.p.latch.latched ||
                       l.pass.p.latch.inhibited
  {
    hide AfterEdges, NextPurge, Gate, ReleaseOwned, HeatAdmitted;
    ReleaseFrame(OpenGate(Interrupted(Purge(l.pass, HeatMode(l, controller)), i.statsEdges), i.statsUs).p);
  }

  lemma FanIsAsked(p: Plant, c: Ctl, i: TickIn)
    requires p.latch.inhibited ==> p.latch.latched
    ensures var o, plan := Tick(p, c, i), Planned(p, c, i);
            plan.fan || o.inhibits <==> NeedsAir(p, c, i, o.c.purge, o.p.latch.latched)
  {
    hide Tick, Watched, DecideDemand, JudgeFaults, ConsultLatch, Consulted, PlanOutputs, JobOf, Drives, LatchMoves,
         Jobbed, AfterEdges;
    var l, f, d := Consulted(p, c, i), Judged(p, c, i), Decided(p, c, i);
    TickUnfolds(p, c, i);
    TickMovesLatch(p, c, i);
    ControllerIsExact(p, c, i);
    JobbedIs(p, c, i);
    EarlyFrame(p, c, i);
    FrontFrame(p, c, i);
    DemandBlows(Watched(p, c, i), i);
    FaultsBlow(d, i);
    ConsultBlows(f, d.sensorsOk, d.overtemp);
    ConsultIsLatch(p, c, i);
    PlanAirs(l, d.controller, i);
    MovesAre(p.latch, l.pass.p.latch, Tick(p, c, i).tripped, Tick(p, c, i).armed);
  }

  lemma MovesAre(l: Latch, q: Latch, tripped: bool, armed: bool)
    requires LatchMoves(l, q, tripped, armed)
    ensures q.inhibited == l.inhibited && q.latched == (l.latched || tripped)
  {
  }

  lemma ConsultBlows(f: FaultStage, sensorsOk: bool, hot: bool)
    ensures var l := ConsultLatch(f, sensorsOk, hot);
            && (l.fan <==> f.fan || l.sawLatch) && (f.hazard ==> l.sawLatch) && l.sawLatch == l.pass.p.latch.latched
  {
    hide Stopped, ReleaseOwned, AfterTrip, TakeClear, Hold;
    LatchFacts(f, sensorsOk, hot);
  }

  /**
   * Airflow after a pass, exactly: it is asked for if the device ends latched or purging, is in charge of a heating
   * job, or runs a dry-out or a health test; and not otherwise.
   */
  lemma AirflowIff(ss: seq<Sys>, es: seq<Event>, k: nat)
    requires Run(ss, es) && k < |es| && es[k].ControlPass? && ss[k].p.fan.initialized
    ensures ss[k + 1].p.fan.requested
            <==> NeedsAir(ss[k].p, ss[k].c, es[k].i, ss[k + 1].c.purge, ss[k + 1].p.latch.latched)
  {
    hide PowerUp, Step, Tick, NeedsAir, AfterEdges, Planned, Safe;
    assert Next(ss, es, k);
    var s, i := ss[k], es[k].i;
    PassIsTick(s, i);
    InvariantsHold(ss, es, k);
    FanIsAsked(s.p, s.c, i);
    FanTrace(s.p, s.c, i);
    EdgesKeepRequest(s.p.fan, i.admitEdges);
    EdgesKeepRequest(AfterEdges(s.p.fan, i.admitEdges), i.zcEdges);
    EdgesKeepRequest(FanAtRead(s.p, i), i.statsEdges);
    EdgesKeepRequest(AfterEdges(FanAtRead(s.p, i), i.statsEdges), i.setEdges);
  }

  // ---------------------------------------------------------------- what arms a clear

  /** A latch in force that may be cleared and was asked to be; no work; cold sensors; and the lost signal is back. */
  predicate MayArm(p: Plant, c: Ctl, i: TickIn)
  {
    && p.latch.latched && !p.latch.inhibited && p.latch.clearRequested && !JobOf(p, c, i).s.workOn
    && GoodSample(c, i) && !StuckIdle(c.watch, i.sample.value)
    && BelowHardLimits(i.sample.value.chamberInstant, i.sample.value.ptcInstant, p.board)
    && (p.latch.fault == HF.ZERO_CROSS_LOST ==> SignalLive(FanAtRead(p, i), i.zcUs))
  }

  lemma ArmsIs(f: FaultStage, sensorsOk: bool, hot: bool)
    ensures var l := f.pass.p.latch;
            ConsultLatch(f, sensorsOk, hot).armed
            <==> && l.latched && !l.inhibited && l.clearRequested && !f.pass.st.workOn && sensorsOk && !hot
                 && (l.fault == HF.ZERO_CROSS_LOST ==> f.present)
  {
    hide Stopped, ReleaseOwned;
  }

  /** A pass arms a clear exactly then. */
  lemma ArmIff(p: Plant, c: Ctl, i: TickIn)
    ensures Tick(p, c, i).armed <==> MayArm(p, c, i)
  {
    hide Tick, Watched, DecideDemand, JudgeFaults, ConsultLatch, JobOf, GoodSample, StuckIdle, BelowHardLimits,
         SignalLive, EdgeFresh, AfterEdges, UsableSensors, Overtemp, Jobbed;
    var d, f := Decided(p, c, i), Judged(p, c, i);
    TickUnfolds(p, c, i);
    ConsultIsLatch(p, c, i);
    ArmsIs(f, d.sensorsOk, d.overtemp);
    JobbedIs(p, c, i);
    EarlyFrame(p, c, i);
    FrontFrame(p, c, i);
    DemandParts(Watched(p, c, i), i);
    DemandFrame(Watched(p, c, i), i);
    JudgeFacts(d, i);
    RunningIsExact(FanAtRead(p, i), i.zcUs);
    if !JobOf(p, c, i).s.workOn {
      IdleReadings(p, c, i);
      if GoodSample(c, i) {
        GoodIsReadable(c, i);
        LimitsAreExact(SampleOf(i), p.board);
      }
    }
  }

  // ---------------------------------------------------------------- the owner after a pass

  /** The remote lease has run out. */
  predicate RanOut(l: Lease, nowUs: int)
  {
    l.ready && (l.owner.Rest? || l.owner.Ble?) && l.id.Some? && nowUs > l.deadlineUs
  }

  lemma HandOverIs(p: Plant, nowUs: int)
    ensures var h := HandOverLease(p, p.settings, nowUs).0.lease;
            && (!RanOut(p.lease, nowUs) ==> h == p.lease)
            && (RanOut(p.lease, nowUs) ==>
                  && h.ready && h.id.None?
                  && h.owner == if p.settings.workOn || p.settings.schedule.enabled then LocalJob else NoSource)
  {
    hide NextRevision, Stopped, AfterInhibit;
  }

  lemma DropIs(p: Plant)
    ensures var l := ReleaseOwned(p).lease;
            && (p.lease.ready ==> l.owner.NoSource?) && (!p.lease.ready ==> l == p.lease) && l.ready == p.lease.ready
  {
    hide NextRevision;
  }

  lemma ConsultedLease(f: FaultStage, sensorsOk: bool, hot: bool)
    ensures var l := ConsultLatch(f, sensorsOk, hot);
            var e := f.pass.p.lease;
            && l.pass.p.lease.ready == e.ready && (!l.sawLatch ==> l.pass.p.lease == e)
            && (l.sawLatch && e.ready ==> l.pass.p.lease.owner.NoSource?)
  {
    hide Stopped, ReleaseOwned, AfterDeferTrip, AfterDeferClear, AfterTakeClear;
    var b := AfterTrip(f);
    var d := TakeClear(b, Arms(b, f.present, sensorsOk, hot));
    DropIs(d.p);
  }

  lemma PlannedLease(l: LatchStage, controller: bool, i: TickIn)
    ensures var o := PlanOutputs(l, controller, i);
            var e := l.pass.p.lease;
            && o.p.lease.ready == e.ready
            && (if l.pass.st.workOn || l.pass.st.schedule.enabled then o.p.lease == e
                else e.ready ==> o.p.lease.owner.NoSource?)
  {
    hide AfterEdges, Purge, OpenGate, HeatAdmitted, ReleaseOwned, HeatMode;
    var heatMode := HeatMode(l, controller);
    var b := Interrupted(Purge(l.pass, heatMode), i.statsEdges);
    PurgeFrame(l.pass, heatMode);
    OpenGateFrame(b, i.statsUs);
    DropIs(OpenGate(b, i.statsUs).p);
  }

  lemma FrontLease(p: Plant, c: Ctl, i: TickIn)
    ensures Judged(p, c, i).pass.p.lease == HandOverLease(p, p.settings, i.nowUs).0.lease
  {
    hide Sense, AfterJobs, WatchSensors, DecideDemand, JudgeFaults, HandOverLease, ScheduleAllowed, EffectiveTarget,
         ReadSensors, AfterEdges;
    SenseParts(p, c, i);
    CutKeepsLease(HandOverLease(p, p.settings, i.nowUs).0);
    WatchKeepsLease(Jobbed(p, c, i), i, SampleAccepted(c.watch, i));
    DemandFrame(Watched(p, c, i), i);
    JudgeFacts(Decided(p, c, i), i);
  }

  lemma CutKeepsLease(p: Plant)
    ensures AfterCut(p).lease == p.lease
  {
  }

  lemma WatchKeepsLease(a: Pass, i: TickIn, accepted: bool)
    ensures WatchSensors(a, i, accepted).0.p.lease == a.p.lease
  {
    hide AfterStep, AfterOff, JobHeats;
  }

  lemma TailLease(p: Plant, c: Ctl, i: TickIn)
    ensures Tick(p, c, i).p.lease == Planned(p, c, i).p.lease
  {
    hide Tick, Consulted, PlanOutputs, Commit, Drive, Planned, LimitTargets;
    TickUnfolds(p, c, i);
    CommitFacts(Planned(p, c, i), i, p.epoch);
    var (q, committed) := Commit(Planned(p, c, i), i, p.epoch);
    DriveFacts(q, Planned(p, c, i), committed, i);
  }

  /** The lease l leads to m in a pass that ends latched or not, with work or a schedule before and after it or not. */
  predicate OwnerSettled(l: Lease, m: Lease, nowUs: int, latched: bool, before: bool, after: bool)
  {
    && m.ready
    && (if latched || !after then m.owner.NoSource?
        else if RanOut(l, nowUs) then m.owner == if before then LocalJob else NoSource
        else m == l)
  }

  predicate Wanted(s: Settings) { s.workOn || s.schedule.enabled }

  lemma TickSettlesOwner(p: Plant, c: Ctl, i: TickIn)
    requires p.lease.ready && !i.raced
    ensures var q := Tick(p, c, i).p;
            OwnerSettled(p.lease, q.lease, i.nowUs, q.latch.latched, Wanted(p.settings), Wanted(q.settings))
  {
    hide Tick, Jobbed, Watched, Judged, Decided, Consulted, ConsultLatch, PlanOutputs, HandOverLease, LatchMoves,
         RanOut, Stopped, AfterInhibit;
    var f, d := Judged(p, c, i), Decided(p, c, i);
    TickMovesLatch(p, c, i);
    CommittedWork(p, c, i);
    HandOverIs(p, i.nowUs);
    HandOverReady(p, i.nowUs);
    FrontLease(p, c, i);
    ConsultIsLatch(p, c, i);
    ConsultBlows(f, d.sensorsOk, d.overtemp);
    ConsultedLease(f, d.sensorsOk, d.overtemp);
    PlannedLease(Consulted(p, c, i), d.controller, i);
    PlanIs(p, c, i);
    TailLease(p, c, i);
  }

  lemma PlanIs(p: Plant, c: Ctl, i: TickIn)
    ensures Planned(p, c, i) == PlanOutputs(Consulted(p, c, i), Decided(p, c, i).controller, i)
  {
    hide PlanOutputs, Consulted, Decided;
  }

  /**
   * The owner after a pass: nobody if the device ends latched, or with neither work nor schedule; the local job if a
   * remote lease had run out; else whoever it was, with the same lease.
   */
  lemma PassSettlesOwner(ss: seq<Sys>, es: seq<Event>, k: nat)
    requires Steps(ss, es) && k < |es| && es[k].ControlPass? && ss[k].p.lease.ready && !es[k].i.raced
    ensures var s, t := ss[k].p, ss[k + 1].p;
            OwnerSettled(s.lease, t.lease, es[k].i.nowUs, t.latch.latched, Wanted(s.settings), Wanted(t.settings))
  {
    hide Step, Tick, OwnerSettled;
    assert Next(ss, es, k);
    PassIsTick(ss[k], es[k].i);
    TickSettlesOwner(ss[k].p, ss[k].c, es[k].i);
  }

  lemma HandOverReady(p: Plant, nowUs: int)
    ensures p.lease.ready ==> HandOverLease(p, p.settings, nowUs).0.lease.ready
  {
    hide NextRevision, Stopped, AfterInhibit;
  }

  /** Work and schedule as the plan has them are committed. */
  lemma CommittedWork(p: Plant, c: Ctl, i: TickIn)
    requires !i.raced
    ensures var o, st := Tick(p, c, i), Consulted(p, c, i).pass.st;
            o.p.settings.workOn == st.workOn && o.p.settings.schedule.enabled == st.schedule.enabled
    ensures var st := Consulted(p, c, i).pass.st;
            Tick(p, c, i).sawLatch ==> !st.workOn && !st.schedule.enabled
  {
    hide Tick, Consulted, PlanOutputs, Commit, Drive, LimitTargets, LatchMoves, Judged, Stopped;
    TickUnfolds(p, c, i);
    TickMovesLatch(p, c, i);
    ConsultedJob(p, c, i);
    StoppedIsQuiet(Judged(p, c, i).pass.st);
    PlanFacts(Consulted(p, c, i), Decided(p, c, i).controller, i);
    CommitFacts(Planned(p, c, i), i, p.epoch);
    var (q, committed) := Commit(Planned(p, c, i), i, p.epoch);
    DriveFacts(q, Planned(p, c, i), committed, i);
    LimitKeepsSchedule(Planned(p, c, i).st);
  }

  lemma LimitKeepsSchedule(s: Settings)
    ensures LimitTargets(s).workOn == s.workOn && LimitTargets(s).schedule.enabled == s.schedule.enabled
  {
  }
}
