/** Exactly when a control pass trips the fault latch, and which reason it gives. */
module TripGuarantees {
  import opened Common
  import opened PlantState
  import opened SafetyLatch
  import opened FanTriac
  import opened ControlLease
  import opened SensorWatch
  import opened Jobs
  import opened JobSession
  import opened ControlPlane
  import opened ControlTick
  import opened TickGuarantees
  import opened Conditions
  import opened HeatGuarantees
  import opened Firmware
  import opened FirmwareGuarantees
  import opened ZeroCrossGuarantees
  import opened HazardGuarantees
  import HF = HeaterFaults

  // ---------------------------------------------------------------- the four hazards

  /** No good sample, or one of a channel that is stuck; without work only an earlier verdict counts. */
  predicate Unusable(p: Plant, c: Ctl, i: TickIn)
  {
    || !GoodSample(c, i)
    || (if JobOf(p, c, i).s.workOn then Stuck(c.watch, i.sample.value, i.acquiredUs)
        else StuckIdle(c.watch, i.sample.value))
  }

  /** A session that has seen zero cross finds the signal gone, or an interval too long since the last pass. */
  predicate SignalLost(p: Plant, c: Ctl, i: TickIn)
  {
    var job, f := JobOf(p, c, i).s, FanAtRead(p, i);
    && (job.latchArmed || (job.workOn && SetPointOf(job) > 0)) && c.zcSeen
    && (!SignalLive(f, i.zcUs) || f.gaps != c.zcGaps)
  }

  /** The pass drives the heater: everything allows it, and the job wants heat. */
  predicate DrivesHeater(p: Plant, c: Ctl, i: TickIn)
  {
    var job := JobOf(p, c, i);
    && SensorsAllow(p, c, i, job.s.ptcCutoffC) && DeviceAllows(p, c, i, job.s.latchEnabled)
    && JobOn(job.s) && PrinterBacks(job.s, p.printer, job.seen, i.NowMs())
    && WantsHeat(c.demand, SampleOf(i).chamberInstant, SetPointOf(job.s))
  }

  /** It drives the heater of a chamber more than 2 C too cold, and the open window shows no rise. */
  predicate StaysCold(p: Plant, c: Ctl, i: TickIn)
  {
    && DrivesHeater(p, c, i) && NoRise(p.rt.rise, SampleOf(i), i.NowMs())
    && SampleOf(i).chamberInstant.Below(SetPointOf(JobOf(p, c, i).s) as real - 2.0)
  }

  /** What trips a pass. */
  predicate Hazard(p: Plant, c: Ctl, i: TickIn)
  {
    || TooHot(SampleOf(i), p.board)
    || (Unusable(p, c, i) && Engaged(JobOf(p, c, i).s, p.rt.heaterOn))
    || SignalLost(p, c, i) || StaysCold(p, c, i)
  }

  /** The reason, gravest first. */
  function Reason(p: Plant, c: Ctl, i: TickIn): int
  {
    if TooHot(SampleOf(i), p.board) then 2
    else if Unusable(p, c, i) then 1
    else if SignalLost(p, c, i) then 18
    else 3
  }

  // ---------------------------------------------------------------- the heater's duty

  lemma SteeredDuty(b: Pass, i: TickIn, sensorsOk: bool, hot: bool)
    requires !b.rt.duty
    ensures var (d, heat, _, _) := Steer(b, i, sensorsOk, hot); d.rt.duty == heat
  {
    hide DemandInhibited, AutoAllowed, JobHeats, NextDemand;
  }

  lemma DutyIsSteered(a: Pass, i: TickIn)
    ensures var d := DecideDemand(a, i);
            d.pass.rt.duty == Steer(Refresh(a, i), i, d.sensorsOk, d.overtemp).1
  {
    hide Steer, Refresh, Overtemp, UsableSensors;
    RefreshFacts(a, i);
    SteeredDuty(Refresh(a, i), i, UsableSensors(a.rt, SampleOf(i)), Overtemp(SampleOf(i), a.p.board));
  }

  lemma DutyDecision(a: Pass, i: TickIn)
    ensures DecideDemand(a, i).pass.rt.duty <==>
              && UsableSensors(a.rt, SampleOf(i)) && !Overtemp(SampleOf(i), a.p.board)
              && !NextFoldback(a.c.foldback, SampleOf(i), a.p.board, a.st.ptcCutoffC)
              && JobHeats(a.st, a.rt.targetC) && AutoAllowed(a.st, a.p.printer, a.c.autoSeen, i.NowMs())
              && WantsHeat(a.c.demand, a.rt.chamberInstant, a.rt.targetC) && Uninhibited(a, i)
  {
    hide DecideDemand, Refresh, Steer, DriveJob, Overtemp, UsableSensors, NextFoldback, AutoAllowed, WantsHeat,
         Uninhibited, DemandInhibited, NextCooling, SampleOf, AfterEdges;
    var d := DecideDemand(a, i);
    var b := Refresh(a, i);
    DutyIsSteered(a, i);
    DemandParts(a, i);
    RefreshFacts(a, i);
    RefreshCools(a, i);
    SteerIsExact(b, i, d.sensorsOk, d.overtemp);
    InhibitedIs(a, i);
    if a.rt.targetC > 0 {
      DriveIsExact(b, i, a.rt.cooling);
    }
  }

  lemma DutyIsExact(p: Plant, c: Ctl, i: TickIn)
    ensures Decided(p, c, i).pass.rt.duty <==> DrivesHeater(p, c, i)
  {
    hide Sense, Jobbed, Watched, JobOf, DecideDemand, GoodSample, Stuck, SampleAccepted, Readable, SensorsOk, Overtemp,
         BelowHardLimits, NextFoldback, FoldbackClear, AutoAllowed, PrinterBacks, WantsHeat, Running, GateLive,
         SetPointOf, AfterEdges, UsableSensors;
    var a, job := Watched(p, c, i), JobOf(p, c, i);
    var s := SampleOf(i);
    JobbedIs(p, c, i);
    EarlyFrame(p, c, i);
    EarlyGate(p, c, i);
    DutyDecision(a, i);
    PermissionIsExact(job.s, p.printer, job.seen, i.NowMs());
    RunningIsExact(AfterEdges(p.fan, i.admitEdges), i.admitUs);
    SampleIsGood(c, i);
    UsableIs(a.rt, s);
    if job.s.workOn {
      WatchIsExact(p, c, i);
      if GoodSample(c, i) {
        GoodIsReadable(c, i);
        LimitsAreExact(s, p.board);
        FoldbackIsExact(c.foldback, s, p.board, job.s.ptcCutoffC);
      }
    }
  }

  // ---------------------------------------------------------------- the fault a pass decides on

  /** A job that ends reports its end, and never one of the faults below. */
  lemma JobsReportEnds(c: AutoContext, e: TickEnv)
    ensures AfterJobs(c, e).fault in {HF.OK, 6, 8, 9, 10, 11, 12}
  {
    hide AfterUnpaused, AfterSessionWatchdog, AfterDrying;
  }

  lemma SteeredFault(b: Pass, i: TickIn, sensorsOk: bool, hot: bool)
    ensures var f := Steer(b, i, sensorsOk, hot).0.rt.fault;
            if hot then f == HF.OVERTEMP else if !sensorsOk then f == HF.SENSOR_FAULT
            else f == b.rt.fault || f == HF.PRINTER_NOT_READY
  {
    hide DemandInhibited, AutoAllowed, JobHeats, NextDemand;
  }

  lemma DecidedFault(a: Pass, i: TickIn)
    requires a.rt.fault in {HF.OK, 6, 8, 9, 10, 11, 12}
    ensures var d := DecideDemand(a, i);
            && d.sensorsOk == UsableSensors(a.rt, SampleOf(i)) && d.overtemp == Overtemp(SampleOf(i), a.p.board)
            && if d.overtemp then d.pass.rt.fault == HF.OVERTEMP
               else if !d.sensorsOk then d.pass.rt.fault == HF.SENSOR_FAULT
               else d.pass.rt.fault in {HF.OK, 6, 7, 8, 9, 10, 11, 12}
  {
    hide Steer, Refresh, Overtemp, UsableSensors;
    DemandParts(a, i);
    RefreshFacts(a, i);
    SteeredFault(Refresh(a, i), i, UsableSensors(a.rt, SampleOf(i)), Overtemp(SampleOf(i), a.p.board));
  }

  /** How the judgement turns that fault, the signal and the rise window into a hazard. */
  lemma JudgementIs(d: Demand, i: TickIn)
    requires d.pass.rt.fault in {HF.OK, 1, 2, 6, 7, 8, 9, 10, 11, 12}
    ensures var f, fan, fault := JudgeFaults(d, i), AfterEdges(d.pass.p.fan, i.zcEdges), d.pass.rt.fault;
            var lost := && ZcSession(d.pass.st, d.pass.rt.targetC) && d.pass.c.zcSeen
                        && (!EdgeFresh(fan.lastEdgeUs, i.zcUs) || fan.gaps != d.pass.c.zcGaps);
            var flat := && Straining(d.pass.rt, d.controller) && fault == HF.OK && !lost
                        && NextRise(d.pass.rt.rise, d.pass.rt, i.NowMs()).1;
            && (f.hazard <==>
                  fault == HF.OVERTEMP || lost || (fault == HF.SENSOR_FAULT && ActiveOrArmed(d.pass)) || flat)
            && (f.hazard ==> f.pass.rt.fault == if fault in {1, 2} then fault else if lost then 18 else 3)
  {
    hide AfterEdges, NextRise, ActiveOrArmed, ZcSession, EdgeFresh;
  }

  // ---------------------------------------------------------------- put together

  lemma UnusableIs(p: Plant, c: Ctl, i: TickIn)
    ensures UsableSensors(Watched(p, c, i).rt, SampleOf(i)) <==> !Unusable(p, c, i)
  {
    hide Watched, JobOf, GoodSample, Stuck, StuckIdle, UsableSensors, SensorsOk, ReadingsOf, Jobbed;
    if JobOf(p, c, i).s.workOn {
      WatchIsExact(p, c, i);
      UsableIs(Watched(p, c, i).rt, SampleOf(i));
      SampleIsThere(c, i);
    } else {
      IdleReadings(p, c, i);
      SampleIsThere(c, i);
    }
  }

  lemma SampleIsThere(c: Ctl, i: TickIn)
    ensures GoodSample(c, i) ==> i.sample.Some? && SampleOf(i) == i.sample.value
  {
  }

  lemma SessionIsLost(p: Plant, c: Ctl, i: TickIn)
    ensures var f, job := FanAtRead(p, i), JobOf(p, c, i).s;
            SignalLost(p, c, i) <==>
              && ZcSession(job, SetPointOf(job)) && c.zcSeen
              && (!EdgeFresh(f.lastEdgeUs, i.zcUs) || f.gaps != c.zcGaps)
  {
    hide JobOf, SetPointOf;
    RunningIsExact(FanAtRead(p, i), i.zcUs);
  }

  lemma WatchedFault(p: Plant, c: Ctl, i: TickIn)
    ensures Watched(p, c, i).rt.fault in {HF.OK, 6, 8, 9, 10, 11, 12}
    ensures Watched(p, c, i).rt.heaterOn == p.rt.heaterOn
  {
    hide Sense, AfterJobs, WatchSensors, ScheduleAllowed, EffectiveTarget, ReadSensors, SampleAccepted;
    WatchFacts(Jobbed(p, c, i), i, SampleAccepted(c.watch, i));
    JobsReportEnds(ContextOf(p, c, i), EnvOf(p, c, i));
    SenseParts(p, c, i);
    SensingKeepsMirror(p.rt, i, SampleAccepted(c.watch, i));
  }

  lemma SensingKeepsMirror(rt: Runtime, i: TickIn, accepted: bool)
    ensures ReadSensors(rt, i, accepted).heaterOn == rt.heaterOn
  {
  }

  lemma ColdIsFlat(p: Plant, c: Ctl, i: TickIn)
    ensures var d := Decided(p, c, i);
            && (StaysCold(p, c, i) <==>
                  && Straining(d.pass.rt, d.controller) && d.pass.rt.fault == HF.OK
                  && NextRise(d.pass.rt.rise, d.pass.rt, i.NowMs()).1)
            && (StaysCold(p, c, i) ==> d.pass.rt.fault == HF.OK)
  {
    hide Jobbed, Watched, DecideDemand, JobOf, SetPointOf, DrivesHeater, NoRise, NextRise, SampleOf, Driven;
    var d := Decided(p, c, i);
    DutyIsExact(p, c, i);
    JobbedIs(p, c, i);
    EarlyGate(p, c, i);
    DemandFrame(Watched(p, c, i), i);
    if d.pass.rt.duty {
      DutyIsDriven(p, c, i);
      DrivenIs(d, SampleOf(i), p.rt.rise);
      NextRiseIsExact(p.rt.rise, d.pass.rt, SampleOf(i), i.NowMs());
      DrivenReads(p, c, i);
    }
  }

  lemma DrivenIs(d: Demand, s: Sample, r: Rise)
    requires Driven(d, s, r)
    ensures d.controller && d.pass.rt.fault == HF.OK && d.pass.rt.rise == r
    ensures d.pass.rt.ptc == s.ptc && d.pass.rt.chamber == s.chamber
  {
  }

  /** What drives the heater was decided on the instantaneous chamber reading of the sample. */
  lemma DrivenReads(p: Plant, c: Ctl, i: TickIn)
    requires Decided(p, c, i).pass.rt.duty
    ensures Watched(p, c, i).rt.chamberInstant == SampleOf(i).chamberInstant
  {
    hide Watched, DecideDemand, JobOf, UsableSensors, JobHeats, SampleOf, SensorsOk, Stuck, GoodSample, Jobbed;
    DutyDrives(Watched(p, c, i), i);
    EarlyFrame(p, c, i);
    JobbedIs(p, c, i);
    HeatingJobWorks(Watched(p, c, i).st, Watched(p, c, i).rt.targetC);
    WatchIsExact(p, c, i);
    UsableIs(Watched(p, c, i).rt, SampleOf(i));
  }

  lemma HazardIs(p: Plant, c: Ctl, i: TickIn)
    ensures var f := Judged(p, c, i);
            (f.hazard <==> Hazard(p, c, i)) && (f.hazard ==> f.pass.rt.fault == Reason(p, c, i))
  {
    hide Jobbed, Watched, DecideDemand, JudgeFaults, JobOf, SetPointOf, SignalLost, StaysCold, Unusable, TooHot,
         Overtemp, UsableSensors, Engaged, ActiveOrArmed, NextRise, AfterEdges, SampleOf, Straining, ZcSession,
         EdgeFresh;
    var a, d := Watched(p, c, i), Decided(p, c, i);
    JobbedIs(p, c, i);
    EarlyGate(p, c, i);
    EarlyFrame(p, c, i);
    WatchedFault(p, c, i);
    DecidedFault(a, i);
    DemandFrame(a, i);
    JudgementIs(d, i);
    OvertempIs(SampleOf(i), p.board);
    UnusableIs(p, c, i);
    SessionIsLost(p, c, i);
    ColdIsFlat(p, c, i);
    EngagedIs(d.pass);
  }

  // ---------------------------------------------------------------- the whole pass

  lemma HeldReports(f: FaultStage, sensorsOk: bool, hot: bool)
    ensures var l := ConsultLatch(f, sensorsOk, hot);
            l.sawLatch ==> l.pass.rt.fault == l.pass.p.latch.fault
  {
    hide Stopped, AfterRelease, SnapshotOf, AfterTrip, TakeClear;
  }

  lemma ReasonIs(p: Plant, c: Ctl, i: TickIn)
    ensures Reason(p, c, i) in {1, 2, 3, 18}
  {
    hide TooHot, Unusable, SignalLost;
  }

  lemma LatchTrips(f: FaultStage, sensorsOk: bool, hot: bool)
    requires !f.pass.p.latch.latched && (f.hazard ==> f.pass.rt.fault in {1, 2, 3, 18})
    ensures var q := ConsultLatch(f, sensorsOk, hot).pass.p.latch;
            && (q.latched <==> f.hazard)
            && (f.hazard ==> q.fault == f.pass.rt.fault && q.persistPending)
  {
    hide Stopped, ReleaseOwned, ConsultLatch;
    LatchParts(f, sensorsOk, hot);
    LatchFacts(f, sensorsOk, hot);
  }

  lemma ConsultedTrips(p: Plant, c: Ctl, i: TickIn)
    requires !p.latch.latched
    ensures var q := Consulted(p, c, i).pass.p.latch;
            && (q.latched <==> Hazard(p, c, i))
            && (Hazard(p, c, i) ==> q.fault == Reason(p, c, i) && q.persistPending)
  {
    hide Judged, ConsultLatch, Hazard, Reason;
    HazardIs(p, c, i);
    FrontFrame(p, c, i);
    ReasonIs(p, c, i);
    LatchTrips(Judged(p, c, i), Decided(p, c, i).sensorsOk, Decided(p, c, i).overtemp);
  }

  lemma TickTrips(p: Plant, c: Ctl, i: TickIn)
    requires !p.latch.latched
    ensures var o := Tick(p, c, i).p;
            && (o.latch.latched <==> i.raced || Hazard(p, c, i))
            && (Hazard(p, c, i) && !i.raced ==> o.latch.fault == Reason(p, c, i) && o.latch.persistPending)
  {
    hide Tick, Consulted, Hazard, Reason, LatchMoves;
    TickMovesLatch(p, c, i);
    ConsultedTrips(p, c, i);
  }

  /** A pass that ends latched, and kept its commit, reports the latched reason. */
  lemma LatchedReports(p: Plant, c: Ctl, i: TickIn)
    requires Tick(p, c, i).p.latch.latched && !i.raced
    ensures Tick(p, c, i).p.rt.fault == Tick(p, c, i).p.latch.fault
  {
    hide Tick, Consulted, PlanOutputs, Commit, Drive, LimitTargets, AfterInhibit, LatchMoves;
    TickUnfolds(p, c, i);
    TickMovesLatch(p, c, i);
    ConsultedFrame(p, c, i);
    ConsultedReport(p, c, i);
    PlanFacts(Consulted(p, c, i), Decided(p, c, i).controller, i);
    CommitFacts(Planned(p, c, i), i, p.epoch);
    var (q, committed) := Commit(Planned(p, c, i), i, p.epoch);
    DriveFacts(q, Planned(p, c, i), committed, i);
  }

  lemma ConsultedReport(p: Plant, c: Ctl, i: TickIn)
    ensures var l := Consulted(p, c, i);
            && l.sawLatch == l.pass.p.latch.latched && (l.sawLatch ==> l.pass.rt.fault == l.pass.p.latch.fault)
  {
    hide Judged, ConsultLatch;
    var f, d := Judged(p, c, i), Decided(p, c, i);
    LatchFacts(f, d.sensorsOk, d.overtemp);
    HeldReports(f, d.sensorsOk, d.overtemp);
  }

  /**
   * In every run, a pass on a clear latch ends latched if and only if a command raced its commit or one of the four
   * hazards is there; the latch then holds the gravest reason, still to be stored, and the device reports it.
   */
  lemma PassTripsIff(ss: seq<Sys>, es: seq<Event>, k: nat)
    requires Steps(ss, es) && k < |es| && es[k].ControlPass? && !ss[k].p.latch.latched
    ensures var s, i, t := ss[k], es[k].i, ss[k + 1].p;
            && (t.latch.latched <==> i.raced || Hazard(s.p, s.c, i))
            && (t.latch.latched && !i.raced ==>
                  && t.latch.fault == t.rt.fault == Reason(s.p, s.c, i) && t.latch.persistPending)
  {
    hide Step, Tick, Hazard, Reason;
    assert Next(ss, es, k);
    var s, i := ss[k], es[k].i;
    PassIsTick(s, i);
    TickTrips(s.p, s.c, i);
    if Tick(s.p, s.c, i).p.latch.latched && !i.raced {
      LatchedReports(s.p, s.c, i);
    }
  }

  // ---------------------------------------------------------------- what a pass reports

  /** What the job steps of the pass report. */
  function JobFault(p: Plant, c: Ctl, i: TickIn): int { AfterJobs(ContextOf(p, c, i), EnvOf(p, c, i)).fault }

  /** The fault a pass reports that does not latch. */
  function Report(p: Plant, c: Ctl, i: TickIn): int
  {
    var job := JobOf(p, c, i);
    if Unusable(p, c, i) then 1
    else if JobOn(job.s) && !PrinterBacks(job.s, p.printer, job.seen, i.NowMs()) then 7
    else JobFault(p, c, i)
  }

  lemma SteeredReport(b: Pass, i: TickIn)
    ensures Steer(b, i, true, false).0.rt.fault
         == if JobHeats(b.st, b.rt.targetC) && !AutoAllowed(b.st, b.p.printer, b.c.autoSeen, i.NowMs())
            then HF.PRINTER_NOT_READY else b.rt.fault
  {
    hide DemandInhibited, NextDemand, PrinterFresh, IsPrinting, IsPauseOrError;
  }

  lemma DecidedReport(a: Pass, i: TickIn)
    requires UsableSensors(a.rt, SampleOf(i)) && !Overtemp(SampleOf(i), a.p.board)
    ensures DecideDemand(a, i).pass.rt.fault
         == if JobHeats(a.st, a.rt.targetC) && !AutoAllowed(a.st, a.p.printer, a.c.autoSeen, i.NowMs())
            then HF.PRINTER_NOT_READY else a.rt.fault
  {
    hide Steer, Refresh, Overtemp, UsableSensors, JobHeats, AutoAllowed;
    RefreshFacts(a, i);
    SteeredReport(Refresh(a, i), i);
  }

  /** Without a hazard the fault the demand was decided with is the one reported. */
  lemma JudgementReports(d: Demand, i: TickIn)
    requires d.pass.rt.fault in {HF.OK, 1, 2, 6, 7, 8, 9, 10, 11, 12}
    ensures var f := JudgeFaults(d, i); !f.hazard ==> f.pass.rt.fault == d.pass.rt.fault
  {
    hide AfterEdges, NextRise, ActiveOrArmed, ZcSession, EdgeFresh;
  }

  lemma WatchedJobFault(p: Plant, c: Ctl, i: TickIn)
    ensures Watched(p, c, i).rt.fault == JobFault(p, c, i)
  {
    hide Sense, AfterJobs, WatchSensors, ScheduleAllowed, EffectiveTarget, SampleAccepted;
    WatchFacts(Jobbed(p, c, i), i, SampleAccepted(c.watch, i));
  }

  lemma JudgedReport(p: Plant, c: Ctl, i: TickIn)
    requires !Judged(p, c, i).hazard
    ensures Judged(p, c, i).pass.rt.fault == Report(p, c, i)
  {
    hide Jobbed, Watched, DecideDemand, JudgeFaults, JobOf, SetPointOf, Unusable, Overtemp, UsableSensors, AutoAllowed,
         PrinterBacks, SampleOf, JobFault, AfterEdges;
    var a, d, job := Watched(p, c, i), Decided(p, c, i), JobOf(p, c, i);
    JobbedIs(p, c, i);
    EarlyGate(p, c, i);
    EarlyFrame(p, c, i);
    WatchedFault(p, c, i);
    WatchedJobFault(p, c, i);
    DecidedFault(a, i);
    UnusableIs(p, c, i);
    JudgementIs(d, i);
    JudgementReports(d, i);
    PermissionIsExact(job.s, p.printer, job.seen, i.NowMs());
    if UsableSensors(a.rt, SampleOf(i)) && !Overtemp(SampleOf(i), p.board) {
      DecidedReport(a, i);
    }
  }

  lemma DriveTells(p: Plant, o: OutputStage, committed: bool, i: TickIn)
    ensures var q := Drive(p, o, committed, i); q.rt.fanOn == Running(q.fan, i.setUs) && q.rt.heaterOn == q.ssr
  {
    hide AfterEdges, Running;
  }

  lemma TickTells(p: Plant, c: Ctl, i: TickIn)
    requires !i.raced
    ensures var o := Tick(p, c, i).p;
            && o.rt.heaterOn == o.ssr && o.rt.fanOn == Running(o.fan, i.setUs)
            && o.rt.zeroCross == EdgeFresh(AfterEdges(FanAtRead(p, i), i.statsEdges).lastEdgeUs, i.statsUs)
            && (!o.latch.latched ==> o.rt.fault == Judged(p, c, i).pass.rt.fault && !Judged(p, c, i).hazard)
  {
    hide Tick, Judged, Consulted, PlanOutputs, Commit, Drive, LimitTargets, AfterInhibit, LatchMoves, AfterEdges,
         Running, EdgeFresh;
    TickUnfolds(p, c, i);
    TickMovesLatch(p, c, i);
    ConsultedFrame(p, c, i);
    ConsultedPassesOn(p, c, i);
    PlanFacts(Consulted(p, c, i), Decided(p, c, i).controller, i);
    CommitFacts(Planned(p, c, i), i, p.epoch);
    var (q, committed) := Commit(Planned(p, c, i), i, p.epoch);
    DriveFacts(q, Planned(p, c, i), committed, i);
    DriveTells(q, Planned(p, c, i), committed, i);
  }

  lemma ConsultedPassesOn(p: Plant, c: Ctl, i: TickIn)
    ensures var l, f := Consulted(p, c, i), Judged(p, c, i);
            !l.pass.p.latch.latched ==> l.pass.rt == f.pass.rt && !f.hazard
  {
    hide Judged, ConsultLatch;
    var f, d := Judged(p, c, i), Decided(p, c, i);
    LatchFacts(f, d.sensorsOk, d.overtemp);
    LatchJob(f, d.sensorsOk, d.overtemp);
  }

  /**
   * What the device reports after a pass that kept its commit: whether SSR and fan are on, whether zero cross is there,
   * and, unless latched, unusable sensors, a printer that does not back the job, or what the job steps report.
   */
  lemma PassTells(ss: seq<Sys>, es: seq<Event>, k: nat)
    requires Steps(ss, es) && k < |es| && es[k].ControlPass? && !es[k].i.raced
    ensures var s, i, t := ss[k], es[k].i, ss[k + 1].p;
            && t.rt.heaterOn == t.ssr && t.rt.fanOn == GateLive(t.fan, i.setUs)
            && t.rt.zeroCross == SignalLive(AfterEdges(FanAtRead(s.p, i), i.statsEdges), i.statsUs)
            && (!t.latch.latched ==> t.rt.fault == Report(s.p, s.c, i))
  {
    hide Step, Tick, Report, Judged, AfterEdges, FanAtRead, GateLive, SignalLive, Running, EdgeFresh;
    assert Next(ss, es, k);
    var s, i := ss[k], es[k].i;
    PassIsTick(s, i);
    TickTells(s.p, s.c, i);
    RunningIsExact(Tick(s.p, s.c, i).p.fan, i.setUs);
    RunningIsExact(AfterEdges(FanAtRead(s.p, i), i.statsEdges), i.statsUs);
    if !Tick(s.p, s.c, i).p.latch.latched {
      JudgedReport(s.p, s.c, i);
    }
  }
}
