/** Exactly when a control pass leaves the SSR on, in terms of what it is given. */
module HeatGuarantees {
  import opened Common
  import opened PlantState
  import opened SafetyLatch
  import opened FanTriac
  import opened ControlLease
  import opened SensorWatch
  import opened Jobs
  import opened JobSession
  import opened ControlPlane
  import opened ControlTick
  import opened TickGuarantees
  import opened Conditions
  import HF = HeaterFaults

  /** Settings and print context after the job steps of the pass. */
  function JobOf(p: Plant, c: Ctl, i: TickIn): AutoContext { AfterJobs(ContextOf(p, c, i), EnvOf(p, c, i)).ctx }

  /** The sensors: a good sample of two channels that are not stuck, below both hard limits and the foldback limit. */
  predicate SensorsAllow(p: Plant, c: Ctl, i: TickIn, cutoffC: int)
  {
    && GoodSample(c, i)
    && var s := i.sample.value;
    && !Stuck(c.watch, s, i.acquiredUs) && BelowHardLimits(s.chamberInstant, s.ptcInstant, p.board)
    && FoldbackClear(c.foldback, s.ptcInstant, p.board, cutoffC)
  }

  /** The device: marker written, no latch, inhibit or reservation, watchdog armed, setup gate open, fan running. */
  predicate DeviceAllows(p: Plant, c: Ctl, i: TickIn, gated: bool)
  {
    && p.prepared && !p.latch.latched && !p.latch.inhibited && !p.maintenance && c.wdtArmed
    && (gated ==> p.rt.gateReady) && GateLive(AfterEdges(p.fan, i.admitEdges), i.admitUs)
  }

  /** The job: at work, backed by the printer in AUTO, past its pre-fan phase, and in want of heat. */
  predicate JobAsks(st: Settings, seen: bool, p: Plant, c: Ctl, i: TickIn)
  {
    && JobOn(st) && PrinterBacks(st, p.printer, seen, i.NowMs()) && !PreFan(st)
    && WantsHeat(c.demand, SampleOf(i).chamberInstant, SetPointOf(st))
  }

  /** Up to the commit: the zero-cross signal not lost since the last pass, and the open rise window not flat. */
  predicate NothingTrips(p: Plant, c: Ctl, i: TickIn, targetC: int)
  {
    var f := FanAtRead(p, i);
    && (c.zcSeen ==> SignalLive(f, i.zcUs) && f.gaps == c.zcGaps)
    && !(NoRise(p.rt.rise, SampleOf(i), i.NowMs()) && SampleOf(i).chamberInstant.Below(targetC as real - 2.0))
  }

  /** At the outputs: signal and gate still live, and no command in between. */
  predicate OutputsAllow(p: Plant, i: TickIn)
  {
    var f := AfterEdges(FanAtRead(p, i), i.statsEdges);
    SignalLive(f, i.statsUs) && GateLive(AfterEdges(f, i.setEdges), i.setUs) && !i.raced
  }

  /** Everything a pass needs to leave the SSR on. */
  predicate Heats(p: Plant, c: Ctl, i: TickIn)
  {
    var job := JobOf(p, c, i);
    && SensorsAllow(p, c, i, job.s.ptcCutoffC) && DeviceAllows(p, c, i, job.s.latchEnabled)
    && JobAsks(job.s, job.seen, p, c, i) && NothingTrips(p, c, i, SetPointOf(job.s)) && OutputsAllow(p, i)
  }

  // ---------------------------------------------------------------- the model's functions in these terms

  lemma TargetIsSetPoint(s: Settings)
    ensures EffectiveTarget(s) == SetPointOf(s)
  {
  }

  lemma SampleIsGood(c: Ctl, i: TickIn)
    ensures GoodSample(c, i) <==> SampleAccepted(c.watch, i) && Readable(SampleOf(i))
  {
  }

  lemma HealthIsExact(w: Watch, s: Sample, isNew: bool, job: bool, ssrOn: bool, nowUs: int)
    ensures var health := AfterStep(w, s, isNew, job, ssrOn, nowUs).1;
            health.Healthy? || health.Warning? <==> isNew && Readable(s) && !Stuck(w, s, nowUs)
  {
    hide Observe, Readable;
  }

  lemma LimitsAreExact(s: Sample, b: Board)
    requires Readable(s)
    ensures !Overtemp(s, b) <==> BelowHardLimits(s.chamberInstant, s.ptcInstant, b)
  {
  }

  lemma FoldbackIsExact(was: bool, s: Sample, b: Board, cutoffC: int)
    requires Readable(s)
    ensures !NextFoldback(was, s, b, cutoffC) <==> FoldbackClear(was, s.ptcInstant, b, cutoffC)
  {
  }

  lemma PermissionIsExact(s: Settings, p: Printer, seen: bool, nowMs: int)
    ensures AutoAllowed(s, p, seen, nowMs) <==> PrinterBacks(s, p, seen, nowMs)
  {
  }

  lemma DemandIsExact(was: bool, targetC: int, t: Temp)
    ensures var (usable, demand) := NextDemand(was, targetC, t);
            targetC > 0 ==> (usable && demand <==> WantsHeat(was, t, targetC))
  {
  }

  /** The printer's ventilation never stands in the way of heat that is wanted. */
  lemma CoolingNeverInhibits(cooling: bool, was: bool, t: Temp, targetC: int)
    requires WantsHeat(was, t, targetC)
    ensures !NextCooling(cooling, t, targetC)
  {
  }

  /** Printer ventilation: asked for above 5 C over the set-point, no more at 2 C over it, as before in between. */
  lemma VentilationIs(cooling: bool, t: Temp, targetC: int)
    ensures NextCooling(cooling, t, targetC)
            <==> t.Deg? && targetC > 0 && (t.c > targetC as real + 5.0 || (cooling && t.c > targetC as real + 2.0))
  {
  }

  lemma RunningIsExact(f: Fan, nowUs: int)
    ensures Running(f, nowUs) <==> GateLive(f, nowUs)
    ensures EdgeFresh(f.lastEdgeUs, nowUs) <==> SignalLive(f, nowUs)
  {
  }

  // ---------------------------------------------------------------- stage by stage

  lemma JobbedIs(p: Plant, c: Ctl, i: TickIn)
    ensures var a, job := Jobbed(p, c, i), JobOf(p, c, i);
            && a.st == job.s && a.c.autoSeen == job.seen && a.rt.targetC == SetPointOf(job.s)
            && a.p == Sense(p, c, i).p && a.c.watch == Sense(p, c, i).c.watch
            && a.rt == Sense(p, c, i).rt.(fault := a.rt.fault, targetC := a.rt.targetC)
  {
    hide Sense, AfterJobs, ScheduleAllowed, EffectiveTarget, SetPointOf;
    TargetIsSetPoint(JobOf(p, c, i).s);
  }

  /** The readings the demand is decided on. */
  predicate ReadingsOf(rt: Runtime, s: Sample)
  {
    && rt.chamberInstant == s.chamberInstant && rt.ptcInstant == s.ptcInstant
    && rt.chamberStatus == s.chamberStatus && rt.ptcStatus == s.ptcStatus
  }

  lemma AcceptedReadings(rt: Runtime, i: TickIn)
    requires i.sample.Some?
    ensures ReadingsOf(ReadSensors(rt, i, true), SampleOf(i))
    ensures ReadSensors(rt, i, true).gateReady == rt.gateReady
  {
  }

  lemma ReadableIsUsable(rt: Runtime, s: Sample)
    requires ReadingsOf(rt, s) && Readable(s)
    ensures SensorsOk(rt) && UsableSensors(rt, s)
  {
  }

  lemma WatchIsExact(p: Plant, c: Ctl, i: TickIn)
    requires JobOf(p, c, i).s.workOn
    ensures var a, b := Jobbed(p, c, i), Watched(p, c, i);
            && (SensorsOk(b.rt) <==> GoodSample(c, i) && !Stuck(c.watch, SampleOf(i), i.acquiredUs))
            && (SensorsOk(b.rt) ==> b.rt == a.rt && ReadingsOf(b.rt, SampleOf(i)))
  {
    hide Sense, Jobbed, JobOf, SampleAccepted, Readable, GoodSample, Stuck, AfterStep, SensorsOk, ReadSensors,
         ReadingsOf, SampleOf;
    var a := Jobbed(p, c, i);
    var accepted := SampleAccepted(c.watch, i);
    JobbedIs(p, c, i);
    SenseParts(p, c, i);
    SampleIsGood(c, i);
    WatchFacts(a, i, accepted);
    StuckIgnoresNumber(c, i);
    HealthIsExact(a.c.watch, SampleOf(i), accepted, JobHeats(a.st, a.rt.targetC), a.rt.heaterOn, i.acquiredUs);
    if accepted && Readable(SampleOf(i)) {
      AcceptedSome(c, i);
      AcceptedReadings(p.rt, i);
      SameReadingsOf(ReadSensors(p.rt, i, true), a.rt, SampleOf(i));
      ReadableIsUsable(a.rt, SampleOf(i));
    }
    WorkingWatch(a, i, accepted);
  }

  lemma SameReadingsOf(rt: Runtime, q: Runtime, s: Sample)
    requires ReadingsOf(rt, s) && q == rt.(fault := q.fault, targetC := q.targetC)
    ensures ReadingsOf(q, s)
  {
  }

  lemma AcceptedSome(c: Ctl, i: TickIn)
    requires SampleAccepted(c.watch, i)
    ensures i.sample.Some?
  {
  }

  lemma StuckIgnoresNumber(c: Ctl, i: TickIn)
    ensures Stuck(Admitting(c.watch, i), SampleOf(i), i.acquiredUs) == Stuck(c.watch, SampleOf(i), i.acquiredUs)
  {
    hide SampleAccepted;
  }

  /** With work on, the watch trusts the sample exactly when its step does. */
  lemma WorkingWatch(a: Pass, i: TickIn, accepted: bool)
    requires a.st.workOn
    ensures var health := AfterStep(a.c.watch, SampleOf(i), accepted, JobHeats(a.st, a.rt.targetC), a.rt.heaterOn,
                                    i.acquiredUs).1;
            var b := WatchSensors(a, i, accepted).0;
            && (SensorsOk(a.rt) && (health.Healthy? || health.Warning?) ==> b.rt == a.rt)
            && (!health.Healthy? && !health.Warning? ==> !SensorsOk(b.rt))
  {
    hide AfterStep, JobHeats, SampleOf;
  }

  lemma DriveIsExact(b: Pass, i: TickIn, cooling: bool)
    requires b.rt.targetC > 0 && (b.rt.cooling ==> NextCooling(cooling, b.rt.chamberInstant, b.rt.targetC))
    ensures DriveJob(b, i).1 <==>
              && AutoAllowed(b.st, b.p.printer, b.c.autoSeen, i.NowMs())
              && WantsHeat(b.c.demand, b.rt.chamberInstant, b.rt.targetC)
              && !DemandInhibited(b.(rt := b.rt.(cooling := false)), i)
  {
    hide NextDemand, WantsHeat, NextCooling, Running, PrinterFresh;
    DemandIsExact(b.c.demand, b.rt.targetC, b.rt.chamberInstant);
    if WantsHeat(b.c.demand, b.rt.chamberInstant, b.rt.targetC) {
      CoolingNeverInhibits(cooling, b.c.demand, b.rt.chamberInstant, b.rt.targetC);
    }
  }

  lemma RefreshCools(a: Pass, i: TickIn)
    ensures var b := Refresh(a, i);
            && (b.rt.cooling ==> NextCooling(a.rt.cooling, b.rt.chamberInstant, b.rt.targetC))
            && b.c.foldback == NextFoldback(a.c.foldback, SampleOf(i), a.p.board, a.st.ptcCutoffC)
  {
    hide AfterEdges, NextFoldback, NextCooling, SymbiontActive;
  }

  /** What the demand depends on besides the sensors and the job. */
  predicate Uninhibited(a: Pass, i: TickIn)
  {
    && a.p.prepared && !a.p.latch.latched && !a.p.latch.inhibited && !a.p.maintenance && a.c.wdtArmed
    && (a.st.latchEnabled ==> a.rt.gateReady) && Running(AfterEdges(a.p.fan, i.admitEdges), i.admitUs)
  }

  lemma InhibitedIs(a: Pass, i: TickIn)
    ensures var b := Refresh(a, i);
            !DemandInhibited(b.(rt := b.rt.(cooling := false)), i) <==> !b.c.foldback && Uninhibited(a, i)
  {
    hide AfterEdges, Running, NextFoldback;
    RefreshFacts(a, i);
  }

  lemma SteerIsExact(b: Pass, i: TickIn, sensorsOk: bool, hot: bool)
    ensures Steer(b, i, sensorsOk, hot).1 <==>
              sensorsOk && !hot && JobHeats(b.st, b.rt.targetC) && DriveJob(b, i).1
  {
    hide DriveJob, JobHeats;
  }

  lemma TrimCuts(d: Pass, heat: bool, fan: bool, controller: bool)
    ensures Trim(d, heat, fan, controller).1 <==> heat && !PreFan(d.st) && !d.c.foldback
  {
  }

  lemma TrimIsExact(a: Pass, i: TickIn)
    ensures var d := DecideDemand(a, i);
            d.heat <==> Steer(Refresh(a, i), i, d.sensorsOk, d.overtemp).1 && !PreFan(a.st) && !Refresh(a, i).c.foldback
  {
    hide Steer, Refresh, Overtemp, UsableSensors, Trim, PreFan;
    var b := Refresh(a, i);
    var (d, heat, fan, controller) := Steer(b, i, UsableSensors(a.rt, SampleOf(i)), Overtemp(SampleOf(i), a.p.board));
    RefreshFacts(a, i);
    SteerFrame(b, i, UsableSensors(a.rt, SampleOf(i)), Overtemp(SampleOf(i), a.p.board));
    TrimCuts(d, heat, fan, controller);
  }

  /** The demand of a pass, sensors and job put together. */
  lemma DecisionIsExact(a: Pass, i: TickIn)
    ensures DecideDemand(a, i).heat <==>
              && UsableSensors(a.rt, SampleOf(i)) && !Overtemp(SampleOf(i), a.p.board)
              && !NextFoldback(a.c.foldback, SampleOf(i), a.p.board, a.st.ptcCutoffC)
              && JobHeats(a.st, a.rt.targetC) && AutoAllowed(a.st, a.p.printer, a.c.autoSeen, i.NowMs())
              && WantsHeat(a.c.demand, a.rt.chamberInstant, a.rt.targetC) && Uninhibited(a, i) && !PreFan(a.st)
  {
    hide DecideDemand, Refresh, Steer, DriveJob, Overtemp, UsableSensors, NextFoldback, AutoAllowed, WantsHeat,
         Uninhibited, PreFan, DemandInhibited, NextCooling, SampleOf, AfterEdges;
    var d := DecideDemand(a, i);
    var b := Refresh(a, i);
    TrimIsExact(a, i);
    DemandParts(a, i);
    RefreshFacts(a, i);
    RefreshCools(a, i);
    SteerIsExact(b, i, d.sensorsOk, d.overtemp);
    InhibitedIs(a, i);
    if a.rt.targetC > 0 {
      DriveIsExact(b, i, a.rt.cooling);
    }
  }

  /** The same, in terms of what the pass is given. */
  lemma DecidedIsExact(p: Plant, c: Ctl, i: TickIn)
    ensures var job := JobOf(p, c, i);
            Decided(p, c, i).heat <==>
              && SensorsAllow(p, c, i, job.s.ptcCutoffC) && DeviceAllows(p, c, i, job.s.latchEnabled)
              && JobAsks(job.s, job.seen, p, c, i)
  {
    hide Sense, Jobbed, Watched, JobOf, DecideDemand, GoodSample, Stuck, SampleAccepted, Readable, SensorsOk, Overtemp,
         BelowHardLimits, NextFoldback, FoldbackClear, AutoAllowed, PrinterBacks, WantsHeat, PreFan, Running, GateLive,
         SetPointOf, AfterEdges, UsableSensors;
    var a, job := Watched(p, c, i), JobOf(p, c, i);
    var s := SampleOf(i);
    JobbedIs(p, c, i);
    EarlyFrame(p, c, i);
    EarlyGate(p, c, i);
    DecisionIsExact(a, i);
    PermissionIsExact(job.s, p.printer, job.seen, i.NowMs());
    RunningIsExact(AfterEdges(p.fan, i.admitEdges), i.admitUs);
    SampleIsGood(c, i);
    UsableIs(a.rt, s);
    if job.s.workOn {
      WatchIsExact(p, c, i);
      if GoodSample(c, i) {
        GoodIsReadable(c, i);
        LimitsAreExact(s, p.board);
        FoldbackIsExact(c.foldback, s, p.board, job.s.ptcCutoffC);
      }
    }
  }

  lemma UsableIs(rt: Runtime, s: Sample)
    ensures UsableSensors(rt, s) ==> SensorsOk(rt)
    ensures SensorsOk(rt) && ReadingsOf(rt, s) ==> UsableSensors(rt, s)
  {
  }

  lemma GoodIsReadable(c: Ctl, i: TickIn)
    requires GoodSample(c, i)
    ensures i.sample.Some? && Readable(i.sample.value)
  {
  }

  /** What else the decision reads, as the pass was given it. */
  lemma EarlyGate(p: Plant, c: Ctl, i: TickIn)
    ensures var a := Watched(p, c, i);
            && a.c.foldback == c.foldback && a.c.demand == c.demand && a.c.autoSeen == Jobbed(p, c, i).c.autoSeen
            && a.rt.gateReady == p.rt.gateReady && a.rt.rise == p.rt.rise && a.rt.targetC == Jobbed(p, c, i).rt.targetC
  {
    hide Sense, AfterJobs, WatchSensors, ScheduleAllowed, EffectiveTarget, ReadSensors, SampleAccepted;
    SenseParts(p, c, i);
    WatchFacts(Jobbed(p, c, i), i, SampleAccepted(c.watch, i));
    SensingKeeps(p.rt, i, SampleAccepted(c.watch, i));
  }

  lemma SensingKeeps(rt: Runtime, i: TickIn, accepted: bool)
    ensures var q := ReadSensors(rt, i, accepted); q.gateReady == rt.gateReady && q.rise == rt.rise
  {
  }

  // ---------------------------------------------------------------- the controller's turn, and trusted readings

  /**
   * The pass is in charge of a heating job: sensors good and below the hard limits, a job on, the printer behind it.
   */
  predicate Drives(p: Plant, c: Ctl, i: TickIn)
  {
    var job := JobOf(p, c, i);
    && GoodSample(c, i) && !Stuck(c.watch, i.sample.value, i.acquiredUs)
    && BelowHardLimits(i.sample.value.chamberInstant, i.sample.value.ptcInstant, p.board)
    && JobOn(job.s) && PrinterBacks(job.s, p.printer, job.seen, i.NowMs())
  }

  lemma SteerControls(b: Pass, i: TickIn, sensorsOk: bool, hot: bool)
    ensures Steer(b, i, sensorsOk, hot).3 <==>
              && sensorsOk && !hot && JobHeats(b.st, b.rt.targetC) && b.rt.chamberInstant.Deg?
              && AutoAllowed(b.st, b.p.printer, b.c.autoSeen, i.NowMs())
  {
    hide DemandInhibited, PrinterFresh, IsPrinting, IsPauseOrError;
  }

  lemma ControllerIsExact(p: Plant, c: Ctl, i: TickIn)
    ensures Decided(p, c, i).controller <==> Drives(p, c, i)
  {
    hide Sense, Jobbed, Watched, JobOf, DecideDemand, Refresh, Steer, GoodSample, Stuck, SampleAccepted, Readable,
         SensorsOk, Overtemp, BelowHardLimits, AutoAllowed, PrinterBacks, SetPointOf, AfterEdges, UsableSensors;
    var a, job := Watched(p, c, i), JobOf(p, c, i);
    var s := SampleOf(i);
    var d := Decided(p, c, i);
    JobbedIs(p, c, i);
    EarlyFrame(p, c, i);
    EarlyGate(p, c, i);
    ControllerIsSteered(a, i);
    DemandParts(a, i);
    RefreshFacts(a, i);
    SteerControls(Refresh(a, i), i, d.sensorsOk, d.overtemp);
    PermissionIsExact(job.s, p.printer, job.seen, i.NowMs());
    UsableIs(a.rt, s);
    if job.s.workOn {
      WatchIsExact(p, c, i);
      if GoodSample(c, i) {
        GoodIsReadable(c, i);
        ReadableIsFinite(s);
        LimitsAreExact(s, p.board);
      }
    }
  }

  lemma ReadableIsFinite(s: Sample)
    requires Readable(s)
    ensures s.chamberInstant.Deg? && s.ptcInstant.Deg?
  {
  }

  /** The averaged readings the pass trusts are those of a good sample of channels that are not stuck. */
  lemma TrustedReadings(p: Plant, c: Ctl, i: TickIn)
    ensures var rt := Watched(p, c, i).rt;
            && (ValidSensors(rt) ==> GoodSample(c, i) && rt.chamber == SampleOf(i).chamber && rt.ptc == SampleOf(i).ptc)
            && (GoodSample(c, i) && !Stuck(c.watch, SampleOf(i), i.acquiredUs) ==> ValidSensors(rt))
            && (ValidSensors(rt) && JobOf(p, c, i).s.workOn ==> !Stuck(c.watch, SampleOf(i), i.acquiredUs))
  {
    hide Sense, AfterJobs, ScheduleAllowed, EffectiveTarget, SampleAccepted, Readable, GoodSample, Stuck, AfterStep,
         ReadSensors, SampleOf, RestWatch, StepWatch, Distrust;
    var a := Jobbed(p, c, i);
    var accepted := SampleAccepted(c.watch, i);
    SenseParts(p, c, i);
    SampleIsGood(c, i);
    StuckIgnoresNumber(c, i);
    RestFrame(a);
    RestIsNoStricter(a, i);
    JobbedIs(p, c, i);
    var r := RestWatch(a);
    StepFrame(r, i, accepted);
    var (b, health) := StepWatch(r, i, accepted);
    StepIs(r, i, accepted);
    HealthIsExact(r.c.watch, SampleOf(i), accepted, JobHeats(r.st, r.rt.targetC), r.rt.heaterOn, i.acquiredUs);
    DistrustIs(b, health);
    if accepted && Readable(SampleOf(i)) {
      AcceptedSome(c, i);
      ReadingsAdmitted(p.rt, i);
      AcceptedReadings(p.rt, i);
      ReadableStatus(SampleOf(i));
    }
  }

  /** With no work on, exactly a good sample of channels not already found stuck is usable. */
  lemma IdleReadings(p: Plant, c: Ctl, i: TickIn)
    requires !JobOf(p, c, i).s.workOn
    ensures UsableSensors(Watched(p, c, i).rt, SampleOf(i)) <==> GoodSample(c, i) && !StuckIdle(c.watch, SampleOf(i))
  {
    hide Sense, AfterJobs, ScheduleAllowed, EffectiveTarget, SampleAccepted, Readable, GoodSample, AfterStep,
         ReadSensors, SampleOf, StepWatch, Distrust, JobOf, RestWatch, UsableSensors, SensorsOk, Stuck, StuckIdle;
    var a := Jobbed(p, c, i);
    var accepted := SampleAccepted(c.watch, i);
    SenseParts(p, c, i);
    SampleIsGood(c, i);
    RestFrame(a);
    JobbedIs(p, c, i);
    var r := RestWatch(a);
    StepFrame(r, i, accepted);
    var (b, health) := StepWatch(r, i, accepted);
    StepIs(r, i, accepted);
    HealthIsExact(r.c.watch, SampleOf(i), accepted, JobHeats(r.st, r.rt.targetC), r.rt.heaterOn, i.acquiredUs);
    DistrustIs(b, health);
    RestedStuck(a, c, i);
    UsableIs(Distrust(b, health).rt, SampleOf(i));
    UsableIsValid(Distrust(b, health).rt, SampleOf(i));
    if accepted && Readable(SampleOf(i)) {
      AcceptedSome(c, i);
      AcceptedReadings(p.rt, i);
      SameReadingsOf(ReadSensors(p.rt, i, true), a.rt, SampleOf(i));
      ReadableIsUsable(a.rt, SampleOf(i));
    }
  }

  lemma UsableIsValid(rt: Runtime, s: Sample)
    ensures UsableSensors(rt, s) ==> ValidSensors(rt)
  {
  }

  lemma RestedStuck(a: Pass, c: Ctl, i: TickIn)
    requires !a.st.workOn && a.c.watch == Admitting(c.watch, i)
    ensures Stuck(RestWatch(a).c.watch, SampleOf(i), i.acquiredUs) <==> StuckIdle(c.watch, SampleOf(i))
  {
    hide SampleOf, SampleAccepted;
  }

  lemma RestIsNoStricter(a: Pass, i: TickIn)
    ensures Stuck(RestWatch(a).c.watch, SampleOf(i), i.acquiredUs) ==> Stuck(a.c.watch, SampleOf(i), i.acquiredUs)
    ensures a.st.workOn ==> RestWatch(a) == a
  {
    hide SampleOf;
  }

  lemma StepIs(a: Pass, i: TickIn, accepted: bool)
    ensures StepWatch(a, i, accepted).1
         == AfterStep(a.c.watch, SampleOf(i), accepted, JobHeats(a.st, a.rt.targetC), a.rt.heaterOn, i.acquiredUs).1
  {
    hide AfterStep, JobHeats, SampleOf;
  }

  lemma DistrustIs(a: Pass, health: Health)
    ensures var b := Distrust(a, health);
            && (health.Healthy? || health.Warning? ==> b == a)
            && (!health.Healthy? && !health.Warning? ==> !ValidSensors(b.rt))
  {
  }

  lemma ReadableStatus(s: Sample)
    requires Readable(s)
    ensures s.chamberStatus.SensorOk? && s.ptcStatus.SensorOk?
  {
  }

  // ---------------------------------------------------------------- what drives the heater

  lemma OutcomeEndsWork(a: AutoContext, preheated: bool, driedOut: bool, tested: bool, nowMs: int)
    requires preheated || driedOut || tested ==> !a.s.workOn
    ensures var t := Conclude(a, preheated, driedOut, tested, nowMs); t.fault != HF.OK ==> !t.ctx.s.workOn
  {
    hide SessionLimitMs;
  }

  /** With valid sensors the job logic reports an end only when it ends work. */
  lemma JobFaultEndsWork(c: AutoContext, env: TickEnv)
    requires ValidSensors(env.rt)
    ensures var t := AfterJobs(c, env); t.fault != HF.OK ==> !t.ctx.s.workOn
  {
    hide AfterUnpaused, Conclude;
    if c.s.userPaused {
      OutcomeEndsWork(c, false, false, false, env.nowMs);
    } else {
      UnpausedKeepsSession(c, env);
      var (a, preheated, driedOut, tested) := AfterUnpaused(c, env);
      OutcomeEndsWork(a, preheated, driedOut, tested, env.nowMs);
    }
  }

  lemma DutyIsDemand(b: Pass, i: TickIn, sensorsOk: bool, hot: bool)
    requires !b.rt.duty && Steer(b, i, sensorsOk, hot).0.rt.duty
    ensures var (d, _, _, controller) := Steer(b, i, sensorsOk, hot);
            controller && d.rt == b.rt.(duty := true) && sensorsOk && JobHeats(b.st, b.rt.targetC)
  {
    hide DemandInhibited, AutoAllowed, JobHeats;
  }

  lemma DutyDrives(a: Pass, i: TickIn)
    requires DecideDemand(a, i).pass.rt.duty
    ensures var d := DecideDemand(a, i);
            && d.controller && d.pass.rt == a.rt.(duty := true, cooling := d.pass.rt.cooling)
            && UsableSensors(a.rt, SampleOf(i)) && JobHeats(a.st, a.rt.targetC)
  {
    hide Steer, Refresh, DecideDemand, Overtemp, UsableSensors, JobHeats;
    DemandParts(a, i);
    RefreshFacts(a, i);
    DutyIsDemand(Refresh(a, i), i, DecideDemand(a, i).sensorsOk, DecideDemand(a, i).overtemp);
    ControllerIsSteered(a, i);
  }

  lemma ControllerIsSteered(a: Pass, i: TickIn)
    ensures var d := DecideDemand(a, i); d.controller == Steer(Refresh(a, i), i, d.sensorsOk, d.overtemp).3
  {
    hide Steer, Refresh, Overtemp, UsableSensors;
  }

  /** The readings and the open window a heater duty was decided on; no job reports an end. */
  predicate Driven(d: Demand, s: Sample, r: Rise)
  {
    && d.controller && d.pass.rt.duty && d.pass.rt.fault == HF.OK && d.pass.rt.rise == r
    && d.pass.rt.ptc == s.ptc && d.pass.rt.chamber == s.chamber
  }

  lemma ReadingsAdmitted(rt: Runtime, i: TickIn)
    requires i.sample.Some?
    ensures var q := ReadSensors(rt, i, true);
            q.ptc == SampleOf(i).ptc && q.chamber == SampleOf(i).chamber && q.rise == rt.rise
  {
  }

  lemma UsableAreValid(rt: Runtime, s: Sample)
    requires UsableSensors(rt, s)
    ensures SensorsOk(rt) && ValidSensors(rt)
  {
  }

  lemma HeatingJobWorks(st: Settings, targetC: int)
    requires JobHeats(st, targetC)
    ensures st.workOn
  {
  }

  lemma DutyIsDriven(p: Plant, c: Ctl, i: TickIn)
    requires Decided(p, c, i).pass.rt.duty
    ensures Driven(Decided(p, c, i), SampleOf(i), p.rt.rise)
  {
    hide Sense, AfterJobs, WatchSensors, DecideDemand, ReadSensors, IsFresh, Readable, EffectiveTarget, UsableSensors,
         JobHeats, SensorsOk, ScheduleAllowed;
    var b := Jobbed(p, c, i);
    DutyDrives(Watched(p, c, i), i);
    UsableAreValid(Watched(p, c, i).rt, SampleOf(i));
    HeatingJobWorks(Watched(p, c, i).st, Watched(p, c, i).rt.targetC);
    SenseParts(p, c, i);
    WatchFacts(b, i, SampleAccepted(c.watch, i));
    ReadingsAdmitted(p.rt, i);
    JobFaultEndsWork(ContextOf(p, c, i), EnvOf(p, c, i));
  }

  /** The watchdog's turn in a pass that drives the heater of a cold chamber. */
  lemma RiseIsJudged(d: Demand, i: TickIn, r: Rise)
    requires Driven(d, SampleOf(i), r)
    ensures var f := JudgeFaults(d, i);
            var due := r.active && OpensWindow(r, i.NowMs());
            var flat := Flat(r.startPtc, r.startChamber, SampleOf(i));
            Straining(f.pass.rt, d.controller) ==>
              && (due && flat ==> f.hazard)
              && (!f.hazard ==>
                    f.pass.rt.rise == if OpensWindow(r, i.NowMs()) then Opened(SampleOf(i), i.NowMs()) else r)
  {
    hide AfterEdges, ActiveOrArmed, ZcSession, StatsAt;
  }

  lemma JudgedDuty(d: Demand, i: TickIn)
    ensures JudgeFaults(d, i).pass.rt.duty == d.pass.rt.duty
  {
    hide JudgeFaults;
    JudgeFacts(d, i);
  }

  lemma HeatIsDuty(a: Pass, i: TickIn)
    requires DecideDemand(a, i).heat
    ensures DecideDemand(a, i).pass.rt.duty && DecideDemand(a, i).controller
  {
    hide Refresh, Overtemp, UsableSensors, DemandInhibited, AutoAllowed, JobHeats;
  }

  // ---------------------------------------------------------------- from the demand to the outputs

  lemma NextRiseIsExact(r: Rise, rt: Runtime, s: Sample, nowMs: int)
    requires rt.ptc == s.ptc && rt.chamber == s.chamber
    ensures NextRise(r, rt, nowMs).1 <==> NoRise(r, s, nowMs)
  {
  }

  /** A demand survives the judgement exactly when zero cross was not lost and the rise window is not flat. */
  lemma JudgementIsExact(d: Demand, i: TickIn, r: Rise)
    requires d.heat && Driven(d, SampleOf(i), r) && ZcSession(d.pass.st, d.pass.rt.targetC)
    ensures var f := JudgeFaults(d, i);
            var fan := AfterEdges(d.pass.p.fan, i.zcEdges);
            && (f.heat <==>
                  && (d.pass.c.zcSeen ==> EdgeFresh(fan.lastEdgeUs, i.zcUs) && fan.gaps == d.pass.c.zcGaps)
                  && !(NoRise(r, SampleOf(i), i.NowMs())
                       && d.pass.rt.chamberInstant.Below(d.pass.rt.targetC as real - 2.0)))
            && (f.heat ==> !f.hazard)
  {
    hide AfterEdges, NextRise, NoRise, EdgeFresh, ZcSession;
    NextRiseIsExact(r, d.pass.rt, SampleOf(i), i.NowMs());
  }

  lemma JudgedIsExact(p: Plant, c: Ctl, i: TickIn)
    requires Decided(p, c, i).heat
    ensures var f := Judged(p, c, i);
            (f.heat <==> NothingTrips(p, c, i, SetPointOf(JobOf(p, c, i).s))) && (f.heat ==> !f.hazard)
  {
    hide Sense, Jobbed, Watched, DecideDemand, JudgeFaults, JobOf, SetPointOf, Driven, NoRise, SampleAccepted, Readable,
         Overtemp, Running, SignalLive, EdgeFresh, AfterEdges;
    var a, d := Watched(p, c, i), Decided(p, c, i);
    WatchedSample(p, c, i);
    JobbedIs(p, c, i);
    EarlyGate(p, c, i);
    EarlyFrame(p, c, i);
    DemandFrame(a, i);
    DemandHeats(a, i);
    HeatIsDuty(a, i);
    DutyIsDriven(p, c, i);
    HeatingSession(a.st, a.rt.targetC);
    JudgementIsExact(d, i, p.rt.rise);
    RunningIsExact(FanAtRead(p, i), i.zcUs);
  }

  lemma HeatingSession(st: Settings, targetC: int)
    requires JobHeats(st, targetC)
    ensures ZcSession(st, targetC)
  {
  }

  lemma ConsultIsExact(f: FaultStage, sensorsOk: bool, hot: bool)
    ensures var l := ConsultLatch(f, sensorsOk, hot);
            && (l.heat <==> f.heat && !f.hazard && !f.pass.p.latch.latched)
            && (l.heat ==> l.pass.rt == f.pass.rt && l.pass.st == f.pass.st && !l.pass.p.latch.latched)
  {
    hide ConsultLatch, Stopped;
    LatchJob(f, sensorsOk, hot);
    LatchParts(f, sensorsOk, hot);
    LatchFacts(f, sensorsOk, hot);
  }

  /** Heat as far as the latch: demanded, not stopped by a fault. The plan adds the gates that are read afterwards. */
  lemma ConsultedIsExact(p: Plant, c: Ctl, i: TickIn)
    ensures Consulted(p, c, i).heat <==>
              Decided(p, c, i).heat && NothingTrips(p, c, i, SetPointOf(JobOf(p, c, i).s))
    ensures var l, f := Consulted(p, c, i), Judged(p, c, i);
            l.heat ==> l.pass.rt == f.pass.rt && l.pass.st == f.pass.st && !l.pass.p.latch.latched
  {
    hide Jobbed, Watched, Decided, Judged, JobOf, ConsultLatch, NothingTrips, AfterEdges, DecideDemand, JudgeFaults,
         SetPointOf, Running, JobHeats;
    FrontFrame(p, c, i);
    ConsultIsLatch(p, c, i);
    ConsultIsExact(Judged(p, c, i), Decided(p, c, i).sensorsOk, Decided(p, c, i).overtemp);
    if Judged(p, c, i).heat {
      JudgedHeat(p, c, i);
    }
    if Decided(p, c, i).heat {
      JudgedIsExact(p, c, i);
      DemandNeedsNoLatch(p, c, i);
    }
  }

  lemma DemandNeedsNoLatch(p: Plant, c: Ctl, i: TickIn)
    requires Decided(p, c, i).heat
    ensures !p.latch.latched
  {
    hide Watched, DecideDemand, JobHeats, Running, AfterEdges;
    EarlyFrame(p, c, i);
    DemandHeats(Watched(p, c, i), i);
  }

  lemma PlanIsExact(l: LatchStage, controller: bool, i: TickIn)
    ensures var o := PlanOutputs(l, controller, i);
            && (o.heat <==>
                  && l.heat && l.pass.st.workOn && StartAllowed(l.pass.p) && SensorsOk(l.pass.rt) && l.pass.c.wdtArmed
                  && l.pass.p.prepared && EdgeFresh(AfterEdges(l.pass.p.fan, i.statsEdges).lastEdgeUs, i.statsUs))
            && (controller && !l.pass.p.latch.latched ==> o.fan)
  {
    hide AfterEdges, NextPurge, ReleaseOwned, PlanOutputs, SensorsOk, EdgeFresh;
    PlanHeats(l, controller, i);
    PlanFacts(l, controller, i);
    PlanBlows(l, controller, i);
  }

  lemma PlanBlows(l: LatchStage, controller: bool, i: TickIn)
    ensures controller && !l.pass.p.latch.latched ==> PlanOutputs(l, controller, i).fan
  {
    hide AfterEdges, NextPurge, ReleaseOwned, Gate;
  }

  lemma DriveIsEnergised(p: Plant, o: OutputStage, committed: bool, i: TickIn)
    ensures Drive(p, o, committed, i).ssr <==>
              && o.heat && committed && !o.st.userPaused && o.fan && p.prepared && !p.latch.latched
              && !p.latch.inhibited
              && Running(AfterEdges(p.fan, i.setEdges), i.setUs)
  {
    hide AfterEdges;
    EdgesKeepRequest(p.fan, i.setEdges);
  }

  /** Sensors, start permission and flags that the demand was decided on are still those of the plan. */
  lemma ConsultedKeeps(p: Plant, c: Ctl, i: TickIn)
    requires Consulted(p, c, i).heat
    ensures var l := Consulted(p, c, i);
            && l.pass.st == JobOf(p, c, i).s && StartAllowed(l.pass.p) && SensorsOk(l.pass.rt) && l.pass.c.wdtArmed
            && l.pass.p.prepared && !l.pass.p.latch.inhibited && Decided(p, c, i).controller
            && !p.latch.inhibited && p.prepared && !p.maintenance && c.wdtArmed
  {
    hide Sense, Jobbed, Watched, DecideDemand, Judged, Consulted, JobOf, JobHeats, Running, AfterEdges, SensorsOk,
         SetPointOf, NothingTrips, LatchMoves;
    ConsultedIsExact(p, c, i);
    ConsultedFrame(p, c, i);
    ConsultedLatch(p, c, i);
    EarlyFrame(p, c, i);
    MiddleFrame(p, c, i);
    JobbedIs(p, c, i);
    DemandHeats(Watched(p, c, i), i);
    DemandSensors(Watched(p, c, i), i);
    SameSensors(Watched(p, c, i).rt, Judged(p, c, i).pass.rt);
    HeatIsDuty(Watched(p, c, i), i);
    MovesKeepInhibit(p.latch, Consulted(p, c, i).pass.p.latch, Consulted(p, c, i).tripped, Consulted(p, c, i).armed);
  }

  lemma MovesKeepInhibit(l: Latch, q: Latch, tripped: bool, armed: bool)
    requires LatchMoves(l, q, tripped, armed)
    ensures q.inhibited == l.inhibited
  {
  }

  lemma DemandSensors(a: Pass, i: TickIn)
    requires DecideDemand(a, i).heat
    ensures SensorsOk(a.rt)
  {
    hide DecideDemand, JobHeats, SensorsOk, AfterEdges, Running, Overtemp, NextFoldback, WantsHeat, AutoAllowed,
         Uninhibited, PreFan;
    DecisionIsExact(a, i);
  }

  lemma SameSensors(r: Runtime, q: Runtime)
    requires SensorsOk(r) && SameReadings(r, q) && q.chamberStatus == r.chamberStatus && q.ptcStatus == r.ptcStatus
    ensures SensorsOk(q)
  {
  }

  lemma PlannedIsExact(p: Plant, c: Ctl, i: TickIn)
    ensures Planned(p, c, i).heat <==>
              Consulted(p, c, i).heat && SignalLive(AfterEdges(FanAtRead(p, i), i.statsEdges), i.statsUs)
  {
    hide Consulted, PlanOutputs, JobOf, SensorsOk, StartAllowed, SignalLive, EdgeFresh, AfterEdges;
    var l := Consulted(p, c, i);
    PlanIsExact(l, Decided(p, c, i).controller, i);
    ConsultedFrame(p, c, i);
    RunningIsExact(AfterEdges(FanAtRead(p, i), i.statsEdges), i.statsUs);
    if l.heat {
      ConsultedKeeps(p, c, i);
      JobIsOn(p, c, i);
    }
  }

  lemma JobIsOn(p: Plant, c: Ctl, i: TickIn)
    requires Consulted(p, c, i).heat
    ensures JobOn(JobOf(p, c, i).s)
  {
    hide Consulted, Decided, JobOf, NothingTrips, SensorsAllow, DeviceAllows, SetPointOf, PrinterBacks, PreFan,
         WantsHeat;
    ConsultedIsExact(p, c, i);
    DecidedIsExact(p, c, i);
  }

  /** From the plan to the pin. */
  lemma OutputIsExact(p: Plant, c: Ctl, i: TickIn)
    ensures Tick(p, c, i).p.ssr <==>
              && Planned(p, c, i).heat && !i.raced
              && GateLive(AfterEdges(AfterEdges(FanAtRead(p, i), i.statsEdges), i.setEdges), i.setUs)
  {
    hide Tick, Consulted, Decided, PlanOutputs, Commit, Drive, AfterEdges, LimitTargets, AfterInhibit, GateLive,
         Running, JobOf, SetPointOf;
    var l := Consulted(p, c, i);
    var plan := Planned(p, c, i);
    TickUnfolds(p, c, i);
    ConsultedFrame(p, c, i);
    PlanFacts(l, Decided(p, c, i).controller, i);
    CommitFacts(plan, i, p.epoch);
    var (q, committed) := Commit(plan, i, p.epoch);
    DriveIsEnergised(q, plan, committed, i);
    RunningIsExact(AfterEdges(AfterEdges(FanAtRead(p, i), i.statsEdges), i.setEdges), i.setUs);
    if plan.heat {
      PlannedIsExact(p, c, i);
      ConsultedKeeps(p, c, i);
      ConsultedIsExact(p, c, i);
      JobIsOn(p, c, i);
      PlanBlows(l, Decided(p, c, i).controller, i);
    }
  }

  /**
   * A pass leaves the SSR on if and only if everything allows it: the sensors, the device, the job, the signal since
   * the last pass, the warm-up watchdog and the outputs.
   */
  lemma PassHeatsIff(p: Plant, c: Ctl, i: TickIn)
    ensures Tick(p, c, i).p.ssr <==> Heats(p, c, i)
  {
    hide Tick, Decided, Consulted, Planned, JobOf, SensorsAllow, DeviceAllows, JobAsks, NothingTrips, SignalLive,
         GateLive, AfterEdges, SetPointOf;
    OutputIsExact(p, c, i);
    PlannedIsExact(p, c, i);
    ConsultedIsExact(p, c, i);
    DecidedIsExact(p, c, i);
  }

  // ---------------------------------------------------------------- what the pass commits

  lemma LimitKeepsSetPoint(s: Settings)
    ensures SetPointOf(LimitTargets(s)) == SetPointOf(s)
  {
  }

  /** Limits and gate flags leave every term of the job as it is. */
  lemma LimitKeepsTerms(s: Settings, armed: bool)
    ensures var t := LimitTargets(s.(latchEnabled := true, latchArmed := armed));
            && SetPointOf(t) == SetPointOf(s) && JobOn(t) == JobOn(s) && PreFan(t) == PreFan(s)
            && t.ptcCutoffC == s.ptcCutoffC && t.workOn == s.workOn
            && (forall p, seen, nowMs :: PrinterBacks(t, p, seen, nowMs) == PrinterBacks(s, p, seen, nowMs))
  {
    LimitKeepsSetPoint(s.(latchEnabled := true, latchArmed := armed));
    FlagsKeepSetPoint(s, armed);
    hide SetPointOf, ClampTarget;
  }

  lemma FlagsKeepSetPoint(s: Settings, armed: bool)
    ensures SetPointOf(s.(latchEnabled := true, latchArmed := armed)) == SetPointOf(s)
  {
  }

  /** A pass that leaves the latch clear works on the set-point of the job it commits. */
  lemma CommittedTarget(p: Plant, c: Ctl, i: TickIn)
    requires !Tick(p, c, i).p.latch.latched
    ensures var o := Tick(p, c, i); o.p.rt.targetC == SetPointOf(o.p.settings) && o.c.autoSeen == JobOf(p, c, i).seen
  {
    hide Tick, Sense, Jobbed, Watched, DecideDemand, JudgeFaults, ConsultLatch, Consulted, PlanOutputs, Commit, Drive,
         AfterJobs, JobOf, SetPointOf, LimitTargets, LatchMoves, AfterEdges, Stopped, Judged;
    TickMovesLatch(p, c, i);
    TickUnfolds(p, c, i);
    var armed := GoingOnCommits(p, c, i);
    JobIs(p, c, i);
    LimitKeepsTerms(JobOf(p, c, i).s, armed);
    JobbedIs(p, c, i);
    EarlyGate(p, c, i);
    DemandFrame(Watched(p, c, i), i);
    MiddleFrame(p, c, i);
    JudgedKeepsSeen(p, c, i);
    ConsultIsLatch(p, c, i);
    LatchJob(Judged(p, c, i), Decided(p, c, i).sensorsOk, Decided(p, c, i).overtemp);
    LatchFrame(Judged(p, c, i), Decided(p, c, i).sensorsOk, Decided(p, c, i).overtemp);
    PlanFacts(Consulted(p, c, i), Decided(p, c, i).controller, i);
    CommitFacts(Planned(p, c, i), i, p.epoch);
    var (q, committed) := Commit(Planned(p, c, i), i, p.epoch);
    DriveFacts(q, Planned(p, c, i), committed, i);
  }

  /** The settings it commits are those of the job logic, as far as heating goes. */
  lemma CommittedJob(p: Plant, c: Ctl, i: TickIn)
    requires !Tick(p, c, i).p.latch.latched
    ensures var s, t := JobOf(p, c, i).s, Tick(p, c, i).p.settings;
            && SetPointOf(t) == SetPointOf(s) && JobOn(t) == JobOn(s) && PreFan(t) == PreFan(s)
            && t.ptcCutoffC == s.ptcCutoffC && t.workOn == s.workOn
            && (forall q, seen, nowMs :: PrinterBacks(t, q, seen, nowMs) == PrinterBacks(s, q, seen, nowMs))
  {
    hide Tick, Consulted, JobOf, SetPointOf, LimitTargets, LatchMoves, PrinterBacks, PreFan, JobOn, AfterJobs,
         ContextOf, EnvOf;
    TickMovesLatch(p, c, i);
    var armed := GoingOnCommits(p, c, i);
    JobIs(p, c, i);
    LimitKeepsTerms(JobOf(p, c, i).s, armed);
  }

  lemma JobIs(p: Plant, c: Ctl, i: TickIn)
    ensures JobOf(p, c, i) == AfterJobs(ContextOf(p, c, i), EnvOf(p, c, i)).ctx
  {
  }

  lemma JudgedKeepsSeen(p: Plant, c: Ctl, i: TickIn)
    ensures Judged(p, c, i).pass.c.autoSeen == Watched(p, c, i).c.autoSeen
  {
    hide Watched, DecideDemand, JudgeFaults, AfterEdges;
    DemandFrame(Watched(p, c, i), i);
    JudgeFacts(Decided(p, c, i), i);
  }
}
