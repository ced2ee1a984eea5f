/**
 * control_task of main/safety.c in the form it has there: one loop body over the shared records, its own statics and
 * its working copies `st` and `rt`. Each stage is proved to be the corresponding stage of ControlTick.
 */
module ControlTask {
  import opened Common
  import opened PlantState
  import opened SafetyLatch
  import opened FanTriac
  import opened ControlLease
  import opened SensorWatch
  import opened Jobs
  import opened JobControl
  import opened ControlPlane
  import opened ControlTick
  import opened Device
  import HF = HeaterFaults

  class Supervisor {
    const dev: Controller
    const jobs: JobState
    const watch: FreezeWatch
    var rt: Runtime
    var wdtArmed: bool
    var heated: bool
    var purge: bool
    var zcSeen: bool
    var zcGaps: nat
    var contextEpoch: int
    var foldback: bool
    var demand: bool

    ghost predicate Valid()
      reads this, dev, dev.fan, watch
    {
      dev.Valid() && watch.Valid()
    }

    ghost function Statics(): Ctl
      reads `wdtArmed, `heated, `purge, `zcSeen, `zcGaps, `contextEpoch, `foldback, `demand
      reads jobs`autoSeen, jobs`lastAuto, watch, watch.raw, watch.suspectRaw, watch.stillUs, watch.onUs, watch.suspect
      requires watch.Valid()
    {
      Ctl(wdtArmed, heated, purge, zcSeen, zcGaps, watch.View(), contextEpoch, jobs.autoSeen, jobs.lastAuto, foldback,
          demand)
    }

    /** The working state of a pass under way. */
    ghost function Working(): Pass
      reads this, dev, dev.latch, dev.fan, dev.arbiter
      reads jobs, watch, watch.raw, watch.suspectRaw, watch.stillUs, watch.onUs, watch.suspect
      requires watch.Valid()
    {
      Pass(dev.View(), Statics(), jobs.st, rt)
    }

    /** The start of the task, after the watchdog was armed or not. */
    constructor (dev: Controller, wdtArmed: bool)
      requires dev.Valid()
      ensures Valid() && this.dev == dev && fresh(jobs) && fresh(watch)
      ensures Statics() == Ctl(wdtArmed, true, true, false, dev.fan.gaps, NO_EVIDENCE, NO_EPOCH, false, Idle, false,
                               false)
    {
      this.dev, this.wdtArmed := dev, wdtArmed;
      jobs := new JobState(dev.settings, false, Idle);
      watch := new FreezeWatch();
      rt := dev.rt;
      heated, purge, zcSeen, zcGaps := true, true, false, dev.fan.gaps;
      contextEpoch, foldback, demand := NO_EPOCH, false, false;
    }

    /** The zero-cross interrupt firing while the pass runs. */
    method Interrupts(edges: seq<int>)
      requires Valid()
      modifies dev.fan
      ensures Valid() && dev.fan.View() == AfterEdges(old(dev.fan.View()), edges)
      ensures Working() == Interrupted(old(Working()), edges)
    {
      hide AfterEdge;
      ghost var f := dev.fan.View();
      for k := 0 to |edges|
        invariant dev.Valid() && AfterEdges(dev.fan.View(), edges[k..]) == AfterEdges(f, edges)
      {
        dev.fan.ZeroCrossIsr(edges[k]);
        assert edges[k..][1..] == edges[k + 1..];
      }
    }

    // -------------------------------------------------------------- main/safety.c:1091-1144

    /** Copies of the shared state; a command since the last pass ends the AUTO context. */
    method Snapshot()
      requires Valid()
      modifies this`rt, this`contextEpoch, jobs
      ensures Working() == Copied(old(dev.View()), old(Statics())) && jobs.st == dev.settings
    {
      rt := dev.rt;
      jobs.st := dev.settings;
      if contextEpoch != dev.epoch {
        jobs.autoSeen := false;
        jobs.lastAuto := Idle;
        contextEpoch := dev.epoch;
      }
    }

    /** An expired remote lease passes to the running local job, or is dropped. */
    method PassLease(nowUs: int)
      requires Valid() && jobs.st == dev.settings
      modifies dev.arbiter
      ensures Working() == HandOver(old(Working()), nowUs)
    {
      hide AfterClaim, AfterRelease;
      var a := dev.arbiter;
      var leased := a.ready && Remote(a.owner) && a.id.Some?;
      if !leased || nowUs <= a.deadlineUs {
        return;
      }
      if jobs.st.workOn || jobs.st.schedule.enabled {
        var verdict, id := a.Claim(LocalJob, true, a.revision, 0, nowUs);
        assert verdict.Granted?;  // a claim of the current revision with takeover is never refused
      } else {
        a.ReleaseAny();
      }
    }

    /** What the acquisition writes into the working runtime. */
    method Store(i: TickIn, accepted: bool)
      modifies this`rt
      ensures rt == ReadSensors(old(rt), i, accepted)
    {
      if i.sample.Some? {
        var s := i.sample.value;
        rt := rt.(chamber := s.chamber, ptc := s.ptc);
        rt := rt.(chamberInstant := s.chamberInstant, ptcInstant := s.ptcInstant);
        rt := rt.(chamberStatus := s.chamberStatus, ptcStatus := s.ptcStatus);
        if accepted {
          rt := rt.(lastSensorMs := s.completedUs / 1000);
        }
      } else {
        rt := rt.(chamberInstant := Bad, ptcInstant := Bad);
        rt := rt.(chamberStatus := SensorInvalid, ptcStatus := SensorInvalid);
      }
      if !accepted {
        rt := rt.(chamberStatus := SensorInvalid, ptcStatus := SensorInvalid);
      }
    }

    /** Freshness of the acquisition; without it the SSR is cut at once. */
    method Admit(i: TickIn) returns (accepted: bool)
      requires Valid()
      modifies this`rt, watch`sequence, dev`ssrPin, dev`rt
      ensures Valid() && accepted == SampleAccepted(old(watch.View()), i)
      ensures Working() == Acquire(old(Working()), i)
    {
      hide IsFresh, AfterCut, ReadSensors;
      accepted := false;
      if i.sample.Some? {
        accepted := watch.SampleFresh(i.sample.value, i.attemptUs, i.acquiredUs);
      }
      if !accepted {
        dev.CutPower();
      }
      Store(i, accepted);
    }

    // -------------------------------------------------------------- main/safety.c:1146-1208

    method UpdateJobs(i: TickIn) returns (fault: int)
      requires Valid()
      modifies jobs
      ensures Working() == WithJobs(old(Working()), JobsAfter(old(Working()), i).ctx)
      ensures fault == JobsAfter(old(Working()), i).fault
    {
      hide AfterJobs, ScheduleAllowed;
      var allowed := dev.IsScheduleAllowed(i.nowUs);
      fault := jobs.RunJobs(TickEnv(dev.printer, rt, allowed, i.profile, i.nowUs / 1000));
    }

    method ReportJobs(i: TickIn)
      requires Valid()
      modifies this`rt, jobs
      ensures Working() == ControlTick.RunJobs(old(Working()), i)
    {
      hide JobsAfter, WithJobs, EffectiveTarget;
      ghost var a := Working();
      var fault := UpdateJobs(i);
      WithJobsKeepsRt(a, JobsAfter(a, i).ctx);
      rt := rt.(fault := fault);
      rt := rt.(targetC := EffectiveTarget(jobs.st));
    }

    method RestFreezeWatch()
      requires Valid()
      modifies watch`warningUs, watch`tracking
      ensures Valid() && Working() == RestWatch(old(Working()))
    {
      if !jobs.st.workOn && !watch.frozen {
        watch.warningUs := 0;
        watch.tracking := false;
      }
    }

    method StepFreezeWatch(i: TickIn, accepted: bool) returns (health: Health)
      requires Valid()
      modifies watch, watch.raw, watch.suspectRaw, watch.stillUs, watch.onUs, watch.suspect
      ensures Valid() && (Working(), health) == StepWatch(old(Working()), i, accepted)
    {
      hide AfterStep;
      var sample := if i.sample.Some? then i.sample.value else ZERO_SAMPLE;
      var heats := jobs.st.workOn && !jobs.st.userPaused && rt.targetC > 0;
      assert heats == JobHeats(jobs.st, rt.targetC);
      hide JobHeats;
      health := watch.Step(sample, accepted, heats, rt.heaterOn, i.acquiredUs);
    }

    method DistrustSensors(health: Health)
      requires Valid()
      modifies this`rt, dev`ssrPin, dev`rt
      ensures Valid() && Working() == Distrust(old(Working()), health)
    {
      hide AfterCut;
      if !health.Healthy? && !health.Warning? {
        dev.CutPower();
        rt := rt.(chamberStatus := SensorInvalid, ptcStatus := SensorInvalid);
      }
    }

    // -------------------------------------------------------------- main/safety.c:1209-1293

    method UpdateFoldback(s: Sample)
      modifies this`foldback
      ensures foldback == NextFoldback(old(foldback), s, dev.board, jobs.st.ptcCutoffC)
    {
      if s.ptcStatus.SensorOk? && s.ptcInstant.Deg? {
        var t := SafetyTemperature(s.ptcInstant, dev.board.ptcOffset);
        var cut := FoldbackLimit(dev.board.rrefKohm, jobs.st.ptcCutoffC);
        if t.AtLeast(cut) {
          foldback := true;
        } else if t.Below(cut - FOLDBACK_BAND_C) {
          foldback := false;
        }
      }
    }

    method IsSymbiontActive(s: Sample) returns (active: bool)
      requires Valid()
      ensures active == SymbiontActive(Working(), s)
    {
      hide UsableSensors, Overtemp;
      active := jobs.st.symbiont && jobs.st.workOn && !jobs.st.userPaused && rt.targetC > 0 &&
                UsableSensors(rt, s) && !Overtemp(s, dev.board) && !dev.latch.latched && !dev.maintenance;
    }

    method FoldBack(s: Sample)
      requires Valid()
      modifies this`foldback
      ensures Working() == Fold(old(Working()), s)
    {
      hide NextFoldback;
      UpdateFoldback(s);
    }

    method Ventilation(s: Sample)
      requires Valid()
      modifies this`rt
      ensures Working() == Ventilate(old(Working()), s)
    {
      hide SymbiontActive, NextCooling;
      var symbiont := IsSymbiontActive(s);
      rt := rt.(duty := false, cooling := symbiont && NextCooling(rt.cooling, rt.chamberInstant, rt.targetC));
    }

    /** Fold-back hysteresis and printer ventilation. */
    method RefreshDemand(i: TickIn)
      requires Valid()
      modifies this`rt, this`foldback, dev.fan
      ensures Valid() && Working() == Refresh(old(Working()), i)
    {
      hide Interrupted, Fold, Ventilate;
      Interrupts(i.admitEdges);
      FoldBack(SampleOf(i));
      Ventilation(SampleOf(i));
    }

    method IsDemandInhibited(i: TickIn) returns (inhibited: bool)
      requires Valid()
      ensures inhibited == DemandInhibited(Working(), i)
    {
      hide Running;
      var running := dev.fan.IsRunning(i.admitUs);
      inhibited := foldback || rt.cooling || !dev.prepared || (jobs.st.latchEnabled && !rt.gateReady) ||
                   dev.latch.latched || dev.latch.inhibited || dev.maintenance || !wdtArmed || !running;
    }

    /** shu1_heater_control_step. */
    method StepController() returns (usable: bool)
      modifies this`demand
      ensures (usable, demand) == NextDemand(old(demand), rt.targetC, rt.chamberInstant)
    {
      if rt.targetC <= 0 || rt.chamberInstant.Bad? {
        demand := false;
        return false;
      }
      if rt.chamberInstant.c >= rt.targetC as real {
        demand := false;
      } else if rt.chamberInstant.c < rt.targetC as real - HYSTERESIS_C {
        demand := true;
      }
      usable := true;
    }

    /** The controller's turn: airflow for the whole job, heat only where nothing inhibits it. */
    method DriveController(i: TickIn) returns (heat: bool, fan: bool, controller: bool)
      requires Valid()
      modifies this`rt, this`demand
      ensures (Working(), heat, fan, controller) == DriveJob(old(Working()), i)
    {
      hide AutoAllowed, DemandInhibited, NextDemand;
      heat, fan, controller := false, false, false;
      if jobs.st.mode.Auto? && !AutoAllowed(jobs.st, dev.printer, jobs.autoSeen, i.nowUs / 1000) {
        rt := rt.(fault := HF.PRINTER_NOT_READY);
        return;
      }
      fan := true;
      var inhibited := IsDemandInhibited(i);
      controller := StepController();
      heat := controller && demand && !inhibited;
      rt := rt.(duty := heat);
    }

    method SteerJob(i: TickIn, sensorsOk: bool, hot: bool) returns (heat: bool, fan: bool, controller: bool)
      requires Valid()
      modifies this`rt, this`demand
      ensures (Working(), heat, fan, controller) == Steer(old(Working()), i, sensorsOk, hot)
    {
      hide DriveJob;
      heat, fan, controller := false, false, false;
      if hot {
        rt := rt.(fault := HF.OVERTEMP);
      } else if !sensorsOk {
        rt := rt.(fault := HF.SENSOR_FAULT);
      } else if jobs.st.workOn && !jobs.st.userPaused && rt.targetC > 0 {
        heat, fan, controller := DriveController(i);
      }
    }

    method TrimRequests(heat: bool, fan: bool, controller: bool) returns (heat': bool, fan': bool)
      requires Valid()
      modifies this`demand
      ensures (Working(), heat', fan') == Trim(old(Working()), heat, fan, controller)
    {
      heat', fan' := heat, fan;
      if !controller {
        demand := false;
      }
      if jobs.st.mode.DryOut? && jobs.st.dryout.running {
        fan' := true;
      }
      if jobs.st.mode.HealthTest? && jobs.st.health.running {
        fan' := true;
        if jobs.st.health.phase.HealthPreFan? {
          heat' := false;
        }
      }
      if foldback {
        heat' := false;
      }
    }

    method Decide(i: TickIn) returns (heat: bool, fan: bool, controller: bool, sensorsOk: bool, hot: bool)
      requires Valid()
      modifies this`rt, this`foldback, this`demand, dev.fan
      ensures Valid() && Demand(Working(), heat, fan, controller, sensorsOk, hot) == DecideDemand(old(Working()), i)
    {
      hide Refresh, Steer, Trim, UsableSensors, Overtemp;
      sensorsOk := UsableSensors(rt, SampleOf(i));
      hot := Overtemp(SampleOf(i), dev.board);
      RefreshDemand(i);
      heat, fan, controller := SteerJob(i, sensorsOk, hot);
      heat, fan := TrimRequests(heat, fan, controller);
    }

    // -------------------------------------------------------------- main/safety.c:1295-1346

    method RememberZeroCross(stats: Stats) returns (session: bool, lost: bool)
      modifies this`zcSeen, this`zcGaps
      ensures session == ZcSession(jobs.st, rt.targetC)
      ensures var seen := session && old(zcSeen);
              && lost == (session && seen && (!stats.present || stats.gaps != old(zcGaps)))
              && zcGaps == stats.gaps && zcSeen == (session && (seen || stats.present))
    {
      session := jobs.st.latchArmed || (jobs.st.workOn && rt.targetC > 0);
      if !session {
        zcSeen := false;
      }
      lost := session && zcSeen && (!stats.present || stats.gaps != zcGaps);
      zcGaps := stats.gaps;
      if session && stats.present {
        zcSeen := true;
      }
    }

    method LookAtZeroCross(i: TickIn) returns (session: bool, present: bool, lost: bool)
      requires Valid()
      modifies this`zcSeen, this`zcGaps, dev.fan
      ensures Valid() && ZeroCross(Working(), session, present, lost) == ReadZeroCross(old(Working()), i)
    {
      hide AfterEdges, StatsAt, ZcSession;
      Interrupts(i.zcEdges);
      var stats := dev.fan.ZeroCrossStats(i.zcUs);
      session, lost := RememberZeroCross(stats);
      present := stats.present;
    }

    method UpdateRiseDetector(controller: bool, nowMs: int)
      modifies this`rt
      ensures rt == DetectRise(old(rt), controller, nowMs)
    {
      if !Warming(rt, controller) {
        rt := rt.(rise := rt.rise.(active := false));
        return;
      }
      var r := rt.rise;
      if !r.active {
        rt := rt.(rise := Rise(true, nowMs, nowMs + RISE_WINDOW_MS, rt.ptc, rt.chamber));
        return;
      }
      if nowMs - r.startedMs < RISE_DELAY_MS || nowMs < r.checkDueMs {
        return;
      }
      if rt.ptc.Deg? && r.startPtc.Deg? && rt.ptc.c - r.startPtc.c < MIN_PTC_RISE_C &&
         rt.chamber.Deg? && r.startChamber.Deg? && rt.chamber.c - r.startChamber.c < MIN_CHAMBER_RISE_C {
        rt := rt.(fault := HF.NO_RISE, rise := r.(active := false));
        return;
      }
      rt := rt.(rise := Rise(true, nowMs, nowMs + RISE_WINDOW_MS, rt.ptc, rt.chamber));
    }

    /** What is reported, what drives the fan, what counts as a hazard. */
    method JudgeRuntime(wanted: bool, air: bool, controller: bool, armed: bool, lost: bool, nowMs: int)
      returns (heat: bool, fan: bool, hazard: bool)
      modifies this`rt
      ensures var fault := LossFault(old(rt).fault, lost);
              && rt == DetectRise(old(rt).(fault := fault), controller, nowMs)
              && heat == (wanted && rt.fault == HF.OK) && fan == FaultAirflow(air, fault, armed)
              && hazard == Hazardous(rt.fault, lost, armed)
    {
      hide DetectRise, LossFault, FaultAirflow, Hazardous;
      rt := rt.(fault := LossFault(rt.fault, lost));
      fan := FaultAirflow(air, rt.fault, armed);
      UpdateRiseDetector(controller, nowMs);
      heat := wanted && rt.fault == HF.OK;
      hazard := Hazardous(rt.fault, lost, armed);
    }

    method Judge(wanted: bool, air: bool, controller: bool, i: TickIn)
      returns (heat: bool, fan: bool, session: bool, present: bool, lost: bool, hazard: bool)
      requires Valid()
      modifies this`rt, this`zcSeen, this`zcGaps, dev.fan
      ensures Valid()
      ensures FaultStage(Working(), heat, fan, session, present, lost, hazard)
              == FaultsOf(old(Working()), wanted, air, controller, i)
    {
      hide ReadZeroCross, DetectRise, LossFault, ActiveOrArmed, FaultAirflow, Hazardous;
      var armed := IsActiveOrArmed();
      session, present, lost := LookAtZeroCross(i);
      heat, fan, hazard := JudgeRuntime(wanted, air, controller, armed, lost, i.nowUs / 1000);
    }

    method IsActiveOrArmed() returns (armed: bool)
      requires Valid()
      ensures armed == ActiveOrArmed(Working())
    {
      var st := jobs.st;
      armed := st.workOn || st.latchArmed || st.preheat.running || st.drying.running || st.dryout.running ||
               st.health.running || st.keepWarm.active || st.pickup || rt.heaterOn;
    }

    // -------------------------------------------------------------- main/safety.c:1347-1368

    /** A hazard trips the latch once; the SSR is cut before the trip. */
    method TripOnHazard(ghost f: FaultStage, hazard: bool) returns (tripped: bool)
      requires Valid() && Working() == f.pass && hazard == f.hazard
      modifies this`rt, dev`ssrPin, dev`rt, dev.latch
      ensures Valid() && Working() == AfterTrip(f) && tripped == Trips(f)
    {
      hide AfterDeferTrip;
      tripped := hazard && !dev.latch.latched;
      if tripped {
        dev.TripDeferred(rt.fault);
        rt := rt.(heaterOn := false);
      }
    }

    method TakeClearRequest(present: bool, sensorsOk: bool, hot: bool) returns (clear: bool)
      requires Valid()
      modifies dev.latch
      ensures Valid() && clear == ControlTick.Arms(old(Working()), present, sensorsOk, hot)
      ensures Working() == TakeClear(old(Working()), clear)
    {
      var requested := dev.latch.TakeClearRequest();
      clear := !dev.latch.inhibited && requested && !jobs.st.workOn && sensorsOk &&
               (dev.latch.fault != HF.ZERO_CROSS_LOST || present) && !hot;
      if clear {
        dev.latch.DeferClear();
      }
    }

    method ReleaseOwner()
      requires Valid()
      modifies dev.arbiter
      ensures dev.View() == ReleaseOwned(old(dev.View()))
    {
      if dev.arbiter.ready && !dev.arbiter.owner.NoSource? {
        dev.arbiter.ReleaseAny();
      }
    }

    method HoldJob()
      requires Valid()
      modifies this`rt, jobs`st, dev.arbiter
      ensures Valid() && Working() == Hold(old(Working()))
    {
      hide ReleaseOwned, Stopped;
      if dev.latch.latched {
        rt := rt.(fault := dev.latch.fault);
        jobs.Stop();
        ReleaseOwner();
      }
    }

    method Consult(ghost f: FaultStage, hazard: bool, present: bool, sensorsOk: bool, hot: bool)
      returns (tripped: bool, armed: bool, latched: bool)
      requires Valid() && Working() == f.pass && hazard == f.hazard && present == f.present
      modifies this`rt, jobs`st, dev`ssrPin, dev`rt, dev.latch, dev.arbiter
      ensures Valid()
      ensures LatchStage(Working(), f.heat && !latched, f.fan || latched, tripped, armed, latched)
              == ConsultLatch(f, sensorsOk, hot)
    {
      hide AfterTrip, ControlTick.Arms, TakeClear, Hold;
      tripped := TripOnHazard(f, hazard);
      armed := dev.latch.latched;
      var clear := TakeClearRequest(present, sensorsOk, hot);
      armed := clear && armed;
      latched := dev.latch.latched;
      HoldJob();
    }

    // -------------------------------------------------------------- main/safety.c:1370-1431

    method UpdatePurge(heatMode: bool)
      requires Valid()
      modifies this`heated, this`purge
      ensures Working() == Purge(old(Working()), heatMode)
    {
      if heatMode {
        heated := true;
        purge := false;
      } else if heated {
        var release := Clamp(jobs.st.coolReleaseC, 30, 65);
        var chamberKnown := rt.chamberStatus.SensorOk? && rt.chamber.Deg?;
        var ptcKnown := rt.ptcStatus.SensorOk? && rt.ptc.Deg?;
        var confirmedCool := chamberKnown && rt.chamber.c < (release + 3) as real &&
                             ptcKnown && rt.ptc.c < (release + 3) as real;
        var bothCool := chamberKnown && rt.chamber.c < release as real && ptcKnown && rt.ptc.c < release as real;
        purge := if purge then !bothCool else !confirmedCool;
        if !purge {
          heated := false;
        }
      }
    }

    /** update_v14_setup_and_latch: armed is session intent, ready is what the sensors and zero cross allow. */
    method SetGate()
      modifies this`rt, jobs`st
      ensures (jobs.st, rt) == Gate(dev.View(), old(jobs.st), old(rt))
    {
      var allowed := dev.IsStartAllowed();
      var ready := rt.chamberStatus.SensorOk? && rt.ptcStatus.SensorOk? && rt.zeroCross &&
                   rt.chamberInstant.Deg? && rt.ptcInstant.Deg? && allowed;
      jobs.st := jobs.st.(latchEnabled := true, latchArmed := jobs.st.workOn && allowed);
      rt := rt.(gateReady := ready && jobs.st.workOn);
    }

    method UpdateGate(statsUs: int)
      requires Valid()
      modifies this`rt, jobs`st
      ensures Valid() && Working() == OpenGate(old(Working()), statsUs)
    {
      hide StatsAt, Gate;
      var stats := dev.fan.ZeroCrossStats(statsUs);
      rt := rt.(zeroCross := stats.present);
      SetGate();
    }

    method DropIdleOwner()
      requires Valid()
      modifies dev.arbiter
      ensures Valid() && Working() == ReleaseIdle(old(Working()))
    {
      hide ReleaseOwned;
      if !jobs.st.workOn && !jobs.st.schedule.enabled {
        ReleaseOwner();
      }
    }

    /** From the latch to the requests; `gated` is the state the heat request was judged in. */
    method Plan(heat: bool, fan: bool, controller: bool, i: TickIn)
      returns (heat': bool, fan': bool, heatMode: bool, ghost gated: Pass)
      requires Valid()
      modifies this`rt, this`heated, this`purge, jobs`st, dev.fan, dev.arbiter
      ensures Valid() && heatMode == (controller && !old(Working()).p.latch.latched)
      ensures gated == OpenGate(Interrupted(Purge(old(Working()), heatMode), i.statsEdges), i.statsUs)
      ensures Working() == ReleaseIdle(gated)
      ensures heat' == (heat && HeatAdmitted(gated))
      ensures fan' == (fan || gated.c.purge || heatMode || Faulted(gated.p))
    {
      hide Purge, Interrupted, OpenGate, ReleaseIdle, HeatAdmitted, Faulted;
      heatMode := controller && !dev.latch.latched;
      UpdatePurge(heatMode);
      Interrupts(i.statsEdges);
      UpdateGate(i.statsUs);
      gated := Working();
      heat', fan' := Gated(heat, fan || purge || heatMode);
      DropIdleOwner();
    }

    method Gated(heat: bool, fan: bool) returns (heat': bool, fan': bool)
      requires Valid()
      ensures heat' == (heat && HeatAdmitted(Working())) && fan' == (fan || Faulted(dev.View()))
    {
      var faulted := dev.latch.latched || dev.latch.inhibited;
      heat' := heat && rt.gateReady && !dev.maintenance && wdtArmed && !faulted && dev.prepared;
      fan' := fan || faulted;
    }

    /** The epoch-checked commit; losing it cuts the SSR and inhibits the device until power is cycled. */
    method CommitPass(ghost o: OutputStage, raced: bool, epoch: nat, ghost i: TickIn) returns (committed: bool)
      requires Valid() && dev.View() == o.p && jobs.st == o.st && rt == o.rt && raced == i.raced
      modifies dev`settings, dev`rt, dev`epoch, dev`ssrPin, dev.latch
      ensures Valid() && (dev.View(), committed) == Commit(o, i, epoch)
    {
      hide AfterCut, Inhibited, LimitTargets;
      if raced {
        dev.AdvanceEpoch();
      }
      committed := dev.CommitControlIfEpoch(jobs.st, rt, epoch);
      if !committed {
        GiveUp();
      }
    }

    method GiveUp()
      requires Valid()
      modifies dev`rt, dev`ssrPin, dev.latch
      ensures Valid() && dev.View() == Inhibited(AfterCut(old(dev.View())))
    {
      hide AfterCut, AfterInhibit;
      dev.CutPower();
      dev.latch.Inhibit();
    }

    method DriveOutputs(ghost o: OutputStage, heat: bool, fan: bool, committed: bool, i: TickIn)
      requires Valid() && heat == o.heat && fan == o.fan && jobs.st == o.st
      modifies dev`ssrPin, dev`rt, dev.fan
      ensures Valid() && dev.View() == Drive(old(dev.View()), o, committed, i)
    {
      hide AfterEdges, AfterHeaterSet, Interrupted;
      var request := heat && committed;
      if jobs.st.userPaused {
        request := false;
      }
      InterruptsOnDevice(i.setEdges);
      dev.HeaterSet(request, fan || !committed, i.setUs);
    }

    method InterruptsOnDevice(edges: seq<int>)
      requires Valid()
      modifies dev.fan
      ensures Valid() && dev.View() == old(dev.View()).(fan := AfterEdges(old(dev.View()).fan, edges))
    {
      hide AfterEdges;
      Interrupts(edges);
    }

    method ReadInputs(i: TickIn) returns (accepted: bool)
      requires Valid()
      modifies this`rt, this`contextEpoch, jobs, watch`sequence, dev`ssrPin, dev`rt, dev.arbiter
      ensures Valid() && accepted == SampleAccepted(old(Statics()).watch, i)
      ensures Working() == Sense(old(dev.View()), old(Statics()), i)
    {
      hide HandOver, Acquire, SampleAccepted;
      Snapshot();
      PassLease(i.nowUs);
      accepted := Admit(i);
    }

    method Observe(i: TickIn)
      requires Valid()
      modifies this`rt, this`contextEpoch, jobs, dev`ssrPin, dev`rt, dev.arbiter
      modifies watch, watch.raw, watch.suspectRaw, watch.stillUs, watch.onUs, watch.suspect
      ensures Valid() && Working() == Observed(old(dev.View()), old(Statics()), i)
    {
      hide Sense, ControlTick.RunJobs, RestWatch, StepWatch, Distrust, SampleAccepted;
      var accepted := ReadInputs(i);
      ReportJobs(i);
      RestFreezeWatch();
      var health := StepFreezeWatch(i, accepted);
      DistrustSensors(health);
    }

    /** Up to the latch: the requests of this pass and what it decided about the latch. */
    method Assess(i: TickIn)
      returns (heat: bool, fan: bool, controller: bool, ghost l: LatchStage, ghost f: FaultStage)
      requires Valid()
      modifies this, jobs, dev`ssrPin, dev`rt, dev.latch, dev.fan, dev.arbiter
      modifies watch, watch.raw, watch.suspectRaw, watch.stillUs, watch.onUs, watch.suspect
      ensures Valid() && Working() == l.pass && heat == l.heat && fan == l.fan
      ensures (l, f, controller) == Assessed(old(dev.View()), old(Statics()), i)
    {
      hide Observed, DecideDemand, FaultsOf, ConsultLatch;
      Observe(i);
      var sensorsOk, hot;
      heat, fan, controller, sensorsOk, hot := Decide(i);
      var session, present, lost, hazard;
      heat, fan, session, present, lost, hazard := Judge(heat, fan, controller, i);
      f := FaultStage(Working(), heat, fan, session, present, lost, hazard);
      var tripped, armed, latched := Consult(f, hazard, present, sensorsOk, hot);
      heat, fan := heat && !latched, fan || latched;
      l := LatchStage(Working(), heat, fan, tripped, armed, latched);
    }

    method PlanStage(ghost l: LatchStage, heat: bool, fan: bool, controller: bool, i: TickIn)
      returns (heat': bool, fan': bool, ghost o: OutputStage)
      requires Valid() && Working() == l.pass && heat == l.heat && fan == l.fan
      modifies this`rt, this`heated, this`purge, jobs`st, dev.fan, dev.arbiter
      ensures Valid() && o == PlanOutputs(l, controller, i)
      ensures dev.View() == o.p && jobs.st == o.st && rt == o.rt && heat' == o.heat && fan' == o.fan
      ensures Statics() == l.pass.c.(heated := o.heated, purge := o.purge)
    {
      hide PlanOutputs, HeatAdmitted, Faulted, OpenGate, Interrupted, Purge, ReleaseIdle;
      var heatMode;
      ghost var gated;
      heat', fan', heatMode, gated := Plan(heat, fan, controller, i);
      o := OutputStage(dev.View(), jobs.st, rt, heat', fan', heated, purge);
      PlanIs(l, controller, i, Working(), heat', fan');
    }

    /** The commit and the outputs of what was planned. */
    method Emit(ghost o: OutputStage, heat: bool, fan: bool, i: TickIn, epoch: nat)
      requires Valid() && dev.View() == o.p && jobs.st == o.st && rt == o.rt && heat == o.heat && fan == o.fan
      modifies dev, dev.latch, dev.fan
      ensures Valid()
      ensures var (p, committed) := Commit(o, i, epoch); dev.View() == Drive(p, o, committed, i)
    {
      hide Commit, Drive;
      var committed := CommitPass(o, i.raced, epoch, i);
      DriveOutputs(o, heat, fan, committed, i);
    }

    /** From the latch to the outputs. */
    method Finish(ghost l: LatchStage, ghost f: FaultStage, heat: bool, fan: bool, controller: bool, i: TickIn,
                  epoch: nat)
      requires Valid() && Working() == l.pass && heat == l.heat && fan == l.fan
      modifies this`rt, this`heated, this`purge, jobs`st, dev, dev.latch, dev.fan, dev.arbiter
      ensures Valid()
      ensures var o := Apply(l, f, controller, i, epoch); dev.View() == o.p && Statics() == o.c
    {
      hide Commit, Drive, PlanOutputs;
      var heat', fan';
      ghost var o;
      heat', fan', o := PlanStage(l, heat, fan, controller, i);
      Emit(o, heat', fan', i, epoch);
    }

    /** One iteration of the control loop: exactly the pass of the model. */
    method ControlPass(i: TickIn)
      requires Valid()
      modifies this, jobs, dev, dev.latch, dev.fan, dev.arbiter
      modifies watch, watch.raw, watch.suspectRaw, watch.stillUs, watch.onUs, watch.suspect
      ensures Valid()
      ensures var o := Tick(old(dev.View()), old(Statics()), i); dev.View() == o.p && Statics() == o.c
    {
      hide Assessed, Apply;
      var epoch := dev.epoch;
      var heat, fan, controller;
      ghost var l, f;
      heat, fan, controller, l, f := Assess(i);
      Finish(l, f, heat, fan, controller, i, epoch);
    }
  }

  /** The parts of planning put together; only the purge statics change. */
  lemma PlanIs(l: LatchStage, controller: bool, i: TickIn, e: Pass, heat: bool, fan: bool)
    requires var heatMode := controller && !l.pass.p.latch.latched;
             var gated := OpenGate(Interrupted(Purge(l.pass, heatMode), i.statsEdges), i.statsUs);
             && e == ReleaseIdle(gated) && heat == (l.heat && HeatAdmitted(gated))
             && fan == (l.fan || gated.c.purge || heatMode || Faulted(gated.p))
    ensures PlanOutputs(l, controller, i) == OutputStage(e.p, e.st, e.rt, heat, fan, e.c.heated, e.c.purge)
    ensures e.c == l.pass.c.(heated := e.c.heated, purge := e.c.purge)
  {
    hide AfterEdges, NextPurge, Gate, ReleaseOwned, HeatAdmitted, Faulted;
  }

  lemma WithJobsKeepsRt(a: Pass, ctx: AutoContext)
    ensures WithJobs(a, ctx).rt == a.rt && WithJobs(a, ctx).st == ctx.s
  {
  }
}
