/** When a schedule starts its preheat. */
module ScheduleGuarantees {
  import opened Common
  import opened PlantState
  import opened SafetyLatch
  import opened FanTriac
  import opened ControlLease
  import opened SensorWatch
  import opened Jobs
  import opened JobSession
  import opened ControlPlane
  import opened ControlTick
  import opened TickGuarantees
  import opened Conditions
  import opened HeatGuarantees
  import opened HazardGuarantees
  import opened CommandGuarantees
  import opened Firmware

  /** Nothing stands against a start, and the local job or the holder of a remote lease owns the device. */
  predicate MayBegin(p: Plant)
  {
    !Blocked(p) && (p.lease.owner.LocalJob? || (p.lease.owner in {Rest, Ble} && p.lease.id.Some?))
  }

  /** A remote lease that ran out while a schedule waits has passed to the local job by the time it is looked at. */
  lemma AllowanceIs(p: Plant, c: Ctl, i: TickIn)
    requires p.lease.ready && p.settings.schedule.enabled
    ensures EnvOf(p, c, i).scheduleAllowed <==> MayBegin(p)
  {
    hide Copied, Acquire, ReadSensors, SampleAccepted, AfterInhibit, Stopped, Sense;
    SenseParts(p, c, i);
    SenseFacts(p, c, i);
    HandOverReady(p, i.nowUs);
    HandOverIs(p, i.nowUs);
  }

  /** A schedule that is due, on a device that is not paused. */
  predicate Due(s: Settings, nowMs: int)
  {
    s.schedule.enabled && !s.userPaused && 0 < s.schedule.startMs <= nowMs
  }

  /** Nothing else is under way. */
  predicate Fresh(s: Settings)
  {
    !s.ramp.phase.RampActive? && !s.keepWarm.active && s.sessionStartedMs <= 0
  }

  /** The settings once the schedule has been looked at. */
  function Begun(c: AutoContext, e: TickEnv): Settings
  {
    AfterSchedule(AfterProfile(c.s, e.profile), e.scheduleAllowed, e.nowMs)
  }

  /** A preheat just begun. */
  predicate Preheating(s: Settings, targetC: int)
  {
    && s.workOn && !s.userPaused && s.mode.Preheat? && s.preheat.running && s.preheat.targetC == targetC
    && s.preheat.phase in {PreheatHeating, PreheatHolding} && !s.schedule.enabled && Fresh(s)
  }

  lemma ScheduleBegins(c: AutoContext, e: TickEnv)
    requires Due(c.s, e.nowMs)
    ensures e.scheduleAllowed && Fresh(c.s) ==>
              && Preheating(Begun(c, e), Bounded(c.s.schedule.targetC))
              && Begun(c, e).preheat.phase.PreheatHeating?
    ensures !e.scheduleAllowed ==> NoJob(Begun(c, e))
  {
  }

  lemma PreheatingGoesOn(s: Settings, t: int, chamber: Temp, nowMs: int)
    requires Preheating(s, t) && s.preheat.phase.PreheatHeating? && 0 <= t <= 55
    ensures var (a, done) := AfterPreheat(s, chamber, nowMs); Preheating(a, t) && !done
  {
  }

  lemma OthersLeavePreheat(s: Settings, t: int, c: AutoContext, e: TickEnv)
    requires Preheating(s, t)
    ensures Preheating(AfterPausePolicy(s, e.printer, c.seen, e.nowMs), t)
    ensures AfterPausePolicy(s, e.printer, c.seen, e.nowMs).preheat == s.preheat
    ensures AfterDryout(s, e.nowMs) == (s, false) && AfterHealth(s, e.rt, e.nowMs) == (s, false)
    ensures AfterAutoContext(c.(s := s), e.printer, e.nowMs).s == s
    ensures forall seen :: AfterTempering(s, seen, e.nowMs).0 == s
  {
  }

  lemma PreheatIsConcluded(a: AutoContext, t: int, nowMs: int)
    requires Preheating(a.s, t)
    ensures var s := Conclude(a, false, false, false, nowMs).ctx.s;
            s.workOn && s.mode.Preheat? && s.preheat.running && s.preheat.targetC == t && !s.schedule.enabled
            && !s.ramp.phase.RampActive? && !s.keepWarm.active && !s.userPaused
  {
  }

  lemma NoJobRests(s: Settings, c: AutoContext, e: TickEnv)
    requires NoJob(s)
    ensures NoJob(AfterPausePolicy(s, e.printer, c.seen, e.nowMs))
    ensures var (a, done) := AfterPreheat(s, e.rt.chamber, e.nowMs); NoJob(a) && !done
    ensures AfterDryout(s, e.nowMs) == (s, false) && AfterHealth(s, e.rt, e.nowMs) == (s, false)
    ensures AfterAutoContext(c.(s := s), e.printer, e.nowMs).s == s
    ensures forall seen :: AfterTempering(s, seen, e.nowMs).0 == s
  {
  }

  lemma RestIsConcluded(a: AutoContext, nowMs: int)
    requires NoJob(a.s)
    ensures NoJob(Conclude(a, false, false, false, nowMs).ctx.s)
  {
  }

  lemma DueStarts(c: AutoContext, e: TickEnv)
    requires Due(c.s, e.nowMs)
    ensures var s := AfterJobs(c, e).ctx.s;
            && (e.scheduleAllowed && Fresh(c.s) ==>
                  && s.workOn && s.mode.Preheat? && s.preheat.running && !s.schedule.enabled && !s.userPaused
                  && s.preheat.targetC == Bounded(c.s.schedule.targetC) == SetPointOf(s))
            && (!e.scheduleAllowed ==> NoJob(s))
  {
    hide AfterSchedule, AfterProfile, AfterPausePolicy, AfterPreheat, AfterDryout, AfterHealth, AfterAutoContext,
         AfterTempering, Conclude, Preheating, NoJob, Fresh;
    var t := Bounded(c.s.schedule.targetC);
    var s1 := Begun(c, e);
    ScheduleBegins(c, e);
    var s2 := AfterPausePolicy(s1, e.printer, c.seen, e.nowMs);
    var s3 := AfterPreheat(s2, e.rt.chamber, e.nowMs).0;
    if !e.scheduleAllowed {
      NoJobRests(s1, c, e);
      NoJobRests(s2, c, e);
      NoJobRests(s3, c, e);
      RestIsConcluded(AfterUnpaused(c, e).0, e.nowMs);
    } else if Fresh(c.s) {
      OthersLeavePreheat(s1, t, c, e);
      PreheatingGoesOn(s2, t, e.rt.chamber, e.nowMs);
      OthersLeavePreheat(s3, t, c, e);
      PreheatIsConcluded(AfterUnpaused(c, e).0, t, e.nowMs);
    }
  }

  /**
   * A schedule that is due starts its preheat, at its own target, in the next pass if somebody who may owns the device
   * and nothing stands against a start; if not, that pass leaves no job of any kind.
   */
  lemma DueScheduleStarts(p: Plant, c: Ctl, i: TickIn)
    requires p.lease.ready && Due(p.settings, i.NowMs())
    ensures var s := JobOf(p, c, i).s;
            && (MayBegin(p) && Fresh(p.settings) ==>
                  && s.workOn && s.mode.Preheat? && s.preheat.running && !s.schedule.enabled && !s.userPaused
                  && s.preheat.targetC == Bounded(p.settings.schedule.targetC) == SetPointOf(s))
            && (!MayBegin(p) ==> NoJob(s))
  {
    hide AfterJobs, Sense, MayBegin, NoJob, Fresh, SetPointOf, ScheduleAllowed;
    AllowanceIs(p, c, i);
    SenseFacts(p, c, i);
    JobIs(p, c, i);
    DueStarts(ContextOf(p, c, i), EnvOf(p, c, i));
  }
}
