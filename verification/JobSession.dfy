/** The session watchdog of the job logic, main/safety.c:428-455: when exactly it ends a session. */
module JobSession {
  import opened Common
  import opened PlantState
  import opened Jobs

  predicate ValidSensors(rt: Runtime) { rt.chamberStatus.SensorOk? && rt.ptcStatus.SensorOk? }

  /** The session of s has lasted for its configured minutes, at most 720. */
  predicate SessionOver(s: Settings, nowMs: int)
  {
    s.sessionStartedMs > 0 && nowMs - s.sessionStartedMs >= SessionLimitMs(s)
  }

  /** The session of s goes on in a, or it is over for good. */
  predicate SessionKept(s: Settings, a: Settings)
  {
    && !a.userPaused && a.sessionMaxMin == s.sessionMaxMin
    && (a.sessionStartedMs == s.sessionStartedMs || (!a.workOn && !a.dryout.running))
  }

  lemma ProfileKeepsSession(s: Settings, profile: Option<Profile>)
    ensures var a := AfterProfile(s, profile);
            && a.userPaused == s.userPaused && a.sessionMaxMin == s.sessionMaxMin
            && a.sessionStartedMs == s.sessionStartedMs
  {
    hide ClampTarget;
  }

  lemma ScheduleKeepsSession(s: Settings, env: TickEnv)
    requires !s.userPaused
    ensures SessionKept(s, AfterSchedule(s, env.scheduleAllowed, env.nowMs))
  {
    hide ClampTarget;
  }

  lemma PausePolicyKeepsSession(s0: Settings, c: AutoContext, env: TickEnv)
    requires SessionKept(s0, c.s)
    ensures SessionKept(s0, AfterPausePolicy(c.s, env.printer, c.seen, env.nowMs))
  {
  }

  lemma PreheatKeepsSession(s0: Settings, s: Settings, env: TickEnv)
    requires SessionKept(s0, s)
    ensures var (a, done) := AfterPreheat(s, env.rt.chamber, env.nowMs);
            SessionKept(s0, a) && (done ==> !a.workOn && !a.mode.DryOut?)
  {
  }

  lemma DryoutKeepsSession(s0: Settings, s: Settings, env: TickEnv)
    requires SessionKept(s0, s)
    ensures var (a, done) := AfterDryout(s, env.nowMs);
            SessionKept(s0, a) && (done ==> !a.workOn) && (!s.mode.DryOut? ==> a == s)
  {
  }

  lemma HealthKeepsSession(s0: Settings, s: Settings, env: TickEnv)
    requires SessionKept(s0, s)
    ensures var (a, done) := AfterHealth(s, env.rt, env.nowMs);
            SessionKept(s0, a) && (done && ValidSensors(env.rt) ==> !a.workOn) && (!s.workOn ==> !a.workOn)
  {
  }

  lemma AutoContextKeepsSession(s0: Settings, c: AutoContext, env: TickEnv)
    requires SessionKept(s0, c.s)
    ensures var a := AfterAutoContext(c, env.printer, env.nowMs).s;
            SessionKept(s0, a) && (!c.s.workOn ==> !a.workOn)
  {
  }

  lemma TemperingKeepsSession(s0: Settings, c: AutoContext, env: TickEnv)
    requires SessionKept(s0, c.s)
    ensures var a := AfterTempering(c.s, c.seen, env.nowMs).0;
            SessionKept(s0, a) && (!c.s.workOn ==> !a.workOn)
  {
  }

  lemma UnpausedKeepsSession(c: AutoContext, env: TickEnv)
    requires !c.s.userPaused
    ensures var (a, preheated, driedOut, tested) := AfterUnpaused(c, env);
            && SessionKept(c.s, a.s)
            && (preheated || driedOut || (tested && ValidSensors(env.rt)) ==> !a.s.workOn)
  {
    hide AfterSchedule, AfterProfile, AfterPausePolicy, AfterPreheat, AfterDryout, AfterHealth, AfterAutoContext,
         AfterTempering;
    ProfileKeepsSession(c.s, env.profile);
    ScheduleKeepsSession(AfterProfile(c.s, env.profile), env);
    var s1 := AfterSchedule(AfterProfile(c.s, env.profile), env.scheduleAllowed, env.nowMs);
    PausePolicyKeepsSession(c.s, c.(s := s1), env);
    var s2 := AfterPausePolicy(s1, env.printer, c.seen, env.nowMs);
    PreheatKeepsSession(c.s, s2, env);
    var s3 := AfterPreheat(s2, env.rt.chamber, env.nowMs).0;
    DryoutKeepsSession(c.s, s3, env);
    var s4 := AfterDryout(s3, env.nowMs).0;
    HealthKeepsSession(c.s, s4, env);
    var s5 := AfterHealth(s4, env.rt, env.nowMs).0;
    AutoContextKeepsSession(c.s, c.(s := s5), env);
    var a := AfterAutoContext(c.(s := s5), env.printer, env.nowMs);
    TemperingKeepsSession(c.s, a, env);
  }

  /** In a tick that is not past the session, the session clock of a working job runs on, or starts now. */
  function SessionClock(startedMs: int, nowMs: int): int { if startedMs > 0 then startedMs else nowMs }

  /** The session s, a tick later: same limit, same clock, and not over. */
  predicate InSession(s: Settings, before: Settings, nowMs: int)
  {
    && s.sessionStartedMs == SessionClock(before.sessionStartedMs, nowMs)
    && SessionLimitMs(s) == SessionLimitMs(before) && nowMs - s.sessionStartedMs < SessionLimitMs(before)
  }

  lemma LimitIsStable(s: Settings)
    ensures SessionLimitMs(s.(sessionMaxMin := SessionLimitMs(s) / MINUTE_MS)) == SessionLimitMs(s)
  {
  }

  /** The watchdog ends work exactly when the session is over. */
  lemma WatchdogIsExact(s: Settings, nowMs: int)
    requires s.workOn
    ensures var (t, expired) := AfterSessionWatchdog(s, nowMs);
            && expired == SessionOver(s, nowMs) && t.workOn == !expired
            && (!expired ==> InSession(t, s, nowMs))
  {
    LimitIsStable(s);
  }

  lemma ConcludeBounds(a: AutoContext, preheated: bool, driedOut: bool, tested: bool, nowMs: int)
    requires nowMs > 0 && (preheated || driedOut || tested ==> !a.s.workOn)
    ensures var after := Conclude(a, preheated, driedOut, tested, nowMs);
            after.ctx.s.workOn ==> a.s.workOn && InSession(after.ctx.s, a.s, nowMs)
  {
    hide AfterSessionWatchdog, InSession;
    if a.s.workOn {
      WatchdogIsExact(a.s, nowMs);
    } else {
      NoWorkNoSession(a.s, nowMs);
    }
  }

  lemma NoWorkNoSession(s: Settings, nowMs: int)
    requires !s.workOn
    ensures !AfterSessionWatchdog(s, nowMs).0.workOn
  {
  }

  /** With valid sensors a tick that leaves work on is inside the session, whatever job it ran. */
  lemma TickIsInSession(c: AutoContext, env: TickEnv)
    requires env.nowMs > 0 && ValidSensors(env.rt)
    ensures var a := AfterJobs(c, env).ctx.s; a.workOn ==> InSession(a, c.s, env.nowMs)
  {
    hide AfterUnpaused, Conclude;
    if c.s.userPaused {
      ConcludeBounds(c, false, false, false, env.nowMs);
    } else {
      UnpausedKeepsSession(c, env);
      var (a, preheated, driedOut, tested) := AfterUnpaused(c, env);
      ConcludeBounds(a, preheated, driedOut, tested, env.nowMs);
    }
  }

  // ---------------------------------------------------------------- what the job steps leave alone

  /** The fields no job step writes. */
  predicate SameSetup(s: Settings, a: Settings)
  {
    && a.coolReleaseC == s.coolReleaseC && a.ptcCutoffC == s.ptcCutoffC && a.latchEnabled == s.latchEnabled
    && a.bedTriggerC == s.bedTriggerC
  }

  lemma ProfileKeepsSetup(s: Settings, profile: Option<Profile>)
    ensures var a := AfterProfile(s, profile);
            SameSetup(s, a) && a.latchArmed == s.latchArmed && a.schedule == s.schedule
  {
    hide ClampTarget;
  }

  lemma ScheduleKeepsSetup(s: Settings, env: TickEnv)
    ensures var a := AfterSchedule(s, env.scheduleAllowed, env.nowMs);
            SameSetup(s, a) && (!s.schedule.enabled ==> a.latchArmed == s.latchArmed)
  {
    hide ScheduledStart;
    ScheduledStartKeepsSetup(s);
  }

  lemma ScheduledStartKeepsSetup(s: Settings)
    ensures SameSetup(s, ScheduledStart(s))
  {
    hide ClampTarget;
  }

  lemma PauseKeepsSetup(s: Settings, seen: bool, env: TickEnv)
    ensures var a := AfterPausePolicy(s, env.printer, seen, env.nowMs); SameSetup(s, a) && a.latchArmed == s.latchArmed
  {
  }

  lemma PreheatKeepsSetup(s: Settings, env: TickEnv)
    ensures var a := AfterPreheat(s, env.rt.chamber, env.nowMs).0; SameSetup(s, a) && a.latchArmed == s.latchArmed
  {
    hide ClampTarget;
  }

  lemma DryoutKeepsSetup(s: Settings, env: TickEnv)
    ensures var a := AfterDryout(s, env.nowMs).0; SameSetup(s, a) && a.latchArmed == s.latchArmed
  {
  }

  lemma HealthKeepsSetup(s: Settings, env: TickEnv)
    ensures var a := AfterHealth(s, env.rt, env.nowMs).0; SameSetup(s, a) && a.latchArmed == s.latchArmed
  {
    hide Rose;
  }

  lemma PrintEndKeepsSetup(s: Settings, seen: bool, nowMs: int)
    ensures var a := AfterPrintEnd(s, seen, nowMs).0; SameSetup(s, a) && a.latchArmed == s.latchArmed
  {
    hide ClampTarget;
  }

  lemma AutoKeepsSetup(c: AutoContext, env: TickEnv)
    ensures var a := AfterAutoContext(c, env.printer, env.nowMs).s; SameSetup(c.s, a) && a.latchArmed == c.s.latchArmed
  {
    hide PrintJustEnded, AfterPrintEnd, IsPrinting, PrinterFresh;
    PrintEndKeepsSetup(c.s, true, env.nowMs);
    PrintEndKeepsSetup(c.s, c.seen, env.nowMs);
  }

  lemma TemperingKeepsSetup(s: Settings, seen: bool, env: TickEnv)
    ensures var a := AfterTempering(s, seen, env.nowMs).0; SameSetup(s, a) && a.latchArmed == s.latchArmed
  {
    hide RampLine;
  }

  lemma OutcomeKeepsSetup(s: Settings, preheated: bool, driedOut: bool, tested: bool, nowMs: int)
    ensures var a := Outcome(s, preheated, driedOut, tested, nowMs).0; SameSetup(s, a) && a.latchArmed == s.latchArmed
  {
    hide SessionLimitMs;
  }

  lemma UnpausedKeepsSetup(c: AutoContext, env: TickEnv)
    ensures var a := AfterUnpaused(c, env).0.s;
            SameSetup(c.s, a) && (!c.s.schedule.enabled ==> a.latchArmed == c.s.latchArmed)
  {
    hide AfterProfile, AfterSchedule, AfterPausePolicy, AfterPreheat, AfterDryout, AfterHealth, AfterAutoContext,
         AfterTempering;
    ProfileKeepsSetup(c.s, env.profile);
    ScheduleKeepsSetup(AfterProfile(c.s, env.profile), env);
    var s1 := AfterSchedule(AfterProfile(c.s, env.profile), env.scheduleAllowed, env.nowMs);
    PauseKeepsSetup(s1, c.seen, env);
    var s2 := AfterPausePolicy(s1, env.printer, c.seen, env.nowMs);
    PreheatKeepsSetup(s2, env);
    var s3 := AfterPreheat(s2, env.rt.chamber, env.nowMs).0;
    DryoutKeepsSetup(s3, env);
    var s4 := AfterDryout(s3, env.nowMs).0;
    HealthKeepsSetup(s4, env);
    var s5 := AfterHealth(s4, env.rt, env.nowMs).0;
    AutoKeepsSetup(c.(s := s5), env);
    var a := AfterAutoContext(c.(s := s5), env.printer, env.nowMs);
    TemperingKeepsSetup(a.s, a.seen, env);
  }

  /**
   * The job steps leave the setup alone; and the session flag, unless a pending schedule may not start and stops all.
   */
  lemma JobsKeepSetup(c: AutoContext, env: TickEnv)
    ensures var a := AfterJobs(c, env).ctx.s;
            SameSetup(c.s, a) && (!c.s.schedule.enabled ==> a.latchArmed == c.s.latchArmed)
  {
    hide AfterUnpaused, Outcome;
    if c.s.userPaused {
      OutcomeKeepsSetup(c.s, false, false, false, env.nowMs);
    } else {
      UnpausedKeepsSetup(c, env);
      var (u, preheated, driedOut, tested) := AfterUnpaused(c, env);
      OutcomeKeepsSetup(u.s, preheated, driedOut, tested, env.nowMs);
    }
  }
}
