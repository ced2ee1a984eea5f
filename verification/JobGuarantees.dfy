/** What the job steps of module Jobs guarantee over whole runs of ticks, pauses and resumes. */
module JobGuarantees {
  import opened Common
  import opened PlantState
  import opened Jobs
  import opened JobSession
  import HF = HeaterFaults

  // ---------------------------------------------------------------- the tempering ramp

  lemma FractionsGrow(x: real, y: real, d: real)
    requires 0.0 <= x <= y <= d && d > 0.0
    ensures 0.0 <= x / d <= y / d <= 1.0
  {
  }

  lemma ScaleFalls(k: real, x: real, y: real)
    requires k <= 0.0 && 0.0 <= x <= y <= 1.0
    ensures k <= k * y <= k * x <= 0.0
  {
    assert k * (y - x) <= 0.0;
    assert k * (1.0 - y) <= 0.0;
  }

  lemma LineFalls(startC: int, endC: int, startMs: int, endMs: int, early: int, late: int)
    requires endC <= startC && startMs <= early <= late < endMs
    ensures endC as real <= RampLine(startC, endC, startMs, endMs, late)
            <= RampLine(startC, endC, startMs, endMs, early) <= startC as real
  {
    var d := (endMs - startMs) as real;
    var x := (early - startMs) as real;
    var y := (late - startMs) as real;
    FractionsGrow(x, y, d);
    ScaleFalls((endC - startC) as real, x / d, y / d);
  }

  lemma CeilFalls(endC: int, low: real, high: real, startC: int)
    requires endC as real <= low <= high <= startC as real
    ensures endC <= Ceil(low) <= Ceil(high) <= startC
    ensures low <= Ceil(low) as real < low + 1.0
  {
  }

  /** The set-point the ramp r prescribes at time t. */
  function SetPoint(r: Ramp, t: int): int
    requires r.startMs < r.endMs
  {
    Ceil(RampLine(r.startC, r.endC, r.startMs, r.endMs, t))
  }

  lemma SetPointFalls(r: Ramp, early: int, late: int)
    requires r.endC <= r.startC && r.startMs <= early <= late < r.endMs
    ensures r.endC <= SetPoint(r, late) <= SetPoint(r, early) <= r.startC
    ensures var line := RampLine(r.startC, r.endC, r.startMs, r.endMs, late);
            line <= SetPoint(r, late) as real < line + 1.0
  {
    hide RampLine, Ceil;
    LineFalls(r.startC, r.endC, r.startMs, r.endMs, early, late);
    CeilFalls(r.endC, RampLine(r.startC, r.endC, r.startMs, r.endMs, late),
              RampLine(r.startC, r.endC, r.startMs, r.endMs, early), r.startC);
  }

  /** The ramp ends with the heater off and the end temperature as its last set-point. */
  lemma RampEnds(s: Settings, autoSeen: bool, nowMs: int)
    requires s.ramp.phase.RampActive? && nowMs >= s.ramp.endMs
    ensures var a := AfterTempering(s, autoSeen, nowMs).0;
            !a.workOn && a.ramp.phase.RampComplete? && a.ramp.currentC == s.ramp.endC
  {
  }

  /** A "temper now" start arms a cooling ramp of 1 to 240 minutes that begins at the clamped selected target. */
  lemma TemperNowArmsRamp(s: Settings, r: JobRequest, nowMs: int)
    requires ExplicitStart(r) && r.temperingNow
    ensures var a := AfterJobCommand(s, r, nowMs);
            && a.workOn && a.ramp.phase.RampActive? && a.mode.PowerOn?
            && 0 <= a.ramp.endC <= a.ramp.startC == a.ramp.currentC <= MAX_TARGET_C
            && MINUTE_MS <= a.ramp.endMs - nowMs <= 240 * MINUTE_MS && a.ramp.startMs == nowMs
            && EffectiveTarget(a) == a.ramp.startC
  {
  }

  // ---------------------------------------------------------------- pause and resume

  const PAUSE := JobRequest(None, None, Some(true), None, false)
  const RESUME := JobRequest(None, None, Some(false), None, false)

  /** A paused stretch is invisible to the ramp: later set-points equal the ones it would have had without the pause. */
  lemma PauseIsInvisibleToRamp(s: Settings, pausedAt: int, resumedAt: int, later: int)
    requires s.workOn && !s.userPaused && s.ramp.phase.RampActive? && 0 < s.ramp.startMs < s.ramp.endMs
    requires pausedAt <= resumedAt && 0 <= later
    ensures var paused := AfterJobCommand(s, PAUSE, pausedAt);
            var resumed := AfterJobCommand(paused, RESUME, resumedAt);
            && paused.userPaused && !resumed.userPaused
            && resumed.sessionStartedMs == s.sessionStartedMs
            && AfterTempering(resumed, true, resumedAt + later).0.ramp.currentC
               == AfterTempering(s, true, pausedAt + later).0.ramp.currentC
            && AfterTempering(resumed, true, resumedAt + later).0.workOn
               == AfterTempering(s, true, pausedAt + later).0.workOn
  {
  }

  // ---------------------------------------------------------------- job clocks over runs

  datatype JobEvent = TickAt(env: TickEnv) | PauseAt(atMs: int) | ResumeAt(atMs: int)
  {
    function TimeMs(): int { if TickAt? then env.nowMs else atMs }
  }

  function AfterEvent(c: AutoContext, e: JobEvent): JobTick
  {
    match e
    case TickAt(env) => AfterJobs(c, env)
    case PauseAt(t) => JobTick(c.(s := AfterJobCommand(c.s, PAUSE, t)), HF.OK)
    case ResumeAt(t) => JobTick(c.(s := AfterJobCommand(c.s, RESUME, t)), HF.OK)
  }

  /** Event k takes state k to state k + 1. */
  predicate Next(ts: seq<JobTick>, es: seq<JobEvent>, k: nat)
    requires |ts| == |es| + 1 && k < |es|
  {
    ts[k + 1] == AfterEvent(ts[k].ctx, es[k])
  }

  /** The job states, each with the outcome reported on the way there, that a sequence of events passes through. */
  predicate JobRun(ts: seq<JobTick>, es: seq<JobEvent>)
  {
    |ts| == |es| + 1 && forall k: nat {:trigger Next(ts, es, k)} :: k < |es| ==> Next(ts, es, k)
  }

  function TimeAt(startMs: int, es: seq<JobEvent>, k: nat): int
    requires k <= |es|
  {
    if k == 0 then startMs else es[k - 1].TimeMs()
  }

  /** Wall time minus paused time from the start of the run to its k-th event. */
  function UnpausedMs(ts: seq<JobTick>, startMs: int, es: seq<JobEvent>, k: nat): int
    requires |ts| == |es| + 1 && k <= |es|
  {
    if k == 0 then 0
    else
      UnpausedMs(ts, startMs, es, k - 1) +
      if ts[k - 1].ctx.s.userPaused then 0 else TimeAt(startMs, es, k) - TimeAt(startMs, es, k - 1)
  }

  predicate InOrder(startMs: int, es: seq<JobEvent>)
  {
    0 < startMs && forall k :: 0 < k <= |es| ==> TimeAt(startMs, es, k - 1) <= TimeAt(startMs, es, k)
  }

  datatype Job = Dry | Hold | DryOutCycle | RampDown | Test | Warm

  predicate Running(j: Job, s: Settings)
  {
    && s.workOn
    && match j
       case Dry => s.mode.Drying? && s.drying.running && s.drying.endMs > 0
       case Hold => s.mode.Preheat? && s.preheat.running && s.preheat.phase.PreheatHolding? && s.preheat.endMs > 0
       case DryOutCycle => s.mode.DryOut? && s.dryout.running && s.dryout.endMs > 0
       case RampDown => s.ramp.phase.RampActive? && s.ramp.minutes > 0 && 0 < s.ramp.startMs < s.ramp.endMs
       case Test =>
         s.mode.HealthTest? && s.health.running && (s.health.phase.HealthPreFan? || s.health.phase.HealthHeating?) &&
         s.health.startMs > 0
       case Warm => s.mode.Auto? && s.keepWarm.active && s.keepWarm.endMs > 0
  }

  function EndOf(j: Job, s: Settings): int
  {
    match j
    case Dry => s.drying.endMs
    case Hold => s.preheat.endMs
    case DryOutCycle => s.dryout.endMs
    case RampDown => s.ramp.endMs
    case Test => s.health.startMs + s.health.seconds * 1000
    case Warm => s.keepWarm.endMs
  }

  /** What shu1_settings_stop followed by an explicit start leaves: no schedule, and only this job's flags. */
  predicate Sole(j: Job, s: Settings)
  {
    && !s.schedule.enabled
    && (s.userPaused ==> s.userPauseStartedMs > 0)
    && match j
       case Dry => s.mode.Drying? && !s.ramp.phase.RampActive?
       case Hold =>
         s.mode.Preheat? && !s.ramp.phase.RampActive? &&
         (s.preheat.running ==> s.preheat.phase.PreheatHolding? && s.preheat.endMs > 0)
       case DryOutCycle => s.mode.DryOut? && !s.ramp.phase.RampActive? && (s.dryout.running ==> s.dryout.endMs > 0)
       case RampDown =>
         s.mode.PowerOn? ||
         (s.mode.Auto? && s.finish.FinishTempering? && s.ramp.enabled && !s.keepWarm.active &&
          (s.workOn ==> s.ramp.phase.RampActive?))
       case Test =>
         s.mode.HealthTest? && !s.ramp.phase.RampActive? && 30 <= s.health.seconds <= 300 &&
         (s.health.running ==> (s.health.phase.HealthPreFan? || s.health.phase.HealthHeating?) && s.health.startMs > 0)
       case Warm =>
         s.mode.Auto? && !s.ramp.phase.RampActive? && (s.keepWarm.active ==> s.keepWarm.endMs > 0)
  }

  /** The stop-after policy fires: an AUTO job whose printer has been paused or in error for the configured minutes. */
  predicate PauseStops(s: Settings, p: Printer, autoSeen: bool, nowMs: int)
  {
    PauseHeld(s, p, autoSeen) && PauseExpires(s.pause, nowMs)
  }

  /**
   * Nothing outside the clock ends the job in this tick: no stop by the printer-pause policy, no sensor fault in a
   * health test, no new end of print for keep-warm. A tick of a paused job disturbs nothing.
   */
  predicate Undisturbed(j: Job, c: AutoContext, env: TickEnv)
  {
    || c.s.userPaused
    || (&& !PauseStops(c.s, env.printer, c.seen, env.nowMs)
        && match j
           case Test => env.rt.chamberStatus.SensorOk? && env.rt.ptcStatus.SensorOk?
           case Warm => !PrintJustEnded(c, env.printer, env.nowMs)
           case _ => true)
  }

  /** Un-paused time the job still has at time t. */
  function Left(j: Job, s: Settings, t: int): int
  {
    EndOf(j, s) - if s.userPaused then s.userPauseStartedMs else t
  }

  // ---------------------------------------------------------------- what each clock starts with

  /** Job j has just been given exactly `ms` of un-paused time. */
  predicate Given(j: Job, s: Settings, nowMs: int, ms: int) { Running(j, s) && Left(j, s, nowMs) == ms }

  lemma DryingStarts(s: Settings, r: JobRequest, nowMs: int)
    requires ExplicitStart(r) && r.dryingMin.Some? && !r.temperingNow && nowMs > 0
    requires s.mode.Drying? && s.drying.running && !s.userPaused
    ensures var minutes := Min(Max(r.dryingMin.value, 1), SessionLimitMs(s) / MINUTE_MS);
            Given(Dry, AfterJobCommand(s, r, nowMs), nowMs, minutes * MINUTE_MS)
  {
  }

  lemma HoldStarts(s: Settings, chamber: Temp, nowMs: int)
    requires s.workOn && s.mode.Preheat? && s.preheat.running && !s.preheat.phase.PreheatHolding? && nowMs > 0
    requires !s.userPaused && chamber.AtLeast(ClampTarget(s.preheat.targetC) as real - PREHEAT_BAND_C)
    ensures Given(Hold, AfterPreheat(s, chamber, nowMs).0, nowMs, Clamp(s.preheat.holdMin, 1, 240) * MINUTE_MS)
  {
  }

  lemma DryoutStarts(s: Settings, nowMs: int)
    requires s.mode.DryOut? && s.dryout.running && s.dryout.endMs <= 0 && !s.userPaused && nowMs > 0
    ensures Given(DryOutCycle, AfterDryout(s, nowMs).0, nowMs, Clamp(s.dryout.minutes, 1, 240) * MINUTE_MS)
  {
  }

  lemma TestStarts(s: Settings, rt: Runtime, nowMs: int)
    requires s.workOn && s.mode.HealthTest? && s.health.running && s.health.phase.HealthIdle? && !s.userPaused
    requires rt.chamberStatus.SensorOk? && rt.ptcStatus.SensorOk? && nowMs > 0
    ensures Given(Test, AfterHealth(s, rt, nowMs).0, nowMs, Clamp(s.health.seconds, 30, 300) * 1000)
  {
  }

  /** A print of an AUTO job has just ended: keep-warm gets its configured minutes. */
  lemma WarmStarts(c: AutoContext, p: Printer, nowMs: int)
    requires c.s.workOn && c.s.mode.Auto? && !c.s.userPaused && PrintJustEnded(c, p, nowMs) && nowMs > 0
    requires c.s.finish.FinishKeepWarm? && c.s.keepWarm.minutes > 0
    ensures Given(Warm, AfterAutoContext(c, p, nowMs).s, nowMs, c.s.keepWarm.minutes * MINUTE_MS)
  {
    hide PrintJustEnded;
  }

  /** A print of an AUTO job has just ended: the ramp gets its configured minutes, from the selected target. */
  lemma RampStarts(c: AutoContext, p: Printer, nowMs: int)
    requires c.s.workOn && c.s.mode.Auto? && !c.s.userPaused && PrintJustEnded(c, p, nowMs) && nowMs > 0
    requires c.s.finish.FinishTempering? && c.s.ramp.enabled && c.s.ramp.minutes > 0
    requires !c.s.ramp.phase.RampActive? && !c.s.keepWarm.active
    ensures var a := AfterAutoContext(c, p, nowMs).s;
            && Given(RampDown, a, nowMs, Min(c.s.ramp.minutes, 240) * MINUTE_MS)
            && a.ramp.currentC == a.ramp.startC == ClampTarget(c.s.targetC) && 0 <= a.ramp.endC <= a.ramp.startC
  {
  }

  lemma CommandKeepsJob(j: Job, s: Settings, r: JobRequest, t0: int, t: int)
    requires Sole(j, s) && r in {PAUSE, RESUME} && 0 < t0 <= t && (s.userPaused ==> s.userPauseStartedMs <= t0)
    ensures var a := AfterJobCommand(s, r, t);
            && Sole(j, a) && Running(j, a) == Running(j, s) && (a.userPaused ==> a.userPauseStartedMs <= t)
            && (Running(j, s) ==> Left(j, a, t) == Left(j, s, t0) - if s.userPaused then 0 else t - t0)
  {
  }

  /** One job step that leaves job j alone. */
  predicate Keeps(j: Job, s: Settings, a: Settings)
  {
    && Sole(j, a) && a.userPaused == s.userPaused
    && (Running(j, a) <==> Running(j, s)) && (Running(j, a) ==> EndOf(j, a) == EndOf(j, s))
  }

  /** One job step that ends job j exactly when its clock has passed. */
  predicate Ends(j: Job, s: Settings, a: Settings, nowMs: int)
  {
    && Sole(j, a) && a.userPaused == s.userPaused
    && (Running(j, a) <==> Running(j, s) && nowMs < EndOf(j, s)) && (Running(j, a) ==> EndOf(j, a) == EndOf(j, s))
  }

  lemma NoSchedule(s: Settings, allowed: bool, nowMs: int)
    requires !s.schedule.enabled
    ensures AfterSchedule(s, allowed, nowMs) == s
  {
  }

  lemma ProfileKeeps(j: Job, s: Settings, p: Profile)
    requires Sole(j, s)
    ensures Keeps(j, s, AfterProfile(s, Some(p)))
  {
  }

  lemma ScheduleKeeps(j: Job, s: Settings, env: TickEnv)
    requires Sole(j, s)
    ensures Keeps(j, s, AfterSchedule(AfterProfile(s, env.profile), env.scheduleAllowed, env.nowMs))
  {
    hide AfterSchedule, Sole, Running, EndOf;
    NoSchedule(AfterProfile(s, env.profile), env.scheduleAllowed, env.nowMs) by {
      SoleHasNoSchedule(j, s);
    }
    if env.profile.Some? {
      ProfileKeeps(j, s, env.profile.value);
    }
  }

  lemma SoleHasNoSchedule(j: Job, s: Settings)
    requires Sole(j, s)
    ensures !s.schedule.enabled
  {
  }

  /** What the printer-pause policy writes. */
  lemma PausePolicyFrame(s: Settings, autoSeen: bool, env: TickEnv)
    ensures var a := AfterPausePolicy(s, env.printer, autoSeen, env.nowMs);
            && a == s.(pause := a.pause, targetC := a.targetC, workOn := a.workOn)
            && a.workOn == (s.workOn && !PauseStops(s, env.printer, autoSeen, env.nowMs))
  {
    hide PauseHeld, PauseLowers, PauseExpires;
  }

  lemma PauseFieldsAreNotTheJob(j: Job, s: Settings, pause: PausePolicy, targetC: int)
    requires Sole(j, s)
    ensures Keeps(j, s, s.(pause := pause, targetC := targetC))
  {
  }

  lemma PausePolicyKeeps(j: Job, s: Settings, autoSeen: bool, env: TickEnv)
    requires Sole(j, s) && !PauseStops(s, env.printer, autoSeen, env.nowMs)
    ensures Keeps(j, s, AfterPausePolicy(s, env.printer, autoSeen, env.nowMs))
  {
    hide AfterPausePolicy, Sole, Running, EndOf, PauseStops;
    var a := AfterPausePolicy(s, env.printer, autoSeen, env.nowMs);
    PausePolicyFrame(s, autoSeen, env);
    PauseFieldsAreNotTheJob(j, s, a.pause, a.targetC);
  }

  /** The profile and the schedule step leave the pause policy of a sole job alone. */
  lemma SamePausePolicy(j: Job, s: Settings, env: TickEnv, autoSeen: bool)
    requires Sole(j, s)
    ensures var a := AfterSchedule(AfterProfile(s, env.profile), env.scheduleAllowed, env.nowMs);
            PauseStops(a, env.printer, autoSeen, env.nowMs) == PauseStops(s, env.printer, autoSeen, env.nowMs)
  {
    hide AfterSchedule, Sole;
    NoSchedule(AfterProfile(s, env.profile), env.scheduleAllowed, env.nowMs) by {
      SoleHasNoSchedule(j, s);
    }
  }

  lemma HealthEnds(j: Job, s: Settings, env: TickEnv)
    requires Sole(j, s) && !s.userPaused
    requires j.Test? ==> env.rt.chamberStatus.SensorOk? && env.rt.ptcStatus.SensorOk?
    ensures var (a, done) := AfterHealth(s, env.rt, env.nowMs);
            && (if j.Test? then Ends(j, s, a, env.nowMs) else a == s)
            && (done ==> !Running(j, a))
  {
    hide Rose;
  }

  /** Print context changes by print reports; only a keep-warm job is ended here, by its own clock. */
  lemma AutoEnds(j: Job, c: AutoContext, env: TickEnv)
    requires Sole(j, c.s) && !c.s.userPaused && (j.Warm? ==> !PrintJustEnded(c, env.printer, env.nowMs))
    ensures var a := AfterAutoContext(c, env.printer, env.nowMs).s;
            if j.Warm? then Ends(j, c.s, a, env.nowMs) else a == c.s
  {
    hide PrintJustEnded;
  }

  lemma PreheatEnds(j: Job, s: Settings, env: TickEnv)
    requires Sole(j, s) && !s.userPaused
    ensures var (a, done) := AfterPreheat(s, env.rt.chamber, env.nowMs);
            && (if j.Hold? then Ends(j, s, a, env.nowMs) else Keeps(j, s, a))
            && (done ==> !Running(j, a))
  {
  }

  lemma DryoutEnds(j: Job, s: Settings, env: TickEnv)
    requires Sole(j, s) && !s.userPaused
    ensures var (a, done) := AfterDryout(s, env.nowMs);
            && (if j.DryOutCycle? then Ends(j, s, a, env.nowMs) else Keeps(j, s, a))
            && (done ==> !Running(j, a))
  {
  }

  lemma TemperingEnds(j: Job, s: Settings, autoSeen: bool, env: TickEnv)
    requires Sole(j, s) && !s.userPaused
    ensures var a := AfterTempering(s, autoSeen, env.nowMs).0;
            if j.RampDown? then Ends(j, s, a, env.nowMs) else a == s
  {
    hide RampLine, Ceil;
  }

  /** The job's own step ends it on time; every other step leaves it alone. */
  lemma UnpausedKeepsJob(j: Job, c: AutoContext, env: TickEnv)
    requires Sole(j, c.s) && !c.s.userPaused && env.nowMs > 0 && Undisturbed(j, c, env)
    ensures var (a, preheated, driedOut, tested) := AfterUnpaused(c, env);
            && (preheated || driedOut || tested ==> !Running(j, a.s))
            && (if j.Dry? then Keeps(j, c.s, a.s) else Ends(j, c.s, a.s, env.nowMs))
  {
    hide AfterSchedule, AfterProfile, AfterPausePolicy, AfterPreheat, AfterDryout, AfterHealth, AfterAutoContext,
         AfterTempering, PrintJustEnded, PauseStops, Running, EndOf, Sole;
    ScheduleKeeps(j, c.s, env);
    var s1 := AfterSchedule(AfterProfile(c.s, env.profile), env.scheduleAllowed, env.nowMs);
    SamePausePolicy(j, c.s, env, c.seen);
    PausePolicyKeeps(j, s1, c.seen, env);
    var s2 := AfterPausePolicy(s1, env.printer, c.seen, env.nowMs);
    PreheatEnds(j, s2, env);
    var s3 := AfterPreheat(s2, env.rt.chamber, env.nowMs).0;
    DryoutEnds(j, s3, env);
    var s4 := AfterDryout(s3, env.nowMs).0;
    HealthEnds(j, s4, env);
    var s5 := AfterHealth(s4, env.rt, env.nowMs).0;
    PrintEndIgnoresSettings(c, s5, env);
    AutoEnds(j, c.(s := s5), env);
    var a := AfterAutoContext(c.(s := s5), env.printer, env.nowMs);
    TemperingEnds(j, a.s, a.seen, env);
  }

  lemma PrintEndIgnoresSettings(c: AutoContext, s: Settings, env: TickEnv)
    ensures PrintJustEnded(c.(s := s), env.printer, env.nowMs) == PrintJustEnded(c, env.printer, env.nowMs)
  {
  }

  lemma WatchdogKeepsJob(j: Job, s: Settings, nowMs: int)
    requires Sole(j, s)
    ensures var (t, expired) := AfterSessionWatchdog(s, nowMs);
            && Sole(j, t) && (Running(j, t) ==> EndOf(j, t) == EndOf(j, s))
            && Running(j, t) == (Running(j, s) && !expired)
            && t.userPaused == s.userPaused && t.userPauseStartedMs == s.userPauseStartedMs
  {
    hide SessionLimitMs, Sole, Running, EndOf;
    var (t, expired) := AfterSessionWatchdog(s, nowMs);
    if expired {
      ExpiryStops(j, s, t);
    } else {
      var u := s.(sessionMaxMin := t.sessionMaxMin, sessionStartedMs := t.sessionStartedMs);
      assert t == u;
      SessionFieldsAreNotTheJob(j, s, t.sessionMaxMin, t.sessionStartedMs);
    }
  }

  lemma SessionFieldsAreNotTheJob(j: Job, s: Settings, maxMin: int, startedMs: int)
    requires Sole(j, s)
    ensures var t := s.(sessionMaxMin := maxMin, sessionStartedMs := startedMs);
            Sole(j, t) && EndOf(j, t) == EndOf(j, s) && Running(j, t) == Running(j, s)
  {
  }

  /** What the expired watchdog leaves of a sole job. */
  lemma ExpiryStops(j: Job, s: Settings, t: Settings)
    requires Sole(j, s) && !t.workOn && t.schedule == s.schedule && t.mode == s.mode && t.dryout == s.dryout
    requires t.userPaused == s.userPaused && t.userPauseStartedMs == s.userPauseStartedMs
    requires !t.preheat.running && t.ramp == s.ramp.(phase := RampIdle, endMs := 0)
    requires t.health == s.health && t.keepWarm == s.keepWarm && t.pause == s.pause && t.finish == s.finish
    ensures Sole(j, t) && !Running(j, t)
  {
  }

  lemma DryingKeepsJob(j: Job, s: Settings, nowMs: int)
    requires Sole(j, s)
    ensures var (t, expired) := AfterDrying(s, nowMs);
            && Sole(j, t) && (Running(j, t) ==> EndOf(j, t) == EndOf(j, s))
            && expired == DryingExpires(s, nowMs) && Running(j, t) == (Running(j, s) && !expired)
            && t.userPaused == s.userPaused && t.userPauseStartedMs == s.userPauseStartedMs
  {
  }

  lemma OutcomeKeepsJob(j: Job, s: Settings, preheated: bool, driedOut: bool, tested: bool, nowMs: int)
    requires Sole(j, s) && nowMs > 0
    requires preheated || driedOut || tested ==> !Running(j, s)
    ensures var (t, fault) := Outcome(s, preheated, driedOut, tested, nowMs);
            && Sole(j, t) && (Running(j, t) ==> Running(j, s) && EndOf(j, t) == EndOf(j, s))
            && t.userPaused == s.userPaused && t.userPauseStartedMs == s.userPauseStartedMs
            && (Running(j, s) ==>
                  (Running(j, t) <==> !(j.Dry? && !s.userPaused && nowMs >= s.drying.endMs) && !SessionOver(s, nowMs)))
  {
    hide AfterSessionWatchdog, AfterDrying, EndOf, SessionOver, InSession;
    if s.workOn {
      WatchdogIsExact(s, nowMs);
    }
    WatchdogKeepsJob(j, s, nowMs);
    DryingKeepsJob(j, s, nowMs);
  }

  lemma UnpausedKeepsPausedJob(j: Job, s: Settings)
    requires Sole(j, s)
    ensures var t := Unpaused(s);
            && Sole(j, t) && Running(j, t) == Running(j, s) && EndOf(j, t) == EndOf(j, s)
            && (Running(j, s) ==> t.userPaused == s.userPaused)
            && (t.userPaused ==> s.userPaused && t.userPauseStartedMs == s.userPauseStartedMs)
  {
  }

  lemma ConcludeKeepsJob(j: Job, a: AutoContext, preheated: bool, driedOut: bool, tested: bool, nowMs: int)
    requires Sole(j, a.s) && nowMs > 0
    requires preheated || driedOut || tested ==> !Running(j, a.s)
    ensures var after := Conclude(a, preheated, driedOut, tested, nowMs);
            var s := after.ctx.s;
            && Sole(j, s) && (Running(j, s) ==> Running(j, a.s))
            && (s.userPaused ==> a.s.userPaused && s.userPauseStartedMs == a.s.userPauseStartedMs)
            && (Running(j, s) ==> EndOf(j, s) == EndOf(j, a.s) && s.userPaused == a.s.userPaused)
            && (Running(j, a.s) ==>
                  (Running(j, s) <==> !(j.Dry? && !a.s.userPaused && nowMs >= a.s.drying.endMs)
                                      && !SessionOver(a.s, nowMs)))
  {
    hide Outcome, Unpaused, Sole, Running, EndOf, SessionOver;
    OutcomeKeepsJob(j, a.s, preheated, driedOut, tested, nowMs);
    UnpausedKeepsPausedJob(j, Outcome(a.s, preheated, driedOut, tested, nowMs).0);
  }

  lemma RunningWorks(j: Job, s: Settings)
    requires Running(j, s)
    ensures s.workOn
  {
  }

  lemma SameSessionOver(s: Settings, a: Settings, nowMs: int)
    requires a.sessionStartedMs == s.sessionStartedMs && a.sessionMaxMin == s.sessionMaxMin
    ensures SessionOver(a, nowMs) == SessionOver(s, nowMs)
  {
  }

  /** A tick ends the job exactly when its un-paused time is up, or when the session is over. */
  lemma TickKeepsJob(j: Job, c: AutoContext, env: TickEnv, t0: int)
    requires Sole(j, c.s) && 0 < t0 <= env.nowMs && (c.s.userPaused ==> c.s.userPauseStartedMs <= t0)
    requires Undisturbed(j, c, env)
    ensures var after := AfterJobs(c, env);
            var a := after.ctx.s;
            && Sole(j, a) && (a.userPaused ==> a.userPauseStartedMs <= env.nowMs)
            && (Running(j, a) ==> Running(j, c.s))
            && (Running(j, c.s) ==>
                  (Running(j, a) <==> (c.s.userPaused || Left(j, c.s, env.nowMs) > 0) && !SessionOver(c.s, env.nowMs)))
            && (Running(j, a) ==>
                  Left(j, a, env.nowMs) == Left(j, c.s, t0) - if c.s.userPaused then 0 else env.nowMs - t0)
  {
    hide AfterUnpaused, Conclude, SessionOver;
    if c.s.userPaused {
      ConcludeKeepsJob(j, c, false, false, false, env.nowMs);
    } else {
      UnpausedKeepsJob(j, c, env);
      UnpausedKeepsSession(c, env);
      var (a, preheated, driedOut, tested) := AfterUnpaused(c, env);
      if Running(j, a.s) {
        RunningWorks(j, a.s);
        SameSessionOver(c.s, a.s, env.nowMs);
      }
      ConcludeKeepsJob(j, a, preheated, driedOut, tested, env.nowMs);
    }
  }

  /** A run in time order, of job j from its start, with nothing outside its clock ending it before event k. */
  predicate JobStarts(j: Job, ts: seq<JobTick>, startMs: int, es: seq<JobEvent>, k: nat)
    requires |ts| == |es| + 1
  {
    var s := ts[0].ctx.s;
    && InOrder(startMs, es) && Sole(j, s) && Running(j, s) && (s.userPaused ==> s.userPauseStartedMs <= startMs)
    && forall i :: 0 <= i < k <= |es| && es[i].TickAt? ==> Undisturbed(j, ts[i].ctx, es[i].env)
  }

  /** Invariant of a run: while the job runs, its remaining time is its budget minus the un-paused time so far. */
  lemma {:induction false} BudgetIsSpent(j: Job, ts: seq<JobTick>, startMs: int, es: seq<JobEvent>, k: nat)
    requires JobRun(ts, es) && k <= |es| && JobStarts(j, ts, startMs, es, k)
    ensures var s := ts[k].ctx.s;
            && Sole(j, s) && 0 < TimeAt(startMs, es, k)
            && (s.userPaused ==> s.userPauseStartedMs <= TimeAt(startMs, es, k))
            && (Running(j, s) ==>
                  Left(j, s, TimeAt(startMs, es, k)) == Left(j, ts[0].ctx.s, startMs) - UnpausedMs(ts, startMs, es, k))
  {
    hide AfterJobs, AfterJobCommand, Undisturbed;
    if k > 0 {
      BudgetIsSpent(j, ts, startMs, es, k - 1);
      assert Next(ts, es, k - 1);
      var before := ts[k - 1].ctx;
      var t0 := TimeAt(startMs, es, k - 1);
      assert t0 <= TimeAt(startMs, es, k);
      assert es[k - 1].TickAt? ==> Undisturbed(j, before, es[k - 1].env);
      match es[k - 1]
      case TickAt(env) => TickKeepsJob(j, before, env, t0);
      case PauseAt(t) => CommandKeepsJob(j, before.s, PAUSE, t0, t);
      case ResumeAt(t) => CommandKeepsJob(j, before.s, RESUME, t0, t);
    }
  }

  /**
   * Every running job clock expires after its un-paused time, which the start lemmas above tie to the configured
   * minutes: in any run of ticks, pauses and resumes, a tick that finds the job running ends it exactly when the
   * un-paused time since the start of the run has reached the job's budget (and the job is not paused), or when the
   * session has lasted for its configured limit. A stopped job stays stopped. `Undisturbed` leaves out the ends that
   * are not the clock's.
   */
  lemma JobRunsItsUnpausedTime(j: Job, ts: seq<JobTick>, startMs: int, es: seq<JobEvent>, k: nat)
    requires JobRun(ts, es) && k < |es| && JobStarts(j, ts, startMs, es, k + 1)
    ensures Running(j, ts[k + 1].ctx.s) ==> Running(j, ts[k].ctx.s)
    ensures var s := ts[k].ctx.s;
            Running(j, s) ==>
              (Running(j, ts[k + 1].ctx.s) <==>
               (es[k].TickAt? ==>
                  && (s.userPaused || UnpausedMs(ts, startMs, es, k + 1) < Left(j, ts[0].ctx.s, startMs))
                  && !SessionOver(s, es[k].env.nowMs)))
  {
    hide AfterJobs, AfterJobCommand, Undisturbed;
    BudgetIsSpent(j, ts, startMs, es, k);
    assert Next(ts, es, k);
    var before := ts[k].ctx;
    var t0 := TimeAt(startMs, es, k);
    assert TimeAt(startMs, es, k) <= TimeAt(startMs, es, k + 1);
    assert es[k].TickAt? ==> Undisturbed(j, before, es[k].env);
    match es[k]
    case TickAt(env) => TickKeepsJob(j, before, env, t0);
    case PauseAt(t) => CommandKeepsJob(j, before.s, PAUSE, t0, t);
    case ResumeAt(t) => CommandKeepsJob(j, before.s, RESUME, t0, t);
  }

  // ---------------------------------------------------------------- the ramp over runs

  /** A step that leaves an active ramp alone unless it stops the work, and never starts work. */
  predicate LeavesRamp(s: Settings, a: Settings)
  {
    && (a.workOn ==> s.workOn) && (a.mode.DryOut? ==> s.mode.DryOut?)
    && (s.ramp.phase.RampActive? && a.workOn ==> a.ramp == s.ramp)
  }

  lemma ScheduleLeavesRamp(s: Settings, env: TickEnv)
    requires !s.schedule.enabled
    ensures LeavesRamp(s, AfterSchedule(AfterProfile(s, env.profile), env.scheduleAllowed, env.nowMs))
  {
    hide AfterSchedule;
    NoSchedule(AfterProfile(s, env.profile), env.scheduleAllowed, env.nowMs);
  }

  lemma PausePolicyLeavesRamp(s: Settings, seen: bool, env: TickEnv)
    ensures LeavesRamp(s, AfterPausePolicy(s, env.printer, seen, env.nowMs))
  {
  }

  lemma PreheatLeavesRamp(s: Settings, env: TickEnv)
    ensures LeavesRamp(s, AfterPreheat(s, env.rt.chamber, env.nowMs).0)
  {
  }

  lemma DryoutLeavesRamp(s: Settings, env: TickEnv)
    requires !s.mode.DryOut?
    ensures LeavesRamp(s, AfterDryout(s, env.nowMs).0)
  {
  }

  lemma HealthLeavesRamp(s: Settings, env: TickEnv)
    ensures LeavesRamp(s, AfterHealth(s, env.rt, env.nowMs).0)
  {
    hide Rose;
  }

  lemma AutoLeavesRamp(c: AutoContext, env: TickEnv)
    ensures LeavesRamp(c.s, AfterAutoContext(c, env.printer, env.nowMs).s)
  {
    hide PrintJustEnded, AfterPrintEnd;
    PrintEndLeavesRamp(c.s, true, env.nowMs);
    PrintEndLeavesRamp(c.s, c.seen, env.nowMs);
  }

  lemma PrintEndLeavesRamp(s: Settings, seen: bool, nowMs: int)
    ensures LeavesRamp(s, AfterPrintEnd(s, seen, nowMs).0)
  {
  }

  lemma ConcludeLeavesRamp(a: AutoContext, preheated: bool, driedOut: bool, tested: bool, nowMs: int)
    ensures LeavesRamp(a.s, Conclude(a, preheated, driedOut, tested, nowMs).ctx.s)
  {
    hide SessionLimitMs;
  }

  /** A tick through which work stays on moves the ramp by exactly one set-point, or not at all while paused. */
  lemma TickMovesRamp(c: AutoContext, env: TickEnv)
    requires c.s.ramp.phase.RampActive? && !c.s.schedule.enabled && !c.s.mode.DryOut?
    ensures var a := AfterJobs(c, env).ctx.s;
            a.workOn ==> a.ramp == if c.s.userPaused then c.s.ramp else NextRamp(c.s.ramp, env.nowMs)
  {
    hide AfterSchedule, AfterProfile, AfterPausePolicy, AfterPreheat, AfterDryout, AfterHealth, AfterAutoContext,
         Conclude, NextRamp, RampIsOver;
    if c.s.userPaused {
      ConcludeLeavesRamp(c, false, false, false, env.nowMs);
    } else {
      ScheduleLeavesRamp(c.s, env);
      var s1 := AfterSchedule(AfterProfile(c.s, env.profile), env.scheduleAllowed, env.nowMs);
      PausePolicyLeavesRamp(s1, c.seen, env);
      var s2 := AfterPausePolicy(s1, env.printer, c.seen, env.nowMs);
      PreheatLeavesRamp(s2, env);
      var s3 := AfterPreheat(s2, env.rt.chamber, env.nowMs).0;
      DryoutLeavesRamp(s3, env);
      var s4 := AfterDryout(s3, env.nowMs).0;
      HealthLeavesRamp(s4, env);
      var s5 := AfterHealth(s4, env.rt, env.nowMs).0;
      AutoLeavesRamp(c.(s := s5), env);
      var (a, preheated, driedOut, tested) := AfterUnpaused(c, env);
      ConcludeLeavesRamp(a, preheated, driedOut, tested, env.nowMs);
      TemperingEndsRamp(AfterAutoContext(c.(s := s5), env.printer, env.nowMs), env);
    }
  }

  lemma TemperingEndsRamp(c: AutoContext, env: TickEnv)
    ensures var a := AfterTempering(c.s, c.seen, env.nowMs).0;
            c.s.ramp.phase.RampActive? ==>
              && a.ramp == NextRamp(c.s.ramp, env.nowMs) && (a.workOn ==> c.s.workOn)
              && (a.workOn ==> a.ramp.phase.RampActive?)
  {
    hide RampLine, Ceil;
  }

  /** The same ramp, possibly moved as a whole to later times. */
  predicate SameRamp(r: Ramp, q: Ramp)
  {
    r.startC == q.startC && r.endC == q.endC && r.minutes == q.minutes && r.endMs - r.startMs == q.endMs - q.startMs
  }

  lemma NextRampIsSame(r: Ramp, nowMs: int)
    ensures SameRamp(r, NextRamp(r, nowMs))
  {
    hide RampLine, Ceil;
  }

  lemma CommandMovesRamp(s: Settings, r: JobRequest, t: int)
    requires r in {PAUSE, RESUME} && 0 < s.ramp.startMs < s.ramp.endMs
    ensures SameRamp(s.ramp, AfterJobCommand(s, r, t).ramp)
  {
  }

  lemma {:induction false} RampStaysSame(ts: seq<JobTick>, startMs: int, es: seq<JobEvent>, k: nat)
    requires JobRun(ts, es) && k <= |es| && JobStarts(RampDown, ts, startMs, es, k) && Running(RampDown, ts[k].ctx.s)
    ensures SameRamp(ts[0].ctx.s.ramp, ts[k].ctx.s.ramp)
  {
    hide AfterJobs, AfterJobCommand, Undisturbed, NextRamp;
    if k > 0 {
      JobRunsItsUnpausedTime(RampDown, ts, startMs, es, k - 1);
      BudgetIsSpent(RampDown, ts, startMs, es, k - 1);
      RampStaysSame(ts, startMs, es, k - 1);
      assert Next(ts, es, k - 1);
      var before := ts[k - 1].ctx;
      match es[k - 1]
      case TickAt(env) =>
        TickMovesRamp(before, env);
        NextRampIsSame(before.s.ramp, env.nowMs);
      case PauseAt(t) => CommandMovesRamp(before.s, PAUSE, t);
      case ResumeAt(t) => CommandMovesRamp(before.s, RESUME, t);
    }
  }

  lemma LineMoves(r: Ramp, q: Ramp, nowMs: int)
    requires SameRamp(r, q) && r.startMs < r.endMs
    ensures RampLine(q.startC, q.endC, q.startMs, q.endMs, nowMs)
         == RampLine(r.startC, r.endC, r.startMs, r.endMs, nowMs + r.endMs - q.endMs)
  {
  }

  /** The time on the ramp's own clock, which stands still during pauses. */
  function RampTime(ts: seq<JobTick>, startMs: int, es: seq<JobEvent>, k: nat): int
    requires |ts| == |es| + 1 && k <= |es|
  {
    startMs + UnpausedMs(ts, startMs, es, k)
  }

  /**
   * Whatever pauses a run has, every tick that leaves the ramp running sets exactly the set-point the original ramp
   * prescribes for the un-paused time gone by: pauses neither skip nor stretch any part of it.
   */
  lemma RampFollowsUnpausedTime(ts: seq<JobTick>, startMs: int, es: seq<JobEvent>, k: nat)
    requires JobRun(ts, es) && k < |es| && JobStarts(RampDown, ts, startMs, es, k + 1) && !ts[0].ctx.s.userPaused
    requires es[k].TickAt? && !ts[k].ctx.s.userPaused && Running(RampDown, ts[k + 1].ctx.s)
    ensures ts[k + 1].ctx.s.ramp.currentC == SetPoint(ts[0].ctx.s.ramp, RampTime(ts, startMs, es, k + 1))
    ensures RampTime(ts, startMs, es, k + 1) < ts[0].ctx.s.ramp.endMs
  {
    hide AfterJobs, AfterJobCommand, Undisturbed, RampLine, Ceil;
    JobRunsItsUnpausedTime(RampDown, ts, startMs, es, k);
    BudgetIsSpent(RampDown, ts, startMs, es, k);
    RampStaysSame(ts, startMs, es, k);
    assert Next(ts, es, k);
    TickMovesRamp(ts[k].ctx, es[k].env);
    LineMoves(ts[0].ctx.s.ramp, ts[k].ctx.s.ramp, es[k].env.nowMs);
  }

  lemma {:induction false} UnpausedGrows(ts: seq<JobTick>, startMs: int, es: seq<JobEvent>, j: nat, k: nat)
    requires |ts| == |es| + 1 && j <= k <= |es| && InOrder(startMs, es)
    ensures 0 <= UnpausedMs(ts, startMs, es, j) <= UnpausedMs(ts, startMs, es, k)
    decreases k
  {
    if j < k {
      assert TimeAt(startMs, es, k - 1) <= TimeAt(startMs, es, k);
      UnpausedGrows(ts, startMs, es, j, k - 1);
    } else if k > 0 {
      assert TimeAt(startMs, es, k - 1) <= TimeAt(startMs, es, k);
      UnpausedGrows(ts, startMs, es, k - 1, k - 1);
    }
  }

  /**
   * Within one cooling ramp, over any ticks, pauses and resumes: the set-point never rises, lies between the end and
   * the start temperature, and is never below the exact line and less than a degree above it.
   */
  lemma RampNeverRises(ts: seq<JobTick>, startMs: int, es: seq<JobEvent>, j: nat, k: nat)
    requires JobRun(ts, es) && j < k < |es| && JobStarts(RampDown, ts, startMs, es, k + 1) && !ts[0].ctx.s.userPaused
    requires ts[0].ctx.s.ramp.endC <= ts[0].ctx.s.ramp.startC && ts[0].ctx.s.ramp.startMs <= startMs
    requires es[j].TickAt? && !ts[j].ctx.s.userPaused && Running(RampDown, ts[j + 1].ctx.s)
    requires es[k].TickAt? && !ts[k].ctx.s.userPaused && Running(RampDown, ts[k + 1].ctx.s)
    ensures var r, early, late := ts[0].ctx.s.ramp, ts[j + 1].ctx.s.ramp.currentC, ts[k + 1].ctx.s.ramp.currentC;
            var line := RampLine(r.startC, r.endC, r.startMs, r.endMs, RampTime(ts, startMs, es, k + 1));
            r.endC <= late <= early <= r.startC && line <= late as real < line + 1.0
  {
    hide InOrder, Sole, Undisturbed, SetPoint, RampLine, Next;
    StartsEarlier(RampDown, ts, startMs, es, j + 1, k + 1);
    RampFollowsUnpausedTime(ts, startMs, es, j);
    RampFollowsUnpausedTime(ts, startMs, es, k);
    UnpausedGrows(ts, startMs, es, j + 1, k + 1);
    SetPointFalls(ts[0].ctx.s.ramp, RampTime(ts, startMs, es, j + 1), RampTime(ts, startMs, es, k + 1));
  }

  lemma StartsEarlier(j: Job, ts: seq<JobTick>, startMs: int, es: seq<JobEvent>, early: nat, k: nat)
    requires |ts| == |es| + 1 && early <= k <= |es| && JobStarts(j, ts, startMs, es, k)
    ensures JobStarts(j, ts, startMs, es, early)
  {
    hide Undisturbed, Sole, Running, InOrder;
  }

  /** The target the heater sees never exceeds the qualification ceiling, whatever the settings hold. */
  lemma TargetsStayBounded(c: AutoContext, env: TickEnv)
    ensures 0 <= EffectiveTarget(AfterJobs(c, env).ctx.s) <= VALIDATION_MAX_TARGET_C
    ensures !AfterJobs(c, env).ctx.s.workOn ==> !AfterJobs(c, env).ctx.s.userPaused
  {
  }
}
