/**
 * Heating jobs: the update_* steps of main/safety.c and the pause/start command of main/job_commands.h.
 * Times in milliseconds.
 */
module Jobs {
  import opened Common
  import opened PlantState
  import HF = HeaterFaults

  const MINUTE_MS := 60_000
  const HEALTH_MIN_PTC_RISE := 4.0
  const HEALTH_MIN_CHAMBER_RISE := 0.5
  const PREHEAT_BAND_C := 0.5

  // ---------------------------------------------------------------- printer predicates

  predicate IsPrinting(p: Printer) { p.normalized.Printing? || p.printState.Printing? }

  predicate IsPauseOrError(p: Printer)
  {
    p.normalized.Paused? || p.normalized.PrinterError? || p.normalized.PrinterTimeout? ||
    p.printState.Paused? || p.printState.PrinterError?
  }

  predicate IsDone(p: Printer)
  {
    p.normalized.Complete? || p.normalized.Idle? ||
    p.printState.Complete? || p.printState.Idle? || p.printState.Standby?
  }

  predicate PrinterFresh(p: Printer, nowMs: int)
  {
    p.connected && p.lastUpdateMs > 0 && nowMs - p.lastUpdateMs <= PRINTER_STALE_MS
  }

  predicate WasActive(p: PrinterState) { p.Printing? || p.Paused? || p.PrinterError? || p.PrinterTimeout? }

  /** effective_target_for_settings followed by the qualification ceiling. */
  function EffectiveTarget(s: Settings): (target: int)
    ensures 0 <= target <= VALIDATION_MAX_TARGET_C
  {
    Min(VALIDATION_MAX_TARGET_C,
        if s.ramp.phase.RampActive? then ClampTarget(s.ramp.currentC)
        else if s.keepWarm.active then ClampTarget(s.keepWarm.targetC)
        else match s.mode
          case Preheat => if s.preheat.running then ClampTarget(s.preheat.targetC) else 0
          case DryOut => if s.dryout.running then ClampTarget(s.dryout.targetC) else 0
          case HealthTest => if s.health.running then ClampTarget(s.health.targetC) else 0
          case Drying =>
            if !s.drying.running then 0
            else (match s.drying.mode
                  case Pla => 55
                  case Petg => 60
                  case Abs => 60
                  case Custom => ClampTarget(s.drying.customC))
          case _ => ClampTarget(s.targetC))
  }

  predicate AutoAllowed(s: Settings, p: Printer, autoSeen: bool, nowMs: int)
  {
    || !s.mode.Auto?
    || s.ramp.phase.RampActive?
    || (&& PrinterFresh(p, nowMs)
        && if IsPrinting(p)
           then p.bedTarget >= s.bedTriggerC as real || p.bed >= (s.bedTriggerC - 5) as real
           else IsPauseOrError(p) && autoSeen)
  }

  // ---------------------------------------------------------------- tempering ramp

  /** The exact linear set-point of the ramp. */
  function RampLine(startC: int, endC: int, startMs: int, endMs: int, nowMs: int): real
    requires startMs < endMs
  {
    var t := (nowMs - startMs) as real / (endMs - startMs) as real;
    var bounded := if t < 0.0 then 0.0 else if t > 1.0 then 1.0 else t;
    startC as real + (endC - startC) as real * bounded
  }

  predicate RampIsOver(r: Ramp, nowMs: int) { r.minutes <= 0 || r.endMs <= r.startMs || nowMs >= r.endMs }

  function NextRamp(r: Ramp, nowMs: int): Ramp
  {
    if RampIsOver(r, nowMs) then r.(currentC := r.endC, phase := RampComplete)
    else r.(currentC := Ceil(RampLine(r.startC, r.endC, r.startMs, r.endMs, nowMs)))
  }

  /** update_tempering; a ramp that ends by its time also forgets the print. */
  function AfterTempering(s: Settings, autoSeen: bool, nowMs: int): (Settings, bool)
  {
    var r := s.ramp;
    if !r.phase.RampActive? then (s, autoSeen)
    else
      var timedOut := r.minutes > 0 && r.startMs < r.endMs <= nowMs;
      (s.(ramp := NextRamp(r, nowMs), workOn := s.workOn && !RampIsOver(r, nowMs)), autoSeen && !timedOut)
  }

  function StartTempering(s: Settings, autoSeen: bool, nowMs: int): Settings
  {
    if !s.workOn || !s.ramp.enabled || !s.mode.Auto? || s.ramp.phase.RampActive? || !autoSeen then s
    else
      var startC := ClampTarget(s.targetC);
      var minutes := Clamp(s.ramp.minutes, 0, 240);
      s.(ramp := Ramp(true, if minutes == 0 then RampComplete else RampActive, startC, startC,
                      Min(Max(s.ramp.endC, 0), startC), minutes, nowMs, nowMs + minutes * MINUTE_MS))
  }

  // ---------------------------------------------------------------- the other job steps

  function AfterPreheat(s: Settings, chamber: Temp, nowMs: int): (Settings, bool)
  {
    var p := s.preheat;
    if !s.mode.Preheat? || !p.running then
      (if !s.mode.Preheat? && !p.phase.PreheatComplete?
       then s.(preheat := p.(phase := PreheatIdle, holdStartMs := 0, endMs := 0)) else s, false)
    else
      var a := p.(targetC := ClampTarget(p.targetC), holdMin := Clamp(p.holdMin, 1, 240));
      var b := if a.phase.PreheatIdle? || a.phase.PreheatComplete?
               then a.(phase := PreheatHeating, holdStartMs := 0, endMs := 0) else a;
      if b.phase.PreheatHeating? then
        (s.(preheat := if chamber.AtLeast(b.targetC as real - PREHEAT_BAND_C)
                       then b.(phase := PreheatHolding, holdStartMs := nowMs, endMs := nowMs + b.holdMin * MINUTE_MS)
                       else b), false)
      else if b.phase.PreheatHolding? && b.endMs > 0 && nowMs >= b.endMs then
        (s.(preheat := b.(running := false, phase := PreheatComplete), workOn := false), true)
      else (s.(preheat := b), false)
  }

  predicate DryingExpires(s: Settings, nowMs: int)
  {
    s.mode.Drying? && s.drying.running && s.drying.endMs > 0 && nowMs >= s.drying.endMs
  }

  function AfterDrying(s: Settings, nowMs: int): (Settings, bool)
  {
    if DryingExpires(s, nowMs) then (s.(drying := s.drying.(running := false, endMs := 0), workOn := false), true)
    else (s, false)
  }

  function AfterDryout(s: Settings, nowMs: int): (Settings, bool)
  {
    var d := s.dryout;
    if !s.mode.DryOut? || !d.running then (s, false)
    else
      var minutes := Clamp(d.minutes, 1, 240);
      var a := if d.endMs <= 0 then d.(minutes := minutes, endMs := nowMs + minutes * MINUTE_MS) else d;
      if nowMs < a.endMs then (s.(dryout := a, workOn := s.workOn || d.endMs <= 0), false)
      else (s.(dryout := a.(running := false, endMs := 0), workOn := false), true)
  }

  predicate Rose(now: Temp, before: Temp, rise: real) { now.Deg? && before.Deg? && now.c - before.c >= rise }

  function AfterHealth(s: Settings, rt: Runtime, nowMs: int): (Settings, bool)
  {
    var h := s.health;
    if !s.mode.HealthTest? || !h.running then (s, false)
    else
      var a := if h.phase.HealthIdle?
               then h.(phase := HealthPreFan, startMs := nowMs, startPtc := rt.ptc, startChamber := rt.chamber,
                        ok := false)
               else h;
      if !rt.chamberStatus.SensorOk? || !rt.ptcStatus.SensorOk? then
        (s.(health := a.(phase := HealthFailed, running := false, ok := false)), true)
      else
        var elapsed := nowMs - a.startMs;
        var b := if a.phase.HealthPreFan? && elapsed > 5000 then a.(phase := HealthHeating) else a;
        var c := b.(seconds := Clamp(b.seconds, 30, 300));
        if elapsed < c.seconds * 1000 then (s.(health := c), false)
        else
          var ok := Rose(rt.ptc, c.startPtc, HEALTH_MIN_PTC_RISE) ||
                    Rose(rt.chamber, c.startChamber, HEALTH_MIN_CHAMBER_RISE);
          (s.(health := c.(phase := if ok then HealthComplete else HealthFailed, ok := ok, running := false),
              workOn := false), true)
  }

  /** The preheat a schedule starts when its time has come. */
  function ScheduledStart(s: Settings): Settings
  {
    var c := s.schedule;
    s.(schedule := c.(enabled := false),
       preheat := s.preheat.(running := true, phase := PreheatHeating, targetC := ClampTarget(c.targetC),
                             holdMin := Max(c.holdMin, 1)),
       workOn := true, mode := Preheat)
  }

  function AfterSchedule(s: Settings, allowed: bool, nowMs: int): Settings
  {
    var c := s.schedule;
    if !c.enabled then s
    else if !allowed then Stopped(s)
    else if c.startMs <= 0 then
      var delay := Clamp(c.delayMin, 0, 1440);
      s.(schedule := c.(delayMin := delay, startMs := nowMs + delay * MINUTE_MS))
    else if nowMs < c.startMs then s
    else ScheduledStart(s)
  }

  /** A printer pause or error of an AUTO job the hold policy looks after. */
  predicate PauseHeld(s: Settings, p: Printer, autoSeen: bool)
  {
    s.mode.Auto? && s.pause.enabled && autoSeen && IsPauseOrError(p)
  }

  function PausedMin(h: PausePolicy, nowMs: int): int
  {
    TruncDiv(if h.seenMs <= 0 then 0 else nowMs - h.seenMs, MINUTE_MS)
  }

  predicate PauseLowers(h: PausePolicy, nowMs: int)
  {
    h.strategy.HoldLower? && PausedMin(h, nowMs) >= h.lowerAfterMin && h.lowerByC > 0
  }

  predicate PauseExpires(h: PausePolicy, nowMs: int)
  {
    h.strategy.HoldStopAfter? && PausedMin(h, nowMs) >= h.stopAfterMin
  }

  /** The policy at work during a pause or error: keep, lower once, or stop after the configured minutes. */
  function WhilePaused(s: Settings, nowMs: int): Settings
  {
    var h := s.pause;
    var lowers := PauseLowers(h, nowMs);
    s.(pause := h.(seenMs := if h.seenMs <= 0 then nowMs else h.seenMs, lowerByC := if lowers then 0 else h.lowerByC),
       targetC := if lowers then Max(s.targetC - h.lowerByC, 0) else s.targetC,
       workOn := s.workOn && !PauseExpires(h, nowMs))
  }

  /** update_pause_policy. */
  function AfterPausePolicy(s: Settings, p: Printer, autoSeen: bool, nowMs: int): Settings
  {
    if PauseHeld(s, p, autoSeen) then WhilePaused(s, nowMs) else s.(pause := s.pause.(seenMs := 0))
  }

  /** Settings, "print context seen" and last printer state after update_auto_context. */
  datatype AutoContext = AutoContext(s: Settings, seen: bool, last: PrinterState)

  /** A fresh "done" report right after an active state of a print this job has seen. */
  predicate PrintJustEnded(c: AutoContext, p: Printer, nowMs: int)
  {
    WasActive(c.last) && PrinterFresh(p, nowMs) && IsDone(p) && (c.seen || IsPrinting(p))
  }

  /** The finish-conditioning choice of a print that has just ended. */
  function AfterPrintEnd(s: Settings, seen: bool, nowMs: int): (Settings, bool)
  {
    if s.finish.FinishTempering? && s.ramp.enabled then (StartTempering(s, seen, nowMs), seen)
    else if s.finish.FinishKeepWarm?
    then (s.(keepWarm := s.keepWarm.(active := true, endMs := nowMs + s.keepWarm.minutes * MINUTE_MS)), seen)
    else (s.(workOn := false), false)
  }

  function AfterAutoContext(c: AutoContext, p: Printer, nowMs: int): AutoContext
  {
    if !c.s.workOn || !c.s.mode.Auto? then AutoContext(c.s, false, p.normalized)
    else
      var seen := c.seen || (PrinterFresh(p, nowMs) && IsPrinting(p));
      var (a, seen1) := if PrintJustEnded(c, p, nowMs) then AfterPrintEnd(c.s, seen, nowMs) else (c.s, seen);
      if a.keepWarm.active && a.keepWarm.endMs > 0 && nowMs >= a.keepWarm.endMs
      then AutoContext(a.(keepWarm := a.keepWarm.(active := false), workOn := false), false, p.normalized)
      else AutoContext(a, seen1, p.normalized)
  }

  function SessionLimitMs(s: Settings): (ms: int)
    ensures 0 < ms <= SESSION_LIMIT_MIN * MINUTE_MS
  {
    var minutes :=
      if s.sessionMaxMin <= 0 || s.sessionMaxMin > SESSION_LIMIT_MIN then SESSION_LIMIT_MIN else s.sessionMaxMin;
    minutes * MINUTE_MS
  }

  function AfterSessionWatchdog(s: Settings, nowMs: int): (Settings, bool)
  {
    if !s.workOn then (s.(sessionStartedMs := 0), false)
    else if s.sessionStartedMs <= 0 then (s.(sessionStartedMs := nowMs), false)
    else
      var a := s.(sessionMaxMin := SessionLimitMs(s) / MINUTE_MS);
      if nowMs - a.sessionStartedMs < SessionLimitMs(s) then (a, false)
      else
        (a.(workOn := false, drying := s.drying.(running := false, endMs := 0),
            preheat := s.preheat.(running := false, phase := PreheatIdle, endMs := 0),
            ramp := s.ramp.(phase := RampIdle, endMs := 0)), true)
  }

  // ---------------------------------------------------------------- one tick of the job logic

  /** A material profile the assistant may apply to the selected targets (main/safety.c:481-496). */
  datatype Profile = Profile(targetC: int, dryingMode: DryingMode, dryingC: int, holdMin: int)

  datatype TickEnv = TickEnv(
    printer: Printer,
    rt: Runtime,
    scheduleAllowed: bool,
    profile: Option<Profile>,
    nowMs: int)

  datatype JobTick = JobTick(ctx: AutoContext, fault: int)

  function AfterProfile(s: Settings, profile: Option<Profile>): Settings
  {
    match profile
    case None => s
    case Some(p) =>
      s.(targetC := ClampTarget(p.targetC),
         drying := s.drying.(mode := p.dryingMode, customC := ClampTarget(p.dryingC)),
         preheat := s.preheat.(targetC := ClampTarget(p.targetC), holdMin := p.holdMin))
  }

  /** The un-paused part, main/safety.c:1148-1157: flags tell which job finished. */
  function AfterUnpaused(c: AutoContext, e: TickEnv): (AutoContext, bool, bool, bool)
  {
    var s1 := AfterSchedule(AfterProfile(c.s, e.profile), e.scheduleAllowed, e.nowMs);
    var s2 := AfterPausePolicy(s1, e.printer, c.seen, e.nowMs);
    var (s3, preheated) := AfterPreheat(s2, e.rt.chamber, e.nowMs);
    var (s4, driedOut) := AfterDryout(s3, e.nowMs);
    var (s5, tested) := AfterHealth(s4, e.rt, e.nowMs);
    var a := AfterAutoContext(c.(s := s5), e.printer, e.nowMs);
    var (s6, seen) := AfterTempering(a.s, a.seen, e.nowMs);
    (AutoContext(s6, seen, a.last), preheated, driedOut, tested)
  }

  /** Exactly one outcome is reported, and the steps behind the reported one are skipped. */
  function Outcome(s: Settings, preheated: bool, driedOut: bool, tested: bool, nowMs: int): (Settings, int)
  {
    if driedOut then (s, HF.DRYOUT_COMPLETE)
    else if tested then (s, if s.health.ok then HF.HEALTH_TEST_COMPLETE else HF.HEALTH_TEST_FAILED)
    else if !s.userPaused && DryingExpires(s, nowMs) then (AfterDrying(s, nowMs).0, HF.DRYING_TIMER_EXPIRED)
    else if preheated then (s, HF.PREHEAT_COMPLETE)
    else
      var (w, expired) := AfterSessionWatchdog(s, nowMs);
      (w, if expired then HF.SESSION_TIMEOUT else HF.OK)
  }

  /** A stopped job is not paused. */
  function Unpaused(s: Settings): Settings
  {
    if s.workOn then s else s.(userPaused := false, userPauseStartedMs := 0)
  }

  /** main/safety.c:1160-1175. */
  function Conclude(a: AutoContext, preheated: bool, driedOut: bool, tested: bool, nowMs: int): JobTick
  {
    var (s, fault) := Outcome(a.s, preheated, driedOut, tested, nowMs);
    JobTick(a.(s := Unpaused(s)), fault)
  }

  function AfterJobs(c: AutoContext, e: TickEnv): JobTick
  {
    if c.s.userPaused then Conclude(c, false, false, false, e.nowMs)
    else
      var (a, preheated, driedOut, tested) := AfterUnpaused(c, e);
      Conclude(a, preheated, driedOut, tested, e.nowMs)
  }

  // ---------------------------------------------------------------- pause, resume and start commands

  /** The fields of a control request this code reads. */
  datatype JobRequest = JobRequest(
    workOn: Option<bool>,
    workMode: Option<int>,
    pauseJob: Option<bool>,
    dryingMin: Option<int>,
    temperingNow: bool)

  predicate ExplicitStart(r: JobRequest)
  {
    r.workOn == Some(true) && r.workMode.Some? && 1 <= r.workMode.value <= 6
  }

  /** The job clocks a resume moves, in the order of the pointer array. The session clock is not among them. */
  datatype Clock =
    | DryingEnd | PreheatHoldStart | PreheatEnd | RampStart | RampEnd | DryoutEnd | KeepWarmEnd | HealthStart
    | SoakStart | SoakEnd

  const CLOCKS: seq<Clock> :=
    [DryingEnd, PreheatHoldStart, PreheatEnd, RampStart, RampEnd, DryoutEnd, KeepWarmEnd, HealthStart, SoakStart,
     SoakEnd]

  function ClockOf(s: Settings, c: Clock): int
  {
    match c
    case DryingEnd => s.drying.endMs
    case PreheatHoldStart => s.preheat.holdStartMs
    case PreheatEnd => s.preheat.endMs
    case RampStart => s.ramp.startMs
    case RampEnd => s.ramp.endMs
    case DryoutEnd => s.dryout.endMs
    case KeepWarmEnd => s.keepWarm.endMs
    case HealthStart => s.health.startMs
    case SoakStart => s.soak.startMs
    case SoakEnd => s.soak.endMs
  }

  function WithClock(s: Settings, c: Clock, v: int): Settings
  {
    match c
    case DryingEnd => s.(drying := s.drying.(endMs := v))
    case PreheatHoldStart => s.(preheat := s.preheat.(holdStartMs := v))
    case PreheatEnd => s.(preheat := s.preheat.(endMs := v))
    case RampStart => s.(ramp := s.ramp.(startMs := v))
    case RampEnd => s.(ramp := s.ramp.(endMs := v))
    case DryoutEnd => s.(dryout := s.dryout.(endMs := v))
    case KeepWarmEnd => s.(keepWarm := s.keepWarm.(endMs := v))
    case HealthStart => s.(health := s.health.(startMs := v))
    case SoakStart => s.(soak := s.soak.(startMs := v))
    case SoakEnd => s.(soak := s.soak.(endMs := v))
  }

  function Shift(clock: int, delta: int): int { if clock > 0 then clock + delta else clock }

  /** Every clock moved by `delta`, unset clocks staying unset. */
  function ShiftClocks(s: Settings, delta: int): Settings
  {
    s.(drying := s.drying.(endMs := Shift(s.drying.endMs, delta)),
       preheat := s.preheat.(holdStartMs := Shift(s.preheat.holdStartMs, delta),
                             endMs := Shift(s.preheat.endMs, delta)),
       ramp := s.ramp.(startMs := Shift(s.ramp.startMs, delta), endMs := Shift(s.ramp.endMs, delta)),
       dryout := s.dryout.(endMs := Shift(s.dryout.endMs, delta)),
       keepWarm := s.keepWarm.(endMs := Shift(s.keepWarm.endMs, delta)),
       health := s.health.(startMs := Shift(s.health.startMs, delta)),
       soak := s.soak.(startMs := Shift(s.soak.startMs, delta), endMs := Shift(s.soak.endMs, delta)))
  }

  function AfterPauseField(s: Settings, r: JobRequest, nowMs: int): Settings
  {
    if r.pauseJob.None? || !s.workOn || ExplicitStart(r) then s
    else if r.pauseJob.value && !s.userPaused then s.(userPaused := true, userPauseStartedMs := nowMs)
    else if !r.pauseJob.value && s.userPaused then
      ShiftClocks(s, Max(nowMs - s.userPauseStartedMs, 0)).(userPaused := false, userPauseStartedMs := 0)
    else s
  }

  /** A drying start with its minutes, within the session limit. */
  function AfterDryingField(s: Settings, r: JobRequest, nowMs: int): Settings
  {
    if s.mode.Drying? && s.drying.running && r.dryingMin.Some? then
      var limit := if s.sessionMaxMin < 1 || s.sessionMaxMin > SESSION_LIMIT_MIN then SESSION_LIMIT_MIN
                   else s.sessionMaxMin;
      s.(drying := s.drying.(endMs := nowMs + Min(Max(r.dryingMin.value, 1), limit) * MINUTE_MS))
    else s
  }

  /** A ramp down from the target that starts at once. */
  function TemperedNow(s: Settings, nowMs: int): Settings
  {
    var startC := Clamp(s.targetC, 0, MAX_TARGET_C);
    var minutes := Clamp(s.ramp.minutes, 1, 240);
    s.(mode := PowerOn,
       ramp := Ramp(true, RampActive, startC, startC, Min(Max(s.ramp.endC, 0), startC), minutes, nowMs,
                    nowMs + minutes * MINUTE_MS))
  }

  function AfterStartFields(s: Settings, r: JobRequest, nowMs: int): Settings
  {
    if !ExplicitStart(r) then s
    else
      var dried := AfterDryingField(s.(workOn := true), r, nowMs);
      if r.temperingNow then TemperedNow(dried, nowMs) else dried
  }

  function AfterJobCommand(s: Settings, r: JobRequest, nowMs: int): Settings
  {
    AfterStartFields(AfterPauseField(s, r, nowMs), r, nowMs)
  }
}
