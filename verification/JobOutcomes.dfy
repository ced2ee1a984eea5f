/** What each step of the job logic decides, in terms of the settings, the printer and the clock it is given. */
module JobOutcomes {
  import opened Common
  import opened PlantState
  import opened Jobs
  import opened Conditions
  import HF = HeaterFaults

  // ---------------------------------------------------------------- the printer

  predicate Prints(p: Printer) { Printing in {p.normalized, p.printState} }

  predicate Halts(p: Printer)
  {
    p.normalized in {Paused, PrinterError, PrinterTimeout} || p.printState in {Paused, PrinterError}
  }

  predicate Finished(p: Printer)
  {
    p.normalized in {Complete, Idle} || p.printState in {Complete, Idle, Standby}
  }

  /** Connected, with a report at most 22 s old. */
  predicate Reports(p: Printer, nowMs: int) { p.connected && p.lastUpdateMs > 0 && nowMs - p.lastUpdateMs <= 22_000 }

  lemma PrinterIs(p: Printer, nowMs: int)
    ensures IsPrinting(p) == Prints(p) && IsPauseOrError(p) == Halts(p) && IsDone(p) == Finished(p)
    ensures PrinterFresh(p, nowMs) == Reports(p, nowMs)
  {
  }

  // ---------------------------------------------------------------- a scheduled preheat

  /** The preheat of a schedule: its target within bounds, its hold at least a minute, heating from now on. */
  predicate StartsPreheat(s: Settings, a: Settings)
  {
    a == s.(workOn := true, mode := Preheat, schedule := s.schedule.(enabled := false),
            preheat := s.preheat.(running := true, phase := PreheatHeating, targetC := Bounded(s.schedule.targetC),
                                  holdMin := if s.schedule.holdMin < 1 then 1 else s.schedule.holdMin))
  }

  /**
   * A schedule that may not start ends everything; one that may gets its time, the configured delay of at most a day
   * from now, waits for it, and then starts its preheat.
   */
  lemma ScheduleOutcome(s: Settings, allowed: bool, nowMs: int)
    requires s.schedule.enabled && nowMs > 0
    ensures var a := AfterSchedule(s, allowed, nowMs);
            if !allowed then NoJob(a)
            else if s.schedule.startMs <= 0 then
              && a == s.(schedule := s.schedule.(startMs := a.schedule.startMs, delayMin := a.schedule.delayMin))
              && a.schedule.startMs == nowMs + a.schedule.delayMin * 60_000 && 0 <= a.schedule.delayMin <= 1440
              && (0 <= s.schedule.delayMin <= 1440 ==> a.schedule.delayMin == s.schedule.delayMin)
            else if nowMs < s.schedule.startMs then a == s
            else StartsPreheat(s, a)
  {
  }

  // ---------------------------------------------------------------- preheat

  /** A preheat heats until the chamber is within half a degree of its target, and only then holds. */
  lemma PreheatOutcome(s: Settings, chamber: Temp, nowMs: int)
    requires s.mode.Preheat? && s.preheat.running && !s.preheat.phase.PreheatHolding?
    ensures var (a, done) := AfterPreheat(s, chamber, nowMs);
            var near := chamber.Deg? && chamber.c >= Bounded(s.preheat.targetC) as real - 0.5;
            && !done && a == s.(preheat := a.preheat) && a.preheat.running
            && a.preheat.targetC == Bounded(s.preheat.targetC)
            && a.preheat.phase == (if near then PreheatHolding else PreheatHeating)
            && (near ==> a.preheat.holdStartMs == nowMs && a.preheat.endMs == nowMs + a.preheat.holdMin * 60_000)
            && 1 <= a.preheat.holdMin <= 240
            && (1 <= s.preheat.holdMin <= 240 ==> a.preheat.holdMin == s.preheat.holdMin)
  {
  }

  /** A preheat that does not run reports nothing; outside its mode it forgets its phase, unless it is complete. */
  lemma PreheatElsewhere(s: Settings, chamber: Temp, nowMs: int)
    requires !s.mode.Preheat? || !s.preheat.running
    ensures var p := s.preheat;
            var forgotten := p.(phase := PreheatIdle, holdStartMs := 0, endMs := 0);
            AfterPreheat(s, chamber, nowMs)
            == (s.(preheat := if s.mode.Preheat? || p.phase.PreheatComplete? then p else forgotten), false)
  {
  }

  // ---------------------------------------------------------------- the health test

  predicate Risen(now: Temp, before: Temp, rise: real) { now.Deg? && before.Deg? && now.c >= before.c + rise }

  /**
   * A health test ends after its 30 to 300 s, and passes exactly if PTC has risen by 4 C or the chamber by half a
   * degree since its start; with a bad sensor it fails at once.
   */
  lemma TestOutcome(s: Settings, rt: Runtime, nowMs: int)
    requires s.mode.HealthTest? && s.health.running && !s.health.phase.HealthIdle?
    ensures var (a, done) := AfterHealth(s, rt, nowMs);
            var h := s.health;
            var seconds := if h.seconds < 30 then 30 else if h.seconds > 300 then 300 else h.seconds;
            if !rt.chamberStatus.SensorOk? || !rt.ptcStatus.SensorOk? then
              done && a == s.(health := h.(phase := HealthFailed, running := false, ok := false))
            else if nowMs - h.startMs < seconds * 1000 then
              && !done && a == s.(health := h.(phase := a.health.phase, seconds := seconds))
              && a.health.phase == (if h.phase.HealthPreFan? && nowMs - h.startMs > 5000 then HealthHeating
                                    else h.phase)
            else
              && done && !a.workOn && a == s.(health := a.health, workOn := false) && !a.health.running
              && (a.health.ok <==> Risen(rt.ptc, h.startPtc, 4.0) || Risen(rt.chamber, h.startChamber, 0.5))
              && a.health.phase == (if a.health.ok then HealthComplete else HealthFailed)
  {
  }

  /** It starts by blowing, from the readings of that moment. */
  lemma TestBegins(s: Settings, rt: Runtime, nowMs: int)
    requires s.mode.HealthTest? && s.health.running && s.health.phase.HealthIdle?
    requires rt.chamberStatus.SensorOk? && rt.ptcStatus.SensorOk?
    ensures var (a, done) := AfterHealth(s, rt, nowMs);
            && !done && a.workOn == s.workOn && a.health.running && a.health.phase.HealthPreFan?
            && a.health.startMs == nowMs && a.health.startPtc == rt.ptc && a.health.startChamber == rt.chamber
  {
  }

  // ---------------------------------------------------------------- printer pause

  /** Milliseconds since the policy first saw this pause or error. */
  function HaltedMs(s: Settings, nowMs: int): int { if s.pause.seenMs <= 0 then 0 else nowMs - s.pause.seenMs }

  /**
   * While the printer of an AUTO job is paused or in error, the policy keeps the job, lowers its target once, or stops
   * it, after the configured minutes of this pause; at any other time it only forgets when the pause began.
   */
  lemma PauseOutcome(s: Settings, p: Printer, seen: bool, nowMs: int)
    requires nowMs > 0 && (s.pause.seenMs > 0 ==> s.pause.seenMs <= nowMs)
    requires s.pause.lowerAfterMin >= 0 && s.pause.stopAfterMin >= 0
    ensures var a := AfterPausePolicy(s, p, seen, nowMs);
            var held := s.mode.Auto? && s.pause.enabled && seen && Halts(p);
            var ms := HaltedMs(s, nowMs);
            var lowers := && held && s.pause.strategy.HoldLower? && s.pause.lowerByC > 0
                          && ms >= s.pause.lowerAfterMin * 60_000;
            var stops := held && s.pause.strategy.HoldStopAfter? && ms >= s.pause.stopAfterMin * 60_000;
            && a.pause.seenMs == (if !held then 0 else if s.pause.seenMs > 0 then s.pause.seenMs else nowMs)
            && a.workOn == (s.workOn && !stops)
            && a.pause.lowerByC == (if lowers then 0 else s.pause.lowerByC)
            && a.targetC == (if !lowers then s.targetC
                             else if s.targetC > s.pause.lowerByC then s.targetC - s.pause.lowerByC else 0)
            && a == s.(pause := a.pause, workOn := a.workOn, targetC := a.targetC)
  {
    PrinterIs(p, nowMs);
    WholeMinutes(HaltedMs(s, nowMs), s.pause.lowerAfterMin);
    WholeMinutes(HaltedMs(s, nowMs), s.pause.stopAfterMin);
    hide IsPauseOrError, Halts, TruncDiv;
  }

  lemma WholeMinutes(ms: int, minutes: int)
    requires ms >= 0
    ensures TruncDiv(ms, MINUTE_MS) >= minutes <==> ms >= minutes * 60_000
  {
  }

  // ---------------------------------------------------------------- the print of an AUTO job

  /** A fresh report of a finished print, right after an active state, of a print this job has seen. */
  predicate PrintEnds(c: AutoContext, p: Printer, nowMs: int)
  {
    && c.last in {Printing, Paused, PrinterError, PrinterTimeout}
    && Reports(p, nowMs) && Finished(p) && (c.seen || Prints(p))
  }

  lemma PrintEndIs(c: AutoContext, p: Printer, nowMs: int)
    ensures PrintJustEnded(c, p, nowMs) == PrintEnds(c, p, nowMs)
  {
  }

  /** Without work in AUTO the print context is dropped and nothing else moves. */
  lemma OtherModesForget(c: AutoContext, p: Printer, nowMs: int)
    requires !c.s.workOn || !c.s.mode.Auto?
    ensures AfterAutoContext(c, p, nowMs) == AutoContext(c.s, false, p.normalized)
  {
  }

  /** While the print goes on, or has not begun, an AUTO job only takes note of it. */
  lemma PrintGoesOn(c: AutoContext, p: Printer, nowMs: int)
    requires c.s.workOn && c.s.mode.Auto? && !PrintEnds(c, p, nowMs) && !c.s.keepWarm.active
    ensures AfterAutoContext(c, p, nowMs)
         == AutoContext(c.s, c.seen || (Reports(p, nowMs) && Prints(p)), p.normalized)
  {
    PrinterIs(p, nowMs);
    PrintEndIs(c, p, nowMs);
    hide PrintJustEnded, PrintEnds, Reports, Prints, IsPrinting, PrinterFresh;
  }

  /**
   * At its end the job cools down, keeps warm, or tempers, as configured. (Keep-warm minutes negative enough to put
   * its end before the clock's zero leave it without an end.)
   */
  lemma PrintEndOutcome(c: AutoContext, p: Printer, nowMs: int)
    requires c.s.workOn && c.s.mode.Auto? && PrintEnds(c, p, nowMs) && nowMs > 0
    requires !c.s.keepWarm.active && !c.s.ramp.phase.RampActive?
    ensures var a, endMs := AfterAutoContext(c, p, nowMs).s, nowMs + c.s.keepWarm.minutes * 60_000;
            if c.s.finish.FinishTempering? && c.s.ramp.enabled then
              a == c.s.(ramp := a.ramp) && (a.ramp.phase.RampActive? <==> c.s.ramp.minutes > 0)
            else if c.s.finish.FinishKeepWarm? && (c.s.keepWarm.minutes > 0 || endMs <= 0) then
              a == c.s.(keepWarm := c.s.keepWarm.(active := true, endMs := endMs))
            else !a.workOn
  {
    PrintEndIs(c, p, nowMs);
    PrinterIs(p, nowMs);
    hide PrintJustEnded, IsPrinting, PrinterFresh;
  }

  /** A ramp starts only for an AUTO job at work that has seen its print, and from the selected target down. */
  lemma TemperingStart(s: Settings, seen: bool, nowMs: int)
    ensures var a := StartTempering(s, seen, nowMs);
            var r, m := a.ramp, s.ramp.minutes;
            var minutes := if m <= 0 then 0 else if m >= 240 then 240 else m;
            if s.workOn && s.mode.Auto? && s.ramp.enabled && seen && !s.ramp.phase.RampActive? then
              && a == s.(ramp := r) && r.enabled && r.startC == r.currentC == Bounded(s.targetC)
              && 0 <= r.endC <= r.startC && (0 <= s.ramp.endC <= r.startC ==> r.endC == s.ramp.endC)
              && r.minutes == minutes && r.startMs == nowMs && r.endMs == nowMs + minutes * 60_000
              && r.phase == (if minutes == 0 then RampComplete else RampActive)
            else a == s
  {
  }

  /** A ramp that is over ends work at its end temperature; one that ran its time also lets the print be forgotten. */
  lemma TemperingOutcome(s: Settings, seen: bool, nowMs: int)
    requires s.ramp.phase.RampActive?
    ensures var (a, seenAfter) := AfterTempering(s, seen, nowMs);
            var r := s.ramp;
            var timed := r.minutes > 0 && r.startMs < r.endMs;
            var over := !timed || nowMs >= r.endMs;
            && a == s.(workOn := s.workOn && !over, ramp := a.ramp)
            && a.ramp == r.(phase := if over then RampComplete else RampActive, currentC := a.ramp.currentC)
            && (over ==> a.ramp.currentC == r.endC) && seenAfter == (seen && !(timed && over))
  {
    hide RampLine, Ceil;
  }

  // ---------------------------------------------------------------- drying, profile, pause and resume

  lemma DryingOutcome(s: Settings, nowMs: int)
    ensures var (a, done) := AfterDrying(s, nowMs);
            && (done <==> s.mode.Drying? && s.drying.running && 0 < s.drying.endMs <= nowMs)
            && a == (if done then s.(workOn := false, drying := s.drying.(running := false, endMs := 0)) else s)
  {
  }

  lemma ProfileOutcome(s: Settings, p: Profile)
    ensures AfterProfile(s, Some(p))
         == s.(targetC := Bounded(p.targetC), drying := s.drying.(mode := p.dryingMode, customC := Bounded(p.dryingC)),
               preheat := s.preheat.(targetC := Bounded(p.targetC), holdMin := p.holdMin))
  {
  }

  /** A clock of a job that is set moves by the time spent paused; one that is not stays unset. */
  predicate Moved(before: int, after: int, pausedMs: int) { after == if before > 0 then before + pausedMs else before }

  lemma ClockMoves(s: Settings, c: Clock, pausedMs: int)
    ensures Moved(ClockOf(s, c), ClockOf(ShiftClocks(s, pausedMs), c), pausedMs)
  {
  }

  lemma ClockStands(s: Settings, c: Clock)
    ensures ClockOf(s.(userPaused := false, userPauseStartedMs := 0), c) == ClockOf(s, c)
  {
  }

  /**
   * A pause stops a job at work at this time and nothing else; a resume lets it go on, with every clock of every job
   * moved by the time spent paused.
   */
  lemma PauseAndResume(s: Settings, r: JobRequest, nowMs: int)
    requires r.pauseJob.Some? && !ExplicitStart(r)
    ensures var a := AfterJobCommand(s, r, nowMs);
            var pausedMs := if nowMs > s.userPauseStartedMs then nowMs - s.userPauseStartedMs else 0;
            if r.pauseJob.value then
              a == if s.workOn && !s.userPaused then s.(userPaused := true, userPauseStartedMs := nowMs) else s
            else if s.workOn && s.userPaused then
              && !a.userPaused && a.userPauseStartedMs == 0 && a.workOn
              && (forall c :: Moved(ClockOf(s, c), ClockOf(a, c), pausedMs))
              && SameButClocks(s, a)
            else a == s
  {
    hide ClockOf, Moved, ShiftClocks, SameButClocks;
    if r.pauseJob == Some(false) && s.workOn && s.userPaused {
      var pausedMs := if nowMs > s.userPauseStartedMs then nowMs - s.userPauseStartedMs else 0;
      var a := ShiftClocks(s, pausedMs);
      ShiftsOnlyClocks(s, pausedMs);
      forall c ensures Moved(ClockOf(s, c), ClockOf(a.(userPaused := false, userPauseStartedMs := 0), c), pausedMs) {
        ClockMoves(s, c, pausedMs);
        ClockStands(a, c);
      }
    }
  }

  /** Equal in everything but the pause and the job clocks. */
  predicate SameButClocks(s: Settings, a: Settings)
  {
    && a.mode == s.mode && a.workOn == s.workOn && a.targetC == s.targetC && a.sessionStartedMs == s.sessionStartedMs
    && a.sessionMaxMin == s.sessionMaxMin && a.schedule == s.schedule && a.latchArmed == s.latchArmed
    && a.drying == s.drying.(endMs := a.drying.endMs) && a.dryout == s.dryout.(endMs := a.dryout.endMs)
    && a.preheat == s.preheat.(holdStartMs := a.preheat.holdStartMs, endMs := a.preheat.endMs)
    && a.ramp == s.ramp.(startMs := a.ramp.startMs, endMs := a.ramp.endMs)
    && a.health == s.health.(startMs := a.health.startMs) && a.keepWarm == s.keepWarm.(endMs := a.keepWarm.endMs)
  }

  lemma ShiftsOnlyClocks(s: Settings, pausedMs: int)
    ensures var a := ShiftClocks(s, pausedMs);
            a.workOn == s.workOn && SameButClocks(s, a.(userPaused := false, userPauseStartedMs := 0))
  {
  }

  /** A start turns work on; a request that neither starts, pauses nor resumes leaves the settings alone. */
  lemma StartTurnsOn(s: Settings, r: JobRequest, nowMs: int)
    ensures var a := AfterJobCommand(s, r, nowMs);
            var starts := r.workOn == Some(true) && r.workMode.Some? && r.workMode.value in {1, 2, 3, 4, 5, 6};
            && (starts ==> a.workOn) && (!starts && r.pauseJob.None? ==> a == s)
            && (starts && !r.temperingNow && !(s.mode.Drying? && s.drying.running && r.dryingMin.Some?) ==>
                  a == s.(workOn := true))
  {
  }

  /**
   * The session clock: none without work; started with the work; and at the configured limit, of at most 720 minutes,
   * work ends with drying, preheat and ramp.
   */
  lemma SessionOutcome(s: Settings, nowMs: int)
    ensures var (a, expired) := AfterSessionWatchdog(s, nowMs);
            var minutes := if 1 <= s.sessionMaxMin <= 720 then s.sessionMaxMin else 720;
            if !s.workOn then !expired && a == s.(sessionStartedMs := 0)
            else if s.sessionStartedMs <= 0 then !expired && a == s.(sessionStartedMs := nowMs)
            else
              && (expired <==> nowMs - s.sessionStartedMs >= minutes * 60_000)
              && (!expired ==> a == s.(sessionMaxMin := minutes))
              && (expired ==> && !a.workOn && !a.drying.running && !a.preheat.running && a.preheat.phase.PreheatIdle?
                              && a.ramp.phase.RampIdle? && a.sessionStartedMs == s.sessionStartedMs)
  {
  }

  /** What a tick reports: the end of one job, by the first of them in this order; a session limit; or nothing. */
  lemma OutcomeReported(s: Settings, preheated: bool, driedOut: bool, tested: bool, nowMs: int)
    ensures var fault := Outcome(s, preheated, driedOut, tested, nowMs).1;
            && (fault == HF.DRYOUT_COMPLETE <==> driedOut)
            && (fault in {HF.HEALTH_TEST_COMPLETE, HF.HEALTH_TEST_FAILED} <==> tested && !driedOut)
            && (tested && !driedOut ==> (fault == HF.HEALTH_TEST_COMPLETE <==> s.health.ok))
            && (driedOut || tested || preheated ==> fault != HF.OK && fault != HF.SESSION_TIMEOUT)
  {
    hide AfterSessionWatchdog, AfterDrying;
  }
}
