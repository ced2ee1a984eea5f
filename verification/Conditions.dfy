/**
 * The conditions the theorems speak of, written on readings, fields and numbers, apart from the functions the model
 * computes with; each is tied to those functions by a lemma where it is used.
 */
module Conditions {
  import opened Common
  import opened PlantState
  import opened FanTriac
  import opened SensorWatch
  import opened ControlPlane
  import opened ControlTick

  // ---------------------------------------------------------------- readings

  /** A new acquisition of this attempt, at most 1.5 s old. */
  predicate NewSample(c: Ctl, i: TickIn)
  {
    && i.sample.Some?
    && var s := i.sample.value;
    && s.sequence != 0 && s.sequence != c.watch.sequence
    && i.attemptUs <= s.startedUs <= s.completedUs <= i.acquiredUs <= s.startedUs + 1_500_000
  }

  /** Both channels report, with finite temperatures and codes inside the ADC range. */
  predicate ReadsBoth(s: Sample)
  {
    && s.chamberStatus.SensorOk? && s.ptcStatus.SensorOk? && s.chamberInstant.Deg? && s.ptcInstant.Deg?
    && 20 < s.chamberRaw < 4094 && 20 < s.ptcRaw < 4094
  }

  /** A new acquisition that is readable on both channels. */
  predicate GoodSample(c: Ctl, i: TickIn) { NewSample(c, i) && ReadsBoth(i.sample.value) }

  /** Below the limit, both as calibrated and with a calibration that adds heat taken back. */
  predicate Cooler(t: Temp, offset: real, limit: real) { t.Deg? && t.c < limit && t.c - offset < limit }

  /** At or above the limit, as calibrated or with the calibration taken back. */
  predicate Hotter(t: Temp, offset: real, limit: real) { t.Deg? && (t.c >= limit || t.c - offset >= limit) }

  /** An acquisition at most 1.5 s old, with both statuses good and both readings finite. */
  predicate RecentReadings(rt: Runtime, nowMs: int)
  {
    && 0 < rt.lastSensorMs <= nowMs <= rt.lastSensorMs + 1500
    && rt.chamberStatus.SensorOk? && rt.ptcStatus.SensorOk? && rt.chamberInstant.Deg? && rt.ptcInstant.Deg?
  }

  /** Both channels of a sample below the hard limits of 85 and 105 C. */
  predicate BelowHardLimits(chamber: Temp, ptc: Temp, b: Board)
  {
    Cooler(chamber, b.chamberOffset, 85.0) && Cooler(ptc, b.ptcOffset, 105.0)
  }

  /** The foldback temperature: as configured within 90 C and the board's own limit, or that limit. */
  function FoldbackC(b: Board, cutoffC: int): real
  {
    var board := if b.rrefKohm == 33 then 99.0 else 102.0;
    if cutoffC <= 0 then board
    else if cutoffC < 90 then 90.0
    else if cutoffC as real > board then board
    else cutoffC as real
  }

  /** One of the channels suspected of being stuck still reads its code, and its deadline of 300 s is over. */
  predicate Stuck(w: Watch, s: Sample, nowUs: int)
  {
    && (w.frozen || (w.warningUs != 0 && (nowUs < w.warningUs || nowUs - w.warningUs >= 300_000_000)))
    && ((w.chamber.suspect && s.chamberRaw == w.chamber.suspectRaw) || (w.ptc.suspect && s.ptcRaw == w.ptc.suspectRaw))
  }

  /** The same while no work is on: only a verdict already given counts. */
  predicate StuckIdle(w: Watch, s: Sample)
  {
    && w.frozen
    && ((w.chamber.suspect && s.chamberRaw == w.chamber.suspectRaw) || (w.ptc.suspect && s.ptcRaw == w.ptc.suspectRaw))
  }

  // ---------------------------------------------------------------- the fan and its signal

  /** The latest accepted zero-cross edge is at most 100 ms old. */
  predicate SignalLive(f: Fan, nowUs: int) { 0 < f.lastEdgeUs <= nowUs <= f.lastEdgeUs + 100_000 }

  /** The fan gate is on and has its signal. */
  predicate GateLive(f: Fan, nowUs: int) { f.initialized && f.applied && SignalLive(f, nowUs) }

  // ---------------------------------------------------------------- the job

  /** A stored temperature as far as it may be used: 0 to 55 C. */
  function Bounded(v: int): int { if v <= 0 then 0 else if v >= 55 then 55 else v }

  /**
   * The set-point of the job that runs: an active ramp, then keep-warm, then the mode's own field, else the selected
   * target; 0 for a mode whose own job does not run.
   */
  function SetPointOf(s: Settings): int
  {
    if s.ramp.phase.RampActive? then Bounded(s.ramp.currentC)
    else if s.keepWarm.active then Bounded(s.keepWarm.targetC)
    else
      match s.mode
      case Auto => Bounded(s.targetC)
      case PowerOn => Bounded(s.targetC)
      case Preheat => if s.preheat.running then Bounded(s.preheat.targetC) else 0
      case DryOut => if s.dryout.running then Bounded(s.dryout.targetC) else 0
      case HealthTest => if s.health.running then Bounded(s.health.targetC) else 0
      case Drying =>
        if !s.drying.running then 0 else if s.drying.mode.Custom? then Bounded(s.drying.customC) else 55
  }

  /** The settings with every stored target within its bounds. */
  function WithBounds(s: Settings): Settings
  {
    s.(targetC := Bounded(s.targetC),
       drying := s.drying.(customC := Bounded(s.drying.customC)),
       preheat := s.preheat.(targetC := Bounded(s.preheat.targetC)),
       schedule := s.schedule.(targetC := Bounded(s.schedule.targetC)),
       dryout := s.dryout.(targetC := Bounded(s.dryout.targetC)),
       health := s.health.(targetC := Bounded(s.health.targetC)),
       ramp := s.ramp.(currentC := Bounded(s.ramp.currentC), endC := Bounded(s.ramp.endC)),
       keepWarm := s.keepWarm.(targetC := Bounded(s.keepWarm.targetC)))
  }

  /** No job, schedule, pause or job clock of any kind is left. */
  predicate NoJob(s: Settings)
  {
    && !s.workOn && !s.latchArmed && !s.userPaused && s.userPauseStartedMs == 0 && s.sessionStartedMs == 0
    && !s.drying.running && s.drying.endMs == 0
    && !s.preheat.running && s.preheat.phase.PreheatIdle? && s.preheat.holdStartMs == 0 && s.preheat.endMs == 0
    && !s.dryout.running && s.dryout.endMs == 0
    && !s.health.running && s.health.phase.HealthIdle?
    && !s.schedule.enabled && s.schedule.startMs == 0
    && !s.keepWarm.active && s.keepWarm.endMs == 0 && !s.pickup
    && s.ramp.phase.RampIdle? && s.ramp.startMs == 0 && s.ramp.endMs == 0 && s.soak.phase.SoakIdle?
  }

  /** No work, no schedule and no job of any mode is on. */
  predicate NothingWorks(s: Settings)
  {
    !(s.workOn || s.schedule.enabled || s.preheat.running || s.drying.running || s.dryout.running || s.health.running ||
      s.keepWarm.active || s.pickup)
  }

  /** Neither output is on or asked for. */
  predicate OutputsOff(p: Plant) { !p.rt.heaterOn && !p.rt.fanOn && !(p.fan.initialized && p.fan.requested) }

  /** A job at work, not paused, with a set-point. */
  predicate JobOn(s: Settings) { s.workOn && !s.userPaused && SetPointOf(s) > 0 }

  predicate PreFan(s: Settings) { s.mode.HealthTest? && s.health.running && s.health.phase.HealthPreFan? }

  /**
   * An AUTO job outside a ramp needs printer data at most 22 s old: of a print over a bed that is, or is to be, warm;
   * or of a pause or error of a print this job has seen.
   */
  predicate PrinterBacks(s: Settings, p: Printer, seen: bool, nowMs: int)
  {
    s.mode.Auto? && !s.ramp.phase.RampActive? ==>
      && p.connected && p.lastUpdateMs > 0 && nowMs - p.lastUpdateMs <= 22_000
      && if p.normalized.Printing? || p.printState.Printing?
         then p.bedTarget >= s.bedTriggerC as real || p.bed >= (s.bedTriggerC - 5) as real
         else seen && (p.normalized in {Paused, PrinterError, PrinterTimeout} || p.printState in {Paused, PrinterError})
  }

  /** Starting anew, the heater waits for the chamber to fall a degree below the set-point. */
  predicate WantsHeat(was: bool, t: Temp, targetC: int)
  {
    t.Deg? && if was then t.c < targetC as real else t.c < targetC as real - 1.0
  }

  /** PTC below the foldback temperature, and 3 C below it while foldback had been in force. */
  predicate FoldbackClear(was: bool, ptc: Temp, b: Board, cutoffC: int)
  {
    Cooler(ptc, b.ptcOffset, FoldbackC(b, cutoffC) - if was then 3.0 else 0.0)
  }

  // ---------------------------------------------------------------- residual heat

  /** The release temperature as configured, from 30 to 65 C. */
  function ReleaseC(s: Settings): int
  {
    if s.coolReleaseC <= 30 then 30 else if s.coolReleaseC >= 65 then 65 else s.coolReleaseC
  }

  /** Both sensors report, and both are below the limit. */
  predicate BothBelow(rt: Runtime, limitC: int)
  {
    && rt.chamberStatus.SensorOk? && rt.chamber.Deg? && rt.chamber.c < limitC as real
    && rt.ptcStatus.SensorOk? && rt.ptc.Deg? && rt.ptc.c < limitC as real
  }

  // ---------------------------------------------------------------- the warm-up watchdog

  /**
   * Readable on both channels at both times, and since then PTC has risen by less than 5 C and the chamber by less
   * than 1 C.
   */
  predicate Flat(ptc: Temp, chamber: Temp, now: Sample)
  {
    && ptc.Deg? && now.ptc.Deg? && now.ptc.c - ptc.c < 5.0
    && chamber.Deg? && now.chamber.Deg? && now.chamber.c - chamber.c < 1.0
  }

  /** A window opened with sample s. */
  function Opened(s: Sample, nowMs: int): Rise { Rise(true, nowMs, nowMs + 60_000, s.ptc, s.chamber) }

  /** A heating pass at this time opens a window: none is open, or the open one is due. */
  predicate OpensWindow(r: Rise, nowMs: int)
  {
    !r.active || (nowMs - r.startedMs >= 15_000 && nowMs >= r.checkDueMs)
  }

  /** The open window is due and shows no rise. */
  predicate NoRise(r: Rise, s: Sample, nowMs: int)
  {
    r.active && OpensWindow(r, nowMs) && Flat(r.startPtc, r.startChamber, s)
  }
}
