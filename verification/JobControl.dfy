/** The update_* functions of main/safety.c and main/job_commands.h in the form they have there: in-place steps. */
module JobControl {
  import opened Common
  import opened PlantState
  import opened Jobs
  import HF = HeaterFaults

  /** The settings copy the control task works on, with the two statics of the AUTO context. */
  class JobState {
    var st: Settings
    var autoSeen: bool
    var lastAuto: PrinterState

    ghost function View(): AutoContext
      reads this
    {
      AutoContext(st, autoSeen, lastAuto)
    }

    constructor (settings: Settings, seen: bool, last: PrinterState)
      ensures View() == AutoContext(settings, seen, last)
    {
      st, autoSeen, lastAuto := settings, seen, last;
    }

    method Stop()
      modifies this`st
      ensures st == Stopped(old(st))
    {
      st := st.(userPaused := false, userPauseStartedMs := 0);
      st := st.(workOn := false, latchArmed := false);
      st := st.(drying := st.drying.(running := false, endMs := 0));
      st := st.(preheat := st.preheat.(running := false, endMs := 0));
      st := st.(preheat := st.preheat.(phase := PreheatIdle, holdStartMs := 0));
      st := st.(dryout := st.dryout.(running := false, endMs := 0));
      st := st.(health := st.health.(running := false, phase := HealthIdle));
      st := st.(schedule := st.schedule.(enabled := false, startMs := 0));
      st := st.(keepWarm := st.keepWarm.(active := false, endMs := 0), pickup := false);
      st := st.(ramp := st.ramp.(phase := RampIdle, startMs := 0, endMs := 0));
      st := st.(soak := st.soak.(phase := SoakIdle), sessionStartedMs := 0);
    }

    method StartTemperingIfEnabled(nowMs: int)
      modifies this`st
      ensures st == StartTempering(old(st), autoSeen, nowMs)
    {
      if !st.workOn || !st.ramp.enabled {
        return;
      }
      if !st.mode.Auto? || st.ramp.phase.RampActive? || !autoSeen {
        return;
      }
      var startC := ClampTarget(st.targetC);
      var endC := st.ramp.endC;
      if endC < 0 {
        endC := 0;
      }
      if endC > startC {
        endC := startC;
      }
      var r := st.ramp.(startC := startC, currentC := startC, endC := endC, startMs := nowMs);
      var minutes := r.minutes;
      if minutes < 0 {
        minutes := 0;
      }
      if minutes > 240 {
        minutes := 240;
      }
      r := r.(minutes := minutes, endMs := nowMs + minutes * 60 * 1000);
      r := r.(phase := if minutes == 0 then RampComplete else RampActive);
      st := st.(ramp := r);
    }

    method UpdateTempering(nowMs: int)
      modifies this`st, this`autoSeen
      ensures (st, autoSeen) == AfterTempering(old(st), old(autoSeen), nowMs)
    {
      var r := st.ramp;
      if !r.phase.RampActive? {
        return;
      }
      if r.minutes <= 0 || r.endMs <= r.startMs {
        r := r.(currentC := r.endC);
        st := st.(ramp := r.(phase := RampComplete), workOn := false);
        return;
      }
      if nowMs >= r.endMs {
        r := r.(currentC := r.endC);
        st := st.(ramp := r.(phase := RampComplete), workOn := false);
        autoSeen := false;
        return;
      }
      var t := (nowMs - r.startMs) as real / (r.endMs - r.startMs) as real;
      if t < 0.0 {
        t := 0.0;
      }
      if t > 1.0 {
        t := 1.0;
      }
      var target := r.startC as real + (r.endC - r.startC) as real * t;
      st := st.(ramp := r.(currentC := Ceil(target)));
    }

    method UpdatePreheat(chamber: Temp, nowMs: int) returns (done: bool)
      modifies this`st
      ensures (st, done) == AfterPreheat(old(st), chamber, nowMs)
    {
      if !st.mode.Preheat? || !st.preheat.running {
        if !st.mode.Preheat? && !st.preheat.phase.PreheatComplete? {
          st := st.(preheat := st.preheat.(phase := PreheatIdle, holdStartMs := 0, endMs := 0));
        }
        return false;
      }
      var p := st.preheat;
      var target := ClampTarget(p.targetC);
      p := p.(targetC := target);
      if p.holdMin < 1 {
        p := p.(holdMin := 1);
      }
      if p.holdMin > 240 {
        p := p.(holdMin := 240);
      }
      if p.phase.PreheatIdle? || p.phase.PreheatComplete? {
        p := p.(phase := PreheatHeating, holdStartMs := 0, endMs := 0);
      }
      if p.phase.PreheatHeating? {
        if chamber.Deg? && chamber.c >= target as real - PREHEAT_BAND_C {
          p := p.(phase := PreheatHolding, holdStartMs := nowMs);
          p := p.(endMs := nowMs + p.holdMin * 60 * 1000);
        }
        st := st.(preheat := p);
        return false;
      }
      if p.phase.PreheatHolding? && p.endMs > 0 && nowMs >= p.endMs {
        p := p.(running := false, phase := PreheatComplete);
        st := st.(preheat := p, workOn := false);
        return true;
      }
      st := st.(preheat := p);
      return false;
    }

    method DryingTimerExpired(nowMs: int) returns (expired: bool)
      modifies this`st
      ensures (st, expired) == AfterDrying(old(st), nowMs)
    {
      if !st.mode.Drying? || !st.drying.running {
        return false;
      }
      if st.drying.endMs <= 0 {
        return false;
      }
      if nowMs < st.drying.endMs {
        return false;
      }
      st := st.(drying := st.drying.(running := false), workOn := false);
      st := st.(drying := st.drying.(endMs := 0));
      return true;
    }

    method UpdateDryout(nowMs: int) returns (done: bool)
      modifies this`st
      ensures (st, done) == AfterDryout(old(st), nowMs)
    {
      if !st.mode.DryOut? || !st.dryout.running {
        return false;
      }
      if st.dryout.endMs <= 0 {
        if st.dryout.minutes < 1 {
          st := st.(dryout := st.dryout.(minutes := 1));
        }
        if st.dryout.minutes > 240 {
          st := st.(dryout := st.dryout.(minutes := 240));
        }
        st := st.(dryout := st.dryout.(endMs := nowMs + st.dryout.minutes * 60 * 1000), workOn := true);
      }
      if nowMs < st.dryout.endMs {
        return false;
      }
      st := st.(dryout := st.dryout.(running := false, endMs := 0), workOn := false);
      return true;
    }

    method UpdateHealthTest(rt: Runtime, nowMs: int) returns (done: bool)
      modifies this`st
      ensures (st, done) == AfterHealth(old(st), rt, nowMs)
    {
      if !st.mode.HealthTest? || !st.health.running {
        return false;
      }
      var h := st.health;
      if h.phase.HealthIdle? {
        h := h.(phase := HealthPreFan, startMs := nowMs);
        h := h.(startPtc := rt.ptc, startChamber := rt.chamber, ok := false);
      }
      if !rt.chamberStatus.SensorOk? || !rt.ptcStatus.SensorOk? {
        st := st.(health := h.(phase := HealthFailed, running := false, ok := false));
        return true;
      }
      var elapsed := nowMs - h.startMs;
      if h.phase.HealthPreFan? && elapsed > 5000 {
        h := h.(phase := HealthHeating);
      }
      var seconds := h.seconds;
      if seconds < 30 {
        seconds := 30;
      }
      if seconds > 300 {
        seconds := 300;
      }
      h := h.(seconds := seconds);
      if elapsed < seconds * 1000 {
        st := st.(health := h);
        return false;
      }
      var ok := Rose(rt.ptc, h.startPtc, HEALTH_MIN_PTC_RISE) ||
                Rose(rt.chamber, h.startChamber, HEALTH_MIN_CHAMBER_RISE);
      h := h.(phase := if ok then HealthComplete else HealthFailed, ok := ok, running := false);
      st := st.(health := h, workOn := false);
      return true;
    }

    method StartScheduled()
      modifies this`st
      ensures st == ScheduledStart(old(st))
    {
      hide ClampTarget;
      st := st.(schedule := st.schedule.(enabled := false));
      st := st.(preheat := st.preheat.(running := true, phase := PreheatHeating));
      st := st.(preheat := st.preheat.(targetC := ClampTarget(st.schedule.targetC)));
      st := st.(preheat := st.preheat.(holdMin := if st.schedule.holdMin < 1 then 1 else st.schedule.holdMin));
      st := st.(workOn := true, mode := Preheat);
    }

    method UpdateSchedule(allowed: bool, nowMs: int)
      modifies this`st
      ensures st == AfterSchedule(old(st), allowed, nowMs)
    {
      hide Stopped, ScheduledStart;
      if !st.schedule.enabled {
        return;
      }
      if !allowed {
        Stop();
        return;
      }
      if st.schedule.startMs <= 0 {
        if st.schedule.delayMin < 0 {
          st := st.(schedule := st.schedule.(delayMin := 0));
        }
        if st.schedule.delayMin > 1440 {
          st := st.(schedule := st.schedule.(delayMin := 1440));
        }
        st := st.(schedule := st.schedule.(startMs := nowMs + st.schedule.delayMin * 60 * 1000));
        return;
      }
      if nowMs < st.schedule.startMs {
        return;
      }
      StartScheduled();
    }

    method UpdatePausePolicy(p: Printer, nowMs: int)
      modifies this`st
      ensures st == AfterPausePolicy(old(st), p, autoSeen, nowMs)
    {
      hide IsPauseOrError, WhilePaused;
      if !st.mode.Auto? || !st.pause.enabled || !autoSeen {
        st := st.(pause := st.pause.(seenMs := 0));
        return;
      }
      if !IsPauseOrError(p) {
        st := st.(pause := st.pause.(seenMs := 0));
        return;
      }
      ApplyPausePolicy(nowMs);
    }

    method ApplyPausePolicy(nowMs: int)
      modifies this`st
      ensures st == WhilePaused(old(st), nowMs)
    {
      hide TruncDiv;
      var h := st.pause;
      if h.seenMs <= 0 {
        h := h.(seenMs := nowMs);
      }
      var pausedMin := TruncDiv(nowMs - h.seenMs, 60000);
      if h.strategy.HoldLower? && pausedMin >= h.lowerAfterMin && h.lowerByC > 0 {
        var lowered := st.targetC - h.lowerByC;
        if lowered < 0 {
          lowered := 0;
        }
        h := h.(lowerByC := 0);
        st := st.(targetC := lowered, pause := h);
      } else if h.strategy.HoldStopAfter? && pausedMin >= h.stopAfterMin {
        st := st.(workOn := false, pause := h);
      } else {
        st := st.(pause := h);
      }
    }

    method UpdateAutoContext(p: Printer, nowMs: int)
      modifies this
      ensures View() == AfterAutoContext(old(View()), p, nowMs)
    {
      if !st.workOn || !st.mode.Auto? {
        autoSeen := false;
        lastAuto := p.normalized;
        return;
      }
      if PrinterFresh(p, nowMs) && IsPrinting(p) {
        autoSeen := true;
      }
      var lastWasActive := WasActive(lastAuto);
      var nowDone := PrinterFresh(p, nowMs) && IsDone(p);
      if lastWasActive && nowDone && autoSeen {
        FinishPrint(nowMs);
      }
      if st.keepWarm.active && st.keepWarm.endMs > 0 && nowMs >= st.keepWarm.endMs {
        st := st.(keepWarm := st.keepWarm.(active := false), workOn := false);
        autoSeen := false;
      }
      lastAuto := p.normalized;
    }

    /** The finish-conditioning branch of update_auto_context. */
    method FinishPrint(nowMs: int)
      modifies this`st, this`autoSeen
      ensures (st, autoSeen) == AfterPrintEnd(old(st), old(autoSeen), nowMs)
    {
      if st.finish.FinishTempering? && st.ramp.enabled {
        StartTemperingIfEnabled(nowMs);
      } else if st.finish.FinishKeepWarm? {
        st := st.(keepWarm := st.keepWarm.(active := true, endMs := nowMs + st.keepWarm.minutes * 60 * 1000));
      } else {
        st := st.(workOn := false);
        autoSeen := false;
      }
    }

    method UpdateSessionWatchdog(nowMs: int) returns (expired: bool)
      modifies this`st
      ensures (st, expired) == AfterSessionWatchdog(old(st), nowMs)
    {
      if !st.workOn {
        st := st.(sessionStartedMs := 0);
        return false;
      }
      if st.sessionStartedMs <= 0 {
        st := st.(sessionStartedMs := nowMs);
        return false;
      }
      if st.sessionMaxMin <= 0 || st.sessionMaxMin > SESSION_LIMIT_MIN {
        st := st.(sessionMaxMin := SESSION_LIMIT_MIN);
      }
      var maxMs := st.sessionMaxMin * 60 * 1000;
      if nowMs - st.sessionStartedMs < maxMs {
        return false;
      }
      st := st.(workOn := false);
      st := st.(drying := st.drying.(running := false, endMs := 0));
      st := st.(preheat := st.preheat.(running := false, phase := PreheatIdle, endMs := 0));
      st := st.(ramp := st.ramp.(phase := RampIdle, endMs := 0));
      return true;
    }

    method ApplyProfile(profile: Option<Profile>)
      modifies this`st
      ensures st == AfterProfile(old(st), profile)
    {
      if profile.Some? {
        var p := profile.value;
        st := st.(targetC := ClampTarget(p.targetC));
        st := st.(drying := st.drying.(mode := p.dryingMode, customC := ClampTarget(p.dryingC)));
        st := st.(preheat := st.preheat.(targetC := ClampTarget(p.targetC), holdMin := p.holdMin));
      }
    }

    /** main/safety.c:1146-1175. */
    method RunJobs(e: TickEnv) returns (fault: int)
      modifies this
      ensures JobTick(View(), fault) == AfterJobs(old(View()), e)
    {
      var preheated, driedOut, tested := false, false, false;
      if !st.userPaused {
        hide AfterSchedule, AfterProfile, AfterPausePolicy, AfterPreheat, AfterDryout, AfterHealth, AfterAutoContext,
             AfterTempering, Conclude;
        ApplyProfile(e.profile);
        UpdateSchedule(e.scheduleAllowed, e.nowMs);
        UpdatePausePolicy(e.printer, e.nowMs);
        preheated := UpdatePreheat(e.rt.chamber, e.nowMs);
        driedOut := UpdateDryout(e.nowMs);
        tested := UpdateHealthTest(e.rt, e.nowMs);
        UpdateAutoContext(e.printer, e.nowMs);
        UpdateTempering(e.nowMs);
      }
      hide AfterUnpaused, AfterSessionWatchdog, DryingExpires;
      ghost var a := View();
      assert (a, preheated, driedOut, tested) ==
             (if old(st).userPaused then (old(View()), false, false, false) else AfterUnpaused(old(View()), e));
      fault := ReportOutcome(preheated, driedOut, tested, e.nowMs);
    }

    method ReportOutcome(preheated: bool, driedOut: bool, tested: bool, nowMs: int) returns (fault: int)
      modifies this`st
      ensures JobTick(View(), fault) == Conclude(old(View()), preheated, driedOut, tested, nowMs)
    {
      var dried := false;
      if !driedOut && !tested && !st.userPaused {
        dried := DryingTimerExpired(nowMs);
      }
      if driedOut {
        fault := HF.DRYOUT_COMPLETE;
      } else if tested {
        fault := if st.health.ok then HF.HEALTH_TEST_COMPLETE else HF.HEALTH_TEST_FAILED;
      } else if dried {
        fault := HF.DRYING_TIMER_EXPIRED;
      } else if preheated {
        fault := HF.PREHEAT_COMPLETE;
      } else {
        var expired := UpdateSessionWatchdog(nowMs);
        fault := if expired then HF.SESSION_TIMEOUT else HF.OK;
      }
      if !st.workOn {
        st := st.(userPaused := false, userPauseStartedMs := 0);
      }
    }

    /** shu1_finish_job_command, with its loop over the pointers to the job clocks. */
    method FinishJobCommand(r: JobRequest, nowMs: int)
      modifies this`st
      ensures st == AfterJobCommand(old(st), r, nowMs)
    {
      PauseOrResume(r, nowMs);
      StartFields(r, nowMs);
    }

    method StartFields(r: JobRequest, nowMs: int)
      modifies this`st
      ensures st == AfterStartFields(old(st), r, nowMs)
    {
      hide AfterDryingField, TemperedNow;
      if !ExplicitStart(r) {
        return;
      }
      st := st.(workOn := true);
      SetDryingMinutes(r, nowMs);
      if r.temperingNow {
        TemperNow(nowMs);
      }
    }

    method SetDryingMinutes(r: JobRequest, nowMs: int)
      modifies this`st
      ensures st == AfterDryingField(old(st), r, nowMs)
    {
      if st.mode.Drying? && st.drying.running && r.dryingMin.Some? {
        var duration := r.dryingMin.value;
        if duration < 1 {
          duration := 1;
        }
        var limit := st.sessionMaxMin;
        if limit < 1 || limit > 720 {
          limit := 720;
        }
        if duration > limit {
          duration := limit;
        }
        st := st.(drying := st.drying.(endMs := nowMs + duration * 60000));
      }
    }

    method TemperNow(nowMs: int)
      modifies this`st
      ensures st == TemperedNow(old(st), nowMs)
    {
      var startC := Clamp(st.targetC, 0, MAX_TARGET_C);
      var endC := st.ramp.endC;
      if endC < 0 {
        endC := 0;
      }
      if endC > startC {
        endC := startC;
      }
      var duration := Clamp(st.ramp.minutes, 1, 240);
      var a := st.ramp.(enabled := true, startC := startC, currentC := startC, endC := endC);
      a := a.(minutes := duration, startMs := nowMs, endMs := nowMs + duration * 60000);
      a := a.(phase := RampActive);
      st := st.(mode := PowerOn, ramp := a);
    }

    method PauseOrResume(r: JobRequest, nowMs: int)
      modifies this`st
      ensures st == AfterPauseField(old(st), r, nowMs)
    {
      if r.pauseJob.Some? && st.workOn && !ExplicitStart(r) {
        if r.pauseJob.value && !st.userPaused {
          st := st.(userPaused := true, userPauseStartedMs := nowMs);
        } else if !r.pauseJob.value && st.userPaused {
          var elapsed := nowMs - st.userPauseStartedMs;
          if elapsed < 0 {
            elapsed := 0;
          }
          MoveClocks(elapsed);
          st := st.(userPaused := false, userPauseStartedMs := 0);
        }
      }
    }

    /** The loop over the pointer array: every set clock moves, unset ones stay unset. */
    method MoveClocks(elapsed: int)
      modifies this`st
      ensures st == ShiftClocks(old(st), elapsed)
    {
      hide WithClock, ClockOf, WithoutClocks, ShiftClocks;
      AllClocksListed();
      for i := 0 to |CLOCKS|
        invariant WithoutClocks(st) == WithoutClocks(old(st))
        invariant forall m :: 0 <= m < |CLOCKS| ==>
                    ClockOf(st, CLOCKS[m]) == if m < i then Shift(ClockOf(old(st), CLOCKS[m]), elapsed)
                                              else ClockOf(old(st), CLOCKS[m])
      {
        var c := CLOCKS[i];
        if ClockOf(st, c) > 0 {
          ClockFrame(st, c, ClockOf(st, c) + elapsed);
          st := WithClock(st, c, ClockOf(st, c) + elapsed);
        }
      }
      ShiftMovesEach(old(st), elapsed);
      forall c: Clock ensures ClockOf(st, c) == ClockOf(ShiftClocks(old(st), elapsed), c) {
        assert c in CLOCKS;
      }
      SameClocks(st, ShiftClocks(old(st), elapsed));
    }
  }

  // ---------------------------------------------------------------- the clock pointers

  function WithoutClocks(s: Settings): Settings
  {
    s.(drying := s.drying.(endMs := 0), preheat := s.preheat.(holdStartMs := 0, endMs := 0),
       ramp := s.ramp.(startMs := 0, endMs := 0), dryout := s.dryout.(endMs := 0),
       keepWarm := s.keepWarm.(endMs := 0), health := s.health.(startMs := 0),
       soak := s.soak.(startMs := 0, endMs := 0))
  }

  /** The array holds every clock exactly once. */
  lemma AllClocksListed()
    ensures forall c: Clock :: c in CLOCKS
    ensures forall i, j :: 0 <= i < j < |CLOCKS| ==> CLOCKS[i] != CLOCKS[j]
  {
    forall c: Clock ensures c in CLOCKS {
      match c
      case DryingEnd => assert CLOCKS[0] == c;
      case PreheatHoldStart => assert CLOCKS[1] == c;
      case PreheatEnd => assert CLOCKS[2] == c;
      case RampStart => assert CLOCKS[3] == c;
      case RampEnd => assert CLOCKS[4] == c;
      case DryoutEnd => assert CLOCKS[5] == c;
      case KeepWarmEnd => assert CLOCKS[6] == c;
      case HealthStart => assert CLOCKS[7] == c;
      case SoakStart => assert CLOCKS[8] == c;
      case SoakEnd => assert CLOCKS[9] == c;
    }
  }

  /** The clocks are independent cells: writing one changes that clock and nothing else. */
  lemma ClockFrame(s: Settings, c: Clock, v: int)
    ensures var a := WithClock(s, c, v);
            && WithoutClocks(a) == WithoutClocks(s)
            && forall d: Clock :: ClockOf(a, d) == if d == c then v else ClockOf(s, d)
  {
    forall d: Clock ensures ClockOf(WithClock(s, c, v), d) == if d == c then v else ClockOf(s, d) {
    }
  }

  /** What the resume owes each clock: set clocks move by the pause, unset ones and all other settings stay. */
  lemma ShiftMovesEach(s: Settings, delta: int)
    ensures WithoutClocks(ShiftClocks(s, delta)) == WithoutClocks(s)
    ensures forall c: Clock :: ClockOf(ShiftClocks(s, delta), c) == Shift(ClockOf(s, c), delta)
  {
    forall c: Clock ensures ClockOf(ShiftClocks(s, delta), c) == Shift(ClockOf(s, c), delta) {
    }
  }

  lemma SameClocks(a: Settings, b: Settings)
    requires WithoutClocks(a) == WithoutClocks(b)
    requires forall c: Clock :: ClockOf(a, c) == ClockOf(b, c)
    ensures a == b
  {
    assert ClockOf(a, DryingEnd) == ClockOf(b, DryingEnd) && ClockOf(a, DryoutEnd) == ClockOf(b, DryoutEnd);
    assert ClockOf(a, PreheatHoldStart) == ClockOf(b, PreheatHoldStart);
    assert ClockOf(a, PreheatEnd) == ClockOf(b, PreheatEnd);
    assert ClockOf(a, RampStart) == ClockOf(b, RampStart) && ClockOf(a, RampEnd) == ClockOf(b, RampEnd);
    assert ClockOf(a, KeepWarmEnd) == ClockOf(b, KeepWarmEnd) && ClockOf(a, HealthStart) == ClockOf(b, HealthStart);
    assert ClockOf(a, SoakStart) == ClockOf(b, SoakStart) && ClockOf(a, SoakEnd) == ClockOf(b, SoakEnd);
  }
}
