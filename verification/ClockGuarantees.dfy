/** The job clocks over whole runs of the device: passes, commands, faults of others, worker steps and interrupts. */
module ClockGuarantees {
  import opened PlantState
  import opened FanTriac
  import opened ControlLease
  import opened ControlPlane
  import opened ControlTick
  import opened Jobs
  import opened JobSession
  import opened TickGuarantees
  import opened Firmware
  import opened FirmwareGuarantees
  import J = JobGuarantees

  /** A pause or a resume of the settings s at this time. */
  predicate PauseOrResume(s: Settings, st: Settings, atMs: int)
  {
    st == AfterJobCommand(s, J.PAUSE, atMs) || st == AfterJobCommand(s, J.RESUME, atMs)
  }

  /**
   * Event e, at this time, takes s to t and leaves job j to its clock: a pass that neither sees the latch nor loses its
   * commit, with nothing outside the clock to end the job; a pause or a resume; or anything else but a stop.
   */
  predicate Spares(j: J.Job, s: Sys, e: Event, t: Sys, atMs: int)
  {
    match e
    case ControlPass(i) =>
      && i.NowMs() == atMs && !t.note.sawLatch && !t.note.inhibits
      && J.Undisturbed(j, ContextOf(s.p, s.c, i), EnvOf(s.p, s.c, i))
    case Command(st, _) => PauseOrResume(s.p.settings, st, atMs)
    case Stop => false
    case EmergencyStop => false
    case RequestClear => false
    case PowerLoss(_) => false
    case _ => true
  }

  // ---------------------------------------------------------------- one step

  /** The limits and the gate's flags do not touch a job clock. */
  lemma LimitKeepsJob(j: J.Job, s: Settings)
    ensures var a := LimitTargets(s);
            && J.Sole(j, a) == J.Sole(j, s) && J.Running(j, a) == J.Running(j, s) && J.EndOf(j, a) == J.EndOf(j, s)
            && a.userPaused == s.userPaused && a.userPauseStartedMs == s.userPauseStartedMs
  {
    hide ClampTarget;
  }

  lemma FlagsKeepJob(j: J.Job, s: Settings, enabled: bool, armed: bool)
    ensures var a := s.(latchEnabled := enabled, latchArmed := armed);
            && J.Sole(j, a) == J.Sole(j, s) && J.Running(j, a) == J.Running(j, s) && J.EndOf(j, a) == J.EndOf(j, s)
            && a.userPaused == s.userPaused && a.userPauseStartedMs == s.userPauseStartedMs
  {
  }

  /** What a step at `atMs` does to the clock of job j, last looked at at t0. */
  predicate ClockStep(j: J.Job, s: Settings, a: Settings, t0: int, atMs: int, ticks: bool)
  {
    && J.Sole(j, a) && (a.userPaused ==> a.userPauseStartedMs <= atMs) && (J.Running(j, a) ==> J.Running(j, s))
    && (J.Running(j, s) ==>
          (J.Running(j, a) <==> (ticks ==> (s.userPaused || J.Left(j, s, atMs) > 0) && !SessionOver(s, atMs))))
    && (J.Running(j, a) ==> J.Left(j, a, atMs) == J.Left(j, s, t0) - if s.userPaused then 0 else atMs - t0)
  }

  lemma SameClock(j: J.Job, s: Settings, a: Settings, b: Settings, t0: int, atMs: int, ticks: bool)
    requires ClockStep(j, s, a, t0, atMs, ticks)
    requires J.Sole(j, b) == J.Sole(j, a) && J.Running(j, b) == J.Running(j, a) && J.EndOf(j, b) == J.EndOf(j, a)
    requires b.userPaused == a.userPaused && b.userPauseStartedMs == a.userPauseStartedMs
    ensures ClockStep(j, s, b, t0, atMs, ticks)
  {
    hide J.Sole, J.Running, J.EndOf, SessionOver;
  }

  lemma PassMovesJob(j: J.Job, s: Sys, i: TickIn, t0: int)
    requires var st := s.p.settings;
             J.Sole(j, st) && 0 < t0 <= i.NowMs() && (st.userPaused ==> st.userPauseStartedMs <= t0)
    requires Spares(j, s, ControlPass(i), Step(s, ControlPass(i)), i.NowMs())
    ensures ClockStep(j, s.p.settings, Step(s, ControlPass(i)).p.settings, t0, i.NowMs(), true)
  {
    hide Step, Tick, Sense, AfterJobs, ScheduleAllowed, LimitTargets, J.Sole, J.Running, J.EndOf, J.Undisturbed,
         SessionOver;
    PassIsTick(s, i);
    SenseFacts(s.p, s.c, i);
    J.TickKeepsJob(j, ContextOf(s.p, s.c, i), EnvOf(s.p, s.c, i), t0);
    var armed := GoingOnCommits(s.p, s.c, i);
    var a := AfterJobs(ContextOf(s.p, s.c, i), EnvOf(s.p, s.c, i)).ctx.s;
    var b := a.(latchEnabled := true, latchArmed := armed);
    FlagsKeepJob(j, a, true, armed);
    LimitKeepsJob(j, b);
    SameClock(j, s.p.settings, a, LimitTargets(b), t0, i.NowMs(), true);
  }

  lemma OthersMoveJob(j: J.Job, s: Sys, e: Event, t0: int, atMs: int)
    requires var st := s.p.settings;
             J.Sole(j, st) && 0 < t0 <= atMs && (st.userPaused ==> st.userPauseStartedMs <= t0)
    requires !e.ControlPass? && Spares(j, s, e, Step(s, e), atMs)
    ensures ClockStep(j, s.p.settings, Step(s, e).p.settings, t0, atMs, false)
  {
    hide Step, J.Sole, J.Running, J.EndOf, AfterJobCommand, LimitTargets, SessionOver;
    if e.Command? && Step(s, e) != s {
      CommandSets(s, e);
      var paused := AfterJobCommand(s.p.settings, J.PAUSE, atMs);
      J.CommandKeepsJob(j, s.p.settings, if e.s == paused then J.PAUSE else J.RESUME, t0, atMs);
      LimitKeepsJob(j, e.s);
      SameClock(j, s.p.settings, e.s, LimitTargets(e.s), t0, atMs, false);
    } else if !e.Command? {
      OthersKeepSettings(s, e);
    }
  }

  lemma CommandSets(s: Sys, e: Event)
    requires e.Command? && Step(s, e) != s
    ensures Step(s, e).p.settings == LimitTargets(e.s)
  {
    hide Tick, Seen, AfterWork, Booted, LimitTargets, NextEpoch, Admitted, Deferred;
  }

  lemma OthersKeepSettings(s: Sys, e: Event)
    requires !e.ControlPass? && !e.Command? && !e.Stop? && !e.EmergencyStop? && !e.RequestClear? && !e.PowerLoss?
    ensures Step(s, e).p.settings == s.p.settings
  {
    hide Tick, Seen, AfterWork, Booted, ReservationFree, MaintenanceAllowed, AfterEdge, After, AfterStop,
         AfterEmergencyStop, AfterClearRequest, AfterCommand, Admitted;
    if e.Work? {
      WorkKeepsJob(s, e.w);
    }
  }

  // ---------------------------------------------------------------- over whole runs

  /** Job j runs at state `from` of a run whose states lie at times `at`, and up to state k is left to its clock. */
  predicate LeftToClock(j: J.Job, ss: seq<Sys>, es: seq<Event>, at: seq<int>, from: nat, k: nat)
  {
    && |ss| == |es| + 1 == |at| && from <= k <= |es| && 0 < at[from]
    && (var s := ss[from].p.settings;
        J.Sole(j, s) && J.Running(j, s) && (s.userPaused ==> s.userPauseStartedMs <= at[from]))
    && forall m :: from <= m < k ==> at[m] <= at[m + 1] && Spares(j, ss[m], es[m], ss[m + 1], at[m + 1])
  }

  /** Wall time minus paused time from state `from` to state k. */
  function UnpausedMs(ss: seq<Sys>, at: seq<int>, from: nat, k: nat): int
    requires from <= k < |ss| == |at|
  {
    if k == from then 0
    else
      UnpausedMs(ss, at, from, k - 1) + if ss[k - 1].p.settings.userPaused then 0 else at[k] - at[k - 1]
  }

  lemma StepMovesJob(j: J.Job, s: Sys, e: Event, t0: int, atMs: int)
    requires var st := s.p.settings;
             J.Sole(j, st) && 0 < t0 <= atMs && (st.userPaused ==> st.userPauseStartedMs <= t0)
    requires Spares(j, s, e, Step(s, e), atMs)
    ensures ClockStep(j, s.p.settings, Step(s, e).p.settings, t0, atMs, e.ControlPass?)
  {
    hide Step, J.Sole, ClockStep, ContextOf, EnvOf, J.Undisturbed, PauseOrResume;
    if e.ControlPass? {
      PassMovesJob(j, s, e.i, t0);
    } else {
      OthersMoveJob(j, s, e, t0, atMs);
    }
  }

  /** While the job runs, its remaining time is its budget minus the un-paused time so far. */
  lemma {:induction false} BudgetIsSpent(j: J.Job, ss: seq<Sys>, es: seq<Event>, at: seq<int>, from: nat, k: nat)
    requires Steps(ss, es) && LeftToClock(j, ss, es, at, from, k)
    ensures var s := ss[k].p.settings;
            && J.Sole(j, s) && 0 < at[k] && (s.userPaused ==> s.userPauseStartedMs <= at[k])
            && (J.Running(j, s) ==>
                  J.Left(j, s, at[k]) == J.Left(j, ss[from].p.settings, at[from]) - UnpausedMs(ss, at, from, k))
    decreases k
  {
    hide Step, J.Sole, J.Running, J.Left, Spares, SessionOver;
    if from < k {
      BudgetIsSpent(j, ss, es, at, from, k - 1);
      assert Next(ss, es, k - 1);
      assert at[k - 1] <= at[k - 1 + 1] && Spares(j, ss[k - 1], es[k - 1], ss[k - 1 + 1], at[k - 1 + 1]);
      StepMovesJob(j, ss[k - 1], es[k - 1], at[k - 1], at[k]);
    }
  }

  /**
   * Job clocks of the device: in any run, a pass that finds the job running ends it exactly when the un-paused time
   * since `from` has reached the job's budget (and the job is not paused), or when the session has lasted for its
   * configured limit; no other event ends it, and a stopped job stays stopped. `Spares` leaves out the ends that are
   * not the clock's: stops, power loss, the latch, a lost commit, other commands, the printer-pause policy.
   */
  lemma DeviceJobRunsItsTime(j: J.Job, ss: seq<Sys>, es: seq<Event>, at: seq<int>, from: nat, k: nat)
    requires Steps(ss, es) && k < |es| && LeftToClock(j, ss, es, at, from, k + 1) && from <= k
    ensures J.Running(j, ss[k + 1].p.settings) ==> J.Running(j, ss[k].p.settings)
    ensures var s := ss[k].p.settings;
            J.Running(j, s) ==>
              (J.Running(j, ss[k + 1].p.settings) <==>
               (es[k].ControlPass? ==>
                  && (s.userPaused || UnpausedMs(ss, at, from, k + 1) < J.Left(j, ss[from].p.settings, at[from]))
                  && !SessionOver(s, at[k + 1])))
  {
    hide Step, J.Sole, J.Running, Spares, SessionOver;
    BudgetIsSpent(j, ss, es, at, from, k);
    assert Next(ss, es, k);
    assert at[k] <= at[k + 1] && Spares(j, ss[k], es[k], ss[k + 1], at[k + 1]);
    StepMovesJob(j, ss[k], es[k], at[k], at[k + 1]);
  }
}
