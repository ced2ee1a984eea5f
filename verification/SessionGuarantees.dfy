/** The session limit, from the watchdog of the job logic to whole runs of the device. */
module SessionGuarantees {
  import opened PlantState
  import opened FanTriac
  import opened ControlLease
  import opened ControlPlane
  import opened ControlTick
  import opened Jobs
  import opened JobSession
  import opened TickGuarantees
  import opened Firmware
  import opened FirmwareGuarantees
  import J = JobGuarantees

  // ---------------------------------------------------------------- one control pass

  /** Work on an invalid sensor trips, or finds, the latch in the same pass. */
  lemma BadSensorsLatch(p: Plant, c: Ctl, i: TickIn)
    requires Jobbed(p, c, i).st.workOn && !ValidSensors(Jobbed(p, c, i).rt)
    ensures Tick(p, c, i).sawLatch
  {
    hide Tick, Jobbed, WatchSensors, DecideDemand, JudgeFaults, ConsultLatch;
    WatchFacts(Jobbed(p, c, i), i, SampleAccepted(c.watch, i));
    WatchKeepsInvalid(Jobbed(p, c, i), i, SampleAccepted(c.watch, i));
    BadSensorsAreHazard(Watched(p, c, i), i);
    LatchFacts(Judged(p, c, i), Decided(p, c, i).sensorsOk, Decided(p, c, i).overtemp);
    TickUnfolds(p, c, i);
  }

  lemma WatchKeepsInvalid(a: Pass, i: TickIn, accepted: bool)
    requires !ValidSensors(a.rt)
    ensures !ValidSensors(WatchSensors(a, i, accepted).0.rt)
  {
    hide StepWatch;
    var (b, health) := StepWatch(RestWatch(a), i, accepted);
    StepKeepsRuntime(RestWatch(a), i, accepted);
  }

  lemma StepKeepsRuntime(a: Pass, i: TickIn, accepted: bool)
    ensures StepWatch(a, i, accepted).0.rt == a.rt
  {
  }

  lemma JobbedIsInSession(p: Plant, c: Ctl, i: TickIn)
    requires i.NowMs() > 0 && Jobbed(p, c, i).st.workOn && ValidSensors(Jobbed(p, c, i).rt)
    ensures InSession(Jobbed(p, c, i).st, p.settings, i.NowMs())
  {
    hide Sense, AfterJobs, ScheduleAllowed;
    SenseFacts(p, c, i);
    RunJobsFacts(Sense(p, c, i), i);
    TickIsInSession(ContextOf(p, c, i), EnvOf(p, c, i));
  }

  /**
   * A pass that commits with work on comes within the configured limit after the start of the session, and the session
   * clock is the one it found running, or starts now. A job whose sensors are invalid is stopped by the latch in the
   * same pass.
   */
  lemma PassIsInSession(p: Plant, c: Ctl, i: TickIn)
    requires i.NowMs() > 0 && !Tick(p, c, i).inhibits && Tick(p, c, i).p.settings.workOn
    ensures InSession(Tick(p, c, i).p.settings, p.settings, i.NowMs())
  {
    hide Tick, Jobbed, Stopped;
    CommittedSettings(p, c, i);
    StoppedIsQuiet(Jobbed(p, c, i).st);
    if !ValidSensors(Jobbed(p, c, i).rt) {
      BadSensorsLatch(p, c, i);
    } else {
      JobbedIsInSession(p, c, i);
    }
  }

  /** A pass that loses its commit leaves the settings alone, cuts the SSR and inhibits the device. */
  lemma LostCommit(p: Plant, c: Ctl, i: TickIn)
    requires Tick(p, c, i).inhibits
    ensures var o := Tick(p, c, i); o.p.settings == p.settings && !o.p.ssr && o.p.latch.inhibited
  {
    hide Tick, Consulted, PlanOutputs, Commit, Drive;
    TickUnfolds(p, c, i);
    ConsultedFrame(p, c, i);
    PlanFacts(Consulted(p, c, i), Decided(p, c, i).controller, i);
    CommitFacts(Planned(p, c, i), i, p.epoch);
    var (q, committed) := Commit(Planned(p, c, i), i, p.epoch);
    DriveFacts(q, Planned(p, c, i), committed, i);
  }

  // ---------------------------------------------------------------- over runs of the device

  lemma PassMovesClock(s: Sys, i: TickIn)
    requires i.NowMs() > 0
    ensures var t := Step(s, ControlPass(i));
            if t.note.inhibits then t.p.settings == s.p.settings && !t.p.ssr && t.p.latch.inhibited
            else t.p.settings.workOn ==> InSession(t.p.settings, s.p.settings, i.NowMs())
  {
    hide Step, Tick, InSession;
    PassIsTick(s, i);
    if Tick(s.p, s.c, i).inhibits {
      LostCommit(s.p, s.c, i);
    } else if Tick(s.p, s.c, i).p.settings.workOn {
      PassIsInSession(s.p, s.c, i);
    }
  }

  /** Pause and resume, like every command that keeps the session clock it was given. */
  lemma PauseKeepsSession(s: Settings, r: JobRequest, t: int)
    requires r in {J.PAUSE, J.RESUME}
    ensures var a := AfterJobCommand(s, r, t);
            a.sessionStartedMs == s.sessionStartedMs && a.workOn == s.workOn
  {
  }

  /** A command that sets another session clock: the start of another session. */
  predicate StartsSession(s: Sys, e: Event)
  {
    e.Command? && e.s.sessionStartedMs != s.p.settings.sessionStartedMs
  }

  lemma OthersKeepClock(s: Sys, e: Event)
    requires !e.ControlPass? && !StartsSession(s, e) && Step(s, e).p.settings.workOn
    ensures Step(s, e).p.settings.sessionStartedMs == s.p.settings.sessionStartedMs
  {
    hide LimitTargets, Stopped, Sanitized, AfterRelease, After, NextEpoch, Admitted, ReservationFree,
         MaintenanceAllowed, AfterEdge, BootLatch, AfterWork;
    match e
    case Work(w) => WorkKeepsJob(s, w);
    case PowerLoss(b) =>
      BootIsOff(b.settings);
      LimitKeepsWork(Sanitized(b.settings));
    case Command(st, _) => LimitKeepsWork(st);
    case Stop => StoppedStaysOff(s.p.settings);
    case EmergencyStop => StoppedStaysOff(s.p.settings);
    case RequestClear => StoppedStaysOff(s.p.settings);
    case _ =>
  }

  lemma BootIsOff(s: Settings)
    ensures !Sanitized(s).workOn
  {
  }

  lemma StoppedStaysOff(s: Settings)
    ensures !LimitTargets(Stopped(s)).workOn
  {
    hide LimitTargets;
    LimitKeepsWork(Stopped(s));
  }

  /** A pass past the configured session limit ends the work, whatever job runs and whatever the sensors say. */
  lemma LimitStopsWork(ss: seq<Sys>, es: seq<Event>, k: nat)
    requires Steps(ss, es) && k < |es| && es[k].ControlPass? && es[k].i.NowMs() > 0
    requires SessionOver(ss[k].p.settings, es[k].i.NowMs())
    ensures if ss[k + 1].note.inhibits then !ss[k + 1].p.ssr && ss[k + 1].p.latch.inhibited
            else !ss[k + 1].p.settings.workOn
  {
    hide Step;
    assert Next(ss, es, k);
    PassMovesClock(ss[k], es[k].i);
  }

  /**
   * While work stays on, whatever passes, pauses, resumes, faults, worker steps and interrupts a run has, the session
   * clock stands; and every pass comes before the configured session limit, at most 720 minutes, has gone by, or loses
   * its commit, switches off and inhibits.
   */
  lemma {:induction false} SessionIsBounded(ss: seq<Sys>, es: seq<Event>, j: nat, k: nat)
    requires Steps(ss, es) && j <= k <= |es| && ss[j].p.settings.sessionStartedMs > 0
    requires forall m :: j <= m <= k ==> ss[m].p.settings.workOn
    requires forall m :: j <= m < k ==> !StartsSession(ss[m], es[m]) && (es[m].ControlPass? ==> es[m].i.NowMs() > 0)
    ensures ss[k].p.settings.sessionStartedMs == ss[j].p.settings.sessionStartedMs
    ensures forall m :: j <= m < k && es[m].ControlPass? ==>
              if ss[m + 1].note.inhibits then !ss[m + 1].p.ssr && ss[m + 1].p.latch.inhibited
              else es[m].i.NowMs() - ss[j].p.settings.sessionStartedMs < SessionLimitMs(ss[m].p.settings)
    decreases k
  {
    hide Step, StartsSession;
    if j < k {
      SessionIsBounded(ss, es, j, k - 1);
      assert Next(ss, es, k - 1);
      assert ss[k].p.settings.workOn && !StartsSession(ss[k - 1], es[k - 1]);
      if es[k - 1].ControlPass? {
        PassMovesClock(ss[k - 1], es[k - 1].i);
      } else {
        OthersKeepClock(ss[k - 1], es[k - 1]);
      }
    }
  }

  /**
   * Heat is bounded by the session: whenever the SSR is on, in any run, the latest pass came within the configured
   * session limit after the session clock it left behind, and that clock is the one it found, or its own time.
   */
  lemma EnergisedIsInSession(ss: seq<Sys>, es: seq<Event>, k: nat) returns (j: nat)
    requires Run(ss, es) && k <= |es| && ss[k].p.ssr
    requires forall m :: 0 <= m < |es| && es[m].ControlPass? ==> es[m].i.NowMs() > 0
    ensures EnergisedBy(ss, es, j, k)
    ensures InSession(ss[j + 1].p.settings, ss[j].p.settings, es[j].i.NowMs())
  {
    hide PowerUp, Step, InSession;
    j := EnergisedIsAdmitted(ss, es, k);
    assert Next(ss, es, j);
    assert es[j].i.NowMs() > 0;
    PassMovesClock(ss[j], es[j].i);
  }
}
