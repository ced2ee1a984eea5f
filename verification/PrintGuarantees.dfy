/** What an AUTO job remembers of its print: only what a pass of this very job has seen. */
module PrintGuarantees {
  import opened PlantState
  import opened FanTriac
  import opened SensorWatch
  import opened Jobs
  import opened ControlPlane
  import opened ControlTick
  import opened TickGuarantees
  import opened Conditions
  import opened HeatGuarantees
  import opened Firmware
  import opened FirmwareGuarantees
  import opened ZeroCrossGuarantees
  import opened FreezeGuarantees

  /** A report at most 22 s old of a print that is going on. */
  predicate SeesPrint(p: Printer, nowMs: int)
  {
    && p.connected && p.lastUpdateMs > 0 && nowMs - p.lastUpdateMs <= 22_000
    && (p.normalized.Printing? || p.printState.Printing?)
  }

  // ---------------------------------------------------------------- one pass

  /** The job steps remember a print only if they did before, or see it now. */
  lemma StepsSeePrint(c: AutoContext, e: TickEnv)
    requires AfterJobs(c, e).ctx.seen
    ensures c.seen || SeesPrint(e.printer, e.nowMs)
  {
    hide AfterSchedule, AfterProfile, AfterPausePolicy, AfterPreheat, AfterDryout, AfterHealth, AfterPrintEnd,
         PrintJustEnded, NextRamp, RampIsOver, Outcome, Unpaused, AutoAllowed;
    if !c.s.userPaused {
      ContextSeesPrint(c.(s := UntilContext(c, e)), e.printer, e.nowMs);
    }
  }

  /** The settings update_auto_context is given. */
  function UntilContext(c: AutoContext, e: TickEnv): Settings
  {
    var s1 := AfterSchedule(AfterProfile(c.s, e.profile), e.scheduleAllowed, e.nowMs);
    var s2 := AfterPausePolicy(s1, e.printer, c.seen, e.nowMs);
    AfterHealth(AfterDryout(AfterPreheat(s2, e.rt.chamber, e.nowMs).0, e.nowMs).0, e.rt, e.nowMs).0
  }

  lemma ContextSeesPrint(c: AutoContext, p: Printer, nowMs: int)
    requires AfterAutoContext(c, p, nowMs).seen
    ensures c.seen || SeesPrint(p, nowMs)
  {
  }

  lemma CopiedForgets(p: Plant, c: Ctl)
    ensures var a := Copied(p, c).c;
            a.contextEpoch == p.epoch && a.autoSeen == (c.autoSeen && c.contextEpoch == p.epoch)
  {
  }

  lemma ContextIsOfCommand(p: Plant, c: Ctl, i: TickIn)
    ensures ContextOf(p, c, i).seen == (c.autoSeen && c.contextEpoch == p.epoch)
    ensures EnvOf(p, c, i).printer == p.printer && Sense(p, c, i).c.contextEpoch == p.epoch
  {
    SenseFacts(p, c, i);
    CopiedForgets(p, c);
    hide Copied, HandOver, Acquire, HandOverLease, ReadSensors, SampleAccepted, AfterCut, ScheduleAllowed, Admitting;
    HandOverFrame(Copied(p, c), i.nowUs);
    AcquireFrame(HandOver(Copied(p, c), i.nowUs), i);
  }

  lemma PassSeesPrint(p: Plant, c: Ctl, i: TickIn)
    requires JobOf(p, c, i).seen
    ensures (c.autoSeen && c.contextEpoch == p.epoch) || SeesPrint(p.printer, i.NowMs())
  {
    hide AfterJobs, Sense, ScheduleAllowed;
    ContextIsOfCommand(p, c, i);
    StepsSeePrint(ContextOf(p, c, i), EnvOf(p, c, i));
  }

  lemma WatchedRemembers(p: Plant, c: Ctl, i: TickIn)
    ensures var w := Watched(p, c, i).c; w.autoSeen == JobOf(p, c, i).seen && w.contextEpoch == p.epoch
  {
    hide Sense, RunJobs, WatchSensors, JobOf, SampleAccepted;
    ContextIsOfCommand(p, c, i);
    JobbedIs(p, c, i);
    RunJobsFacts(Sense(p, c, i), i);
    WatchFacts(Jobbed(p, c, i), i, SampleAccepted(c.watch, i));
  }

  lemma PassRemembers(p: Plant, c: Ctl, i: TickIn)
    ensures var o := Tick(p, c, i); o.c.autoSeen == JobOf(p, c, i).seen && o.c.contextEpoch == p.epoch
  {
    hide Tick, Watched, DecideDemand, JudgeFaults, ConsultLatch, PlanOutputs, Commit, Drive, JobOf, AfterEdges;
    TickUnfolds(p, c, i);
    WatchedRemembers(p, c, i);
    DemandFrame(Watched(p, c, i), i);
    JudgeFacts(Decided(p, c, i), i);
    LatchFrame(Judged(p, c, i), Decided(p, c, i).sensorsOk, Decided(p, c, i).overtemp);
  }

  // ---------------------------------------------------------------- over runs

  lemma BootRemembersNothing(s: Sys, b: BootIn)
    ensures !Step(s, PowerLoss(b)).c.autoSeen
  {
    hide BootLatch, LimitTargets, Sanitized;
  }

  lemma PowerUpRemembersNothing(s: Sys)
    requires PowerUp(s)
    ensures !s.c.autoSeen
  {
    hide Booted;
    var b: BootIn :| s == Booted(s.cells, s.marker, s.mailbox.durable, b);
    assert Step(s, PowerLoss(b)) == s;
    BootRemembersNothing(s, b);
  }

  /** Pass j saw a print, and every pass since worked under the same command, without a power loss. */
  predicate SeenUnder(ss: seq<Sys>, es: seq<Event>, j: nat, k: nat, epoch: int)
    requires |ss| == |es| + 1
  {
    && j < k <= |es| && es[j].ControlPass? && SeesPrint(ss[j].p.printer, es[j].i.NowMs()) && SameBoot(es, j, k)
    && forall m :: j <= m < k && es[m].ControlPass? ==> ss[m].p.epoch == epoch
  }

  /** How one step moves the memory. */
  predicate Remembers(s: Sys, e: Event, t: Sys)
  {
    if e.PowerLoss? then !t.c.autoSeen
    else if e.ControlPass? then
      && t.c.contextEpoch == s.p.epoch
      && (t.c.autoSeen ==> SeesPrint(s.p.printer, e.i.NowMs()) || (s.c.autoSeen && s.c.contextEpoch == s.p.epoch))
    else t.c == s.c
  }

  lemma StepRemembers(s: Sys, e: Event)
    ensures Remembers(s, e, Step(s, e))
  {
    hide Step, SeesPrint, JobOf, Tick;
    if e.PowerLoss? {
      BootRemembersNothing(s, e.b);
    } else if e.ControlPass? {
      PassIsTick(s, e.i);
      PassRemembers(s.p, s.c, e.i);
      if Step(s, e).c.autoSeen {
        PassSeesPrint(s.p, s.c, e.i);
      }
    } else {
      OthersKeepFan(s, e);
    }
  }

  lemma StillUnder(ss: seq<Sys>, es: seq<Event>, j: nat, k: nat, epoch: int)
    requires |ss| == |es| + 1 && k < |es| && SeenUnder(ss, es, j, k, epoch) && !es[k].PowerLoss?
    requires es[k].ControlPass? ==> ss[k].p.epoch == epoch
    ensures SeenUnder(ss, es, j, k + 1, epoch)
  {
    hide SeesPrint;
  }

  /**
   * In every run, a print that is remembered was seen by a pass of this boot, and every pass since then has worked
   * under the same command: a new command starts without a print.
   */
  lemma {:induction false} MemoryIsEarned(ss: seq<Sys>, es: seq<Event>, k: nat) returns (j: nat)
    requires Run(ss, es) && k <= |es| && ss[k].c.autoSeen
    ensures SeenUnder(ss, es, j, k, ss[k].c.contextEpoch)
    decreases k
  {
    hide PowerUp, Step, SeesPrint;
    if k == 0 {
      PowerUpRemembersNothing(ss[0]);
      assert false;
    } else {
      assert Next(ss, es, k - 1);
      var s, e := ss[k - 1], es[k - 1];
      StepRemembers(s, e);
      if e.ControlPass? && SeesPrint(s.p.printer, e.i.NowMs()) {
        j := k - 1;
      } else {
        hide SeenUnder;
        j := MemoryIsEarned(ss, es, k - 1);
        StillUnder(ss, es, j, k - 1, ss[k].c.contextEpoch);
      }
    }
  }
}
