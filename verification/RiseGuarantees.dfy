/** The warm-up watchdog over whole runs: a heater that stays on must show a rise, or the device latches. */
module RiseGuarantees {
  import opened Common
  import opened PlantState
  import opened SafetyLatch
  import opened FanTriac
  import opened ControlLease
  import opened SensorWatch
  import opened Jobs
  import opened JobSession
  import opened ControlPlane
  import opened ControlTick
  import opened TickGuarantees
  import opened Conditions
  import opened HeatGuarantees
  import opened Firmware
  import opened ZeroCrossGuarantees
  import HF = HeaterFaults

  // ---------------------------------------------------------------- one pass

  /** A pass that drives the heater of a cold chamber and finds the window due and flat ends latched, the SSR off. */
  lemma FlatLatches(p: Plant, c: Ctl, i: TickIn)
    requires Tick(p, c, i).strains && p.rt.rise.active && OpensWindow(p.rt.rise, i.NowMs())
    requires Flat(p.rt.rise.startPtc, p.rt.rise.startChamber, SampleOf(i))
    ensures var o := Tick(p, c, i); o.sawLatch && o.p.latch.latched && !o.p.ssr
  {
    hide Tick, Decided, JudgeFaults, ConsultLatch, Consulted, Flat, Driven, LatchMoves, OpensWindow;
    var d := Decided(p, c, i);
    TickUnfolds(p, c, i);
    JudgedDuty(d, i);
    DutyIsDriven(p, c, i);
    RiseIsJudged(d, i, p.rt.rise);
    ConsultIsLatch(p, c, i);
    LatchFacts(Judged(p, c, i), d.sensorsOk, d.overtemp);
    TickMovesLatch(p, c, i);
    SawLatchStops(p, c, i);
  }

  lemma CommittedRise(p: Plant, c: Ctl, i: TickIn)
    requires !Tick(p, c, i).sawLatch && !Tick(p, c, i).inhibits
    ensures Tick(p, c, i).p.rt.rise == Judged(p, c, i).pass.rt.rise && !Judged(p, c, i).hazard
  {
    hide Tick, Judged, ConsultLatch, Consulted, PlanOutputs, Commit, Drive, Stopped;
    TickUnfolds(p, c, i);
    ConsultIsLatch(p, c, i);
    LatchFacts(Judged(p, c, i), Decided(p, c, i).sensorsOk, Decided(p, c, i).overtemp);
    LatchJob(Judged(p, c, i), Decided(p, c, i).sensorsOk, Decided(p, c, i).overtemp);
    PlanFacts(Consulted(p, c, i), Decided(p, c, i).controller, i);
    CommitFacts(Planned(p, c, i), i, p.epoch);
    var (q, committed) := Commit(Planned(p, c, i), i, p.epoch);
    DriveFacts(q, Planned(p, c, i), committed, i);
  }

  /** A pass that drives the heater of a cold chamber, and goes on, opens a window or keeps the open one. */
  lemma StrainingWatches(p: Plant, c: Ctl, i: TickIn)
    requires var o := Tick(p, c, i); o.strains && !o.sawLatch && !o.inhibits
    ensures var r := p.rt.rise;
            Tick(p, c, i).p.rt.rise == if OpensWindow(r, i.NowMs()) then Opened(SampleOf(i), i.NowMs()) else r
  {
    hide Tick, Decided, JudgeFaults, Flat, Driven, OpensWindow;
    var d := Decided(p, c, i);
    TickUnfolds(p, c, i);
    CommittedRise(p, c, i);
    JudgedDuty(d, i);
    DutyIsDriven(p, c, i);
    RiseIsJudged(d, i, p.rt.rise);
  }

  /** A pass that leaves the SSR on in a chamber more than 2 C below target counts, and goes on. */
  lemma EnergisedStrains(p: Plant, c: Ctl, i: TickIn)
    requires var o := Tick(p, c, i); o.p.ssr && SampleOf(i).chamberInstant.Below(o.p.rt.targetC as real - 2.0)
    ensures var o := Tick(p, c, i); o.strains && !o.sawLatch && !o.inhibits
  {
    hide Tick, Watched, DecideDemand, Consulted, Planned, JudgeFaults, SampleAccepted, Readable, UsableSensors,
         Overtemp;
    TickUnfolds(p, c, i);
    EnergisedPlan(p, c, i);
    PlannedHeat(p, c, i);
    ConsultedHeat(p, c, i);
    ConsultIsLatch(p, c, i);
    WatchedSample(p, c, i);
    DemandFrame(Watched(p, c, i), i);
    HeatIsDuty(Watched(p, c, i), i);
    JudgeFacts(Decided(p, c, i), i);
    TickMovesLatch(p, c, i);
  }

  // ---------------------------------------------------------------- over whole runs

  lemma OthersKeepRise(s: Sys, e: Event)
    requires !e.ControlPass? && !e.PowerLoss?
    ensures Step(s, e).p.rt.rise == s.p.rt.rise
  {
    hide Tick, Seen, Booted, LimitTargets, Stopped, AfterRelease, NextEpoch, Admitted, ReservationFree,
         MaintenanceAllowed, AfterEdge, After, AfterTripVolatile, AfterRequestClear, AfterInhibit, AfterWork;
    if e.Work? {
      WorkKeepsFan(s, e.w);
      WorkIsAfterWork(s, e.w);
    }
  }

  /**
   * Event e is no power loss; if a pass, it drives the heater of a cold chamber and goes on, neither latched nor raced.
   */
  predicate DrivesOn(e: Event, t: Sys)
  {
    !e.PowerLoss? && (e.ControlPass? ==> t.note.strains && !t.note.sawLatch && !t.note.inhibits)
  }

  /** Since the window opened with event j, the heater has been driven and the window has not run out. */
  predicate DrivenSince(ss: seq<Sys>, es: seq<Event>, j: nat, k: nat)
    requires |ss| == |es| + 1 && j < k <= |es| && es[j].ControlPass?
  {
    && OpensWindow(ss[j].p.rt.rise, es[j].i.NowMs())
    && (forall m :: j <= m < k ==> DrivesOn(es[m], ss[m + 1]))
    && (forall m :: j < m < k && es[m].ControlPass? ==> es[m].i.NowMs() - es[j].i.NowMs() < RISE_WINDOW_MS)
  }

  /** A step in which the heater is driven on, at a time before the window runs out, keeps or opens it. */
  lemma StepWatches(s: Sys, e: Event)
    requires DrivesOn(e, Step(s, e))
    ensures var r := s.p.rt.rise;
            Step(s, e).p.rt.rise == if e.ControlPass? && OpensWindow(r, e.i.NowMs())
                                    then Opened(SampleOf(e.i), e.i.NowMs()) else r
  {
    hide Step, Tick, OpensWindow, Opened;
    if e.ControlPass? {
      PassIsTick(s, e.i);
      StrainingWatches(s.p, s.c, e.i);
    } else {
      OthersKeepRise(s, e);
    }
  }

  lemma {:induction false} WindowStaysOpen(ss: seq<Sys>, es: seq<Event>, j: nat, k: nat)
    requires Steps(ss, es) && j < k <= |es| && es[j].ControlPass? && DrivenSince(ss, es, j, k)
    ensures ss[k].p.rt.rise == Opened(SampleOf(es[j].i), es[j].i.NowMs())
    decreases k
  {
    hide Step, DrivesOn;
    assert Next(ss, es, k - 1);
    assert DrivesOn(es[k - 1], ss[k]);
    StepWatches(ss[k - 1], es[k - 1]);
    if j < k - 1 {
      WindowStaysOpen(ss, es, j, k - 1);
    }
  }

  /**
   * From the pass that opens a window on, the heater is driven in a chamber more than 2 C below target, whatever the
   * SSR does. The first such pass at least 60 s later ends latched with the SSR off, unless PTC has risen by 5 C or the
   * chamber by 1 C since the window opened, or a reading is missing; then it opens the next window.
   */
  lemma HeaterMustRise(ss: seq<Sys>, es: seq<Event>, j: nat, k: nat)
    requires Steps(ss, es) && j < k < |es| && es[j].ControlPass? && DrivenSince(ss, es, j, k)
    requires es[k].ControlPass? && ss[k + 1].note.strains && es[k].i.NowMs() - es[j].i.NowMs() >= RISE_WINDOW_MS
    ensures var s := SampleOf(es[j].i);
            Flat(s.ptc, s.chamber, SampleOf(es[k].i)) ==> ss[k + 1].p.latch.latched && !ss[k + 1].p.ssr
    ensures OpensWindow(ss[k].p.rt.rise, es[k].i.NowMs())
  {
    hide Step, Tick, DrivenSince, Flat;
    var s := SampleOf(es[j].i);
    WindowStaysOpen(ss, es, j, k);
    assert Next(ss, es, k);
    PassIsTick(ss[k], es[k].i);
    if Flat(s.ptc, s.chamber, SampleOf(es[k].i)) {
      FlatLatches(ss[k].p, ss[k].c, es[k].i);
    }
  }

  /** Event e is no power loss; if a pass, it leaves the SSR on in a chamber more than 2 C below target. */
  predicate HeatsOn(e: Event, t: Sys)
  {
    && !e.PowerLoss?
    && (e.ControlPass? ==> t.p.ssr && SampleOf(e.i).chamberInstant.Below(t.p.rt.targetC as real - 2.0))
  }

  lemma HeatsIsDriven(s: Sys, e: Event)
    requires HeatsOn(e, Step(s, e))
    ensures DrivesOn(e, Step(s, e))
  {
    hide Step, Tick;
    if e.ControlPass? {
      PassIsTick(s, e.i);
      EnergisedStrains(s.p, s.c, e.i);
    }
  }

  /**
   * No pass finds the SSR still on in a chamber more than 2 C below target after a whole window of it without a rise.
   */
  lemma NoHeatWithoutRise(ss: seq<Sys>, es: seq<Event>, j: nat, k: nat)
    requires Steps(ss, es) && j < k < |es| && es[j].ControlPass? && OpensWindow(ss[j].p.rt.rise, es[j].i.NowMs())
    requires forall m :: j <= m <= k ==> HeatsOn(es[m], ss[m + 1])
    requires forall m :: j < m < k && es[m].ControlPass? ==> es[m].i.NowMs() - es[j].i.NowMs() < RISE_WINDOW_MS
    requires es[k].ControlPass? && es[k].i.NowMs() - es[j].i.NowMs() >= RISE_WINDOW_MS
    ensures var s := SampleOf(es[j].i); !Flat(s.ptc, s.chamber, SampleOf(es[k].i))
  {
    hide Step, Flat, HeatsOn, OpensWindow;
    forall m | j <= m <= k
      ensures DrivesOn(es[m], ss[m + 1])
    {
      assert Next(ss, es, m);
      assert HeatsOn(es[m], ss[m + 1]);
      HeatsIsDriven(ss[m], es[m]);
    }
    assert ss[k + 1].p.ssr by { HeatsOnIsOn(es[k], ss[k + 1]); }
    HeaterMustRise(ss, es, j, k);
  }

  lemma HeatsOnIsOn(e: Event, t: Sys)
    requires HeatsOn(e, t) && e.ControlPass?
    ensures t.p.ssr
  {
  }
}
