/** Losing zero cross between two session passes always latches, even if the signal is back by the second pass. */
module ZeroCrossGuarantees {
  import opened PlantState
  import opened SafetyLatch
  import opened FanTriac
  import opened ControlLease
  import opened ControlPlane
  import opened ControlTick
  import opened Jobs
  import opened JobSession
  import opened Conditions
  import opened HeatGuarantees
  import opened TickGuarantees
  import opened Firmware

  /** Two fan states the interrupt cannot tell apart: requests do not touch the edge clock or the gap counter. */
  predicate SameTiming(f: Fan, g: Fan) { f.lastEdgeUs == g.lastEdgeUs && f.gaps == g.gaps }

  lemma {:induction false} TimingOfEdges(f: Fan, g: Fan, burst: seq<int>)
    requires SameTiming(f, g)
    ensures SameTiming(AfterEdges(f, burst), AfterEdges(g, burst))
    decreases |burst|
  {
    if burst != [] {
      TimingOfEdges(AfterEdge(f, burst[0]), AfterEdge(g, burst[0]), burst[1..]);
    }
  }

  // ---------------------------------------------------------------- one pass

  lemma PassRemembersGaps(p: Plant, c: Ctl, i: TickIn)
    ensures var o := Tick(p, c, i);
            && o.c.zcGaps == FanAtRead(p, i).gaps
            && (o.session && o.present ==> o.c.zcSeen)
            && o.present == EdgeFresh(FanAtRead(p, i).lastEdgeUs, i.zcUs)
  {
    hide Tick, Watched, DecideDemand, JudgeFaults, ConsultLatch, PlanOutputs, Commit, Drive, AfterEdges, EdgeFresh;
    TickUnfolds(p, c, i);
    EarlyFrame(p, c, i);
    DemandFrame(Watched(p, c, i), i);
    JudgeFacts(Decided(p, c, i), i);
    LatchFrame(Judged(p, c, i), Decided(p, c, i).sensorsOk, Decided(p, c, i).overtemp);
  }

  /** After the read, the pass lets the remaining interrupts through and at most changes the request. */
  lemma FanAfterRead(p: Plant, c: Ctl, i: TickIn)
    ensures SameTiming(Tick(p, c, i).p.fan, AfterEdges(AfterEdges(FanAtRead(p, i), i.statsEdges), i.setEdges))
  {
    hide Tick, Planned, FanAtRead, AfterEdges;
    FanTrace(p, c, i);
  }

  lemma HazardLatches(p: Plant, c: Ctl, i: TickIn)
    requires Judged(p, c, i).hazard
    ensures Tick(p, c, i).p.latch.latched
  {
    hide Tick, Judged, ConsultLatch, LatchMoves;
    TickUnfolds(p, c, i);
    LatchFacts(Judged(p, c, i), Decided(p, c, i).sensorsOk, Decided(p, c, i).overtemp);
    TickMovesLatch(p, c, i);
  }

  /** In a session that has seen zero cross, a stale signal or a grown gap counter latches. */
  lemma PassCatchesLoss(p: Plant, c: Ctl, i: TickIn)
    requires Tick(p, c, i).session && c.zcSeen
    requires !EdgeFresh(FanAtRead(p, i).lastEdgeUs, i.zcUs) || FanAtRead(p, i).gaps != c.zcGaps
    ensures Tick(p, c, i).p.latch.latched
  {
    hide Tick, Watched, DecideDemand, JudgeFaults, ConsultLatch, PlanOutputs, Commit, Drive, AfterEdges, EdgeFresh;
    TickUnfolds(p, c, i);
    EarlyFrame(p, c, i);
    DemandFrame(Watched(p, c, i), i);
    JudgeFacts(Decided(p, c, i), i);
    HazardLatches(p, c, i);
  }

  // ---------------------------------------------------------------- between two passes

  function EdgeOf(e: Event): seq<int> { if e.ZeroCross? then [e.nowUs] else [] }

  /** The interrupts of events j..k-1. */
  function EdgesBetween(es: seq<Event>, j: nat, k: nat): seq<int>
    requires j <= k <= |es|
  {
    if j == k then [] else EdgesBetween(es, j, k - 1) + EdgeOf(es[k - 1])
  }

  lemma OthersKeepFan(s: Sys, e: Event)
    requires !e.ControlPass? && !e.PowerLoss?
    ensures Step(s, e).c == s.c && Step(s, e).p.fan == AfterEdges(s.p.fan, EdgeOf(e))
  {
    hide Step, AfterEdges;
    EmptyBurst(s.p.fan);
    if e.Work? {
      WorkKeepsFan(s, e.w);
      WorkIsAfterWork(s, e.w);
    } else if e.ZeroCross? {
      EdgeReachesFan(s, e.nowUs);
      OneEdge(s.p.fan, e.nowUs);
    } else {
      RestKeepsFan(s, e);
    }
  }

  lemma EdgeReachesFan(s: Sys, nowUs: int)
    ensures Step(s, Event.ZeroCross(nowUs)) == s.(p := s.p.(fan := AfterEdge(s.p.fan, nowUs)))
  {
    hide AfterEdge;
  }

  lemma RestKeepsFan(s: Sys, e: Event)
    requires !e.ControlPass? && !e.PowerLoss? && !e.Work? && !e.ZeroCross?
    ensures Step(s, e).c == s.c && Step(s, e).p.fan == s.p.fan
  {
    hide AfterEdges, AfterWork, Tick, Seen, Booted, LimitTargets, Stopped, AfterRelease, After, NextEpoch, Admitted,
         ReservationFree, MaintenanceAllowed, AfterInhibit, AfterTripVolatile, AfterRequestClear, AfterEdge;
  }

  lemma OneEdge(f: Fan, nowUs: int)
    ensures AfterEdges(f, [nowUs]) == AfterEdge(f, nowUs)
  {
    hide AfterEdge;
    EmptyBurst(AfterEdge(f, nowUs));
  }

  /** The control task finds its own state, the fan and the runtime record as it left them. */
  predicate SameForTask(s: Sys, t: Sys) { t.c == s.c && t.p.fan == s.p.fan && t.p.rt == s.p.rt }

  lemma BeginKeepsFan(s: Sys, w: WorkerIn)
    ensures SameForTask(s, Begin(s, w))
  {
    hide JournalDecision, CheckpointAllowed;
  }

  lemma JournalKeepsFan(s: Sys, w: WorkerIn)
    requires JournalDuty(s.worker)
    ensures SameForTask(s, AfterJournalDuty(s, w))
  {
    hide AfterMarker, AfterInhibit;
  }

  lemma FlushKeepsFan(s: Sys, w: WorkerIn)
    requires s.worker.FlushTaken? || s.worker.FlushWritten?
    ensures SameForTask(s, AfterFlushDuty(s, w))
  {
  }

  lemma WorkKeepsFan(s: Sys, w: WorkerIn)
    ensures SameForTask(s, AfterWork(s, w))
  {
    hide Begin, AfterLatchDuty, AfterJournalDuty, AfterFlushDuty, ClearUnblocked;
    if s.worker.Ready? {
      BeginKeepsFan(s, w);
    } else if JournalDuty(s.worker) {
      JournalKeepsFan(s, w);
    } else if !LatchDuty(s.worker) {
      FlushKeepsFan(s, w);
    }
  }

  /** No pass and no power loss among events j..k-1. */
  predicate OnlyOthers(es: seq<Event>, j: nat, k: nat)
  {
    k <= |es| && forall m :: j <= m < k ==> !es[m].ControlPass? && !es[m].PowerLoss?
  }

  lemma {:induction false} FanBetween(ss: seq<Sys>, es: seq<Event>, j: nat, k: nat)
    requires Steps(ss, es) && j <= k && OnlyOthers(es, j, k)
    ensures ss[k].c == ss[j].c && ss[k].p.fan == AfterEdges(ss[j].p.fan, EdgesBetween(es, j, k))
    decreases k
  {
    hide Step, AfterEdges;
    if j < k {
      FanBetween(ss, es, j, k - 1);
      assert Next(ss, es, k - 1);
      OthersKeepFan(ss[k - 1], es[k - 1]);
      EdgesConcat(ss[j].p.fan, EdgesBetween(es, j, k - 1), EdgeOf(es[k - 1]));
    } else {
      EmptyBurst(ss[j].p.fan);
    }
  }

  lemma EmptyBurst(f: Fan)
    ensures AfterEdges(f, []) == f
  {
  }

  /** Every interrupt between the zero-cross read of pass i, event j, and that of the next pass n, event k. */
  function Burst(i: TickIn, between: seq<int>, n: TickIn): seq<int>
  {
    i.statsEdges + i.setEdges + between + n.admitEdges + n.zcEdges
  }

  lemma FanAcross(f: Fan, g: Fan, i: TickIn, between: seq<int>, n: TickIn)
    requires SameTiming(g, AfterEdges(AfterEdges(f, i.statsEdges), i.setEdges))
    ensures SameTiming(AfterEdges(AfterEdges(AfterEdges(g, between), n.admitEdges), n.zcEdges),
                       AfterEdges(f, Burst(i, between, n)))
  {
    hide AfterEdges;
    var a, b, d, e := i.statsEdges, i.setEdges, n.admitEdges, n.zcEdges;
    EdgesConcat(f, a, b);
    EdgesConcat(f, a + b, between);
    EdgesConcat(f, a + b + between, d);
    EdgesConcat(f, a + b + between + d, e);
    TimingOfEdges(g, AfterEdges(f, a + b), between);
    TimingOfEdges(AfterEdges(g, between), AfterEdges(f, a + b + between), d);
    TimingOfEdges(AfterEdges(AfterEdges(g, between), d), AfterEdges(f, a + b + between + d), e);
  }

  /** Some interval between neighbouring accepted edges, or up to the present, exceeds 100 ms. */
  predicate LongGap(lastUs: int, burst: seq<int>, nowUs: int)
  {
    var times := [lastUs] + AcceptedEdges(lastUs, burst);
    || (exists n: nat :: n + 1 < |times| && times[n + 1] - times[n] > 100_000)
    || nowUs - times[|times| - 1] > 100_000
  }

  lemma GapShows(f: Fan, g: Fan, burst: seq<int>, nowUs: int)
    requires SameTiming(g, AfterEdges(f, burst)) && f.lastEdgeUs > 0
    requires forall n :: 0 <= n < |burst| ==> burst[n] > 0
    requires LongGap(f.lastEdgeUs, burst, nowUs)
    ensures g.gaps != f.gaps || !EdgeFresh(g.lastEdgeUs, nowUs)
  {
    var accepted := AcceptedEdges(f.lastEdgeUs, burst);
    var times := [f.lastEdgeUs] + accepted;
    EdgesCounted(f, burst);
    if n: nat :| n + 1 < |times| && times[n + 1] - times[n] > 100_000 {
      LongIntervalCounted(times, n);
    }
  }

  /** From the read of pass j to the read of the next pass, k: the edges in between and nothing else. */
  lemma FanAtNextRead(ss: seq<Sys>, es: seq<Event>, j: nat, k: nat)
    requires Steps(ss, es)
    requires j < k < |es| && es[j].ControlPass? && es[k].ControlPass? && OnlyOthers(es, j + 1, k)
    ensures SameTiming(FanAtRead(ss[k].p, es[k].i),
                       AfterEdges(FanAtRead(ss[j].p, es[j].i), Burst(es[j].i, EdgesBetween(es, j + 1, k), es[k].i)))
    ensures ss[k].c == ss[j + 1].c
  {
    hide Tick, Step, Steps, AfterEdges, SameTiming, OnlyOthers, EdgesBetween, Burst;
    StepsLength(ss, es);
    var i, n := es[j].i, es[k].i;
    PassInRun(ss, es, j);
    FanAfterRead(ss[j].p, ss[j].c, i);
    FanBetween(ss, es, j + 1, k);
    FanAcross(FanAtRead(ss[j].p, i), ss[j + 1].p.fan, i, EdgesBetween(es, j + 1, k), n);
  }

  lemma SessionLoss(ss: seq<Sys>, es: seq<Event>, j: nat, k: nat)
    requires Steps(ss, es)
    requires j < k < |es| && es[j].ControlPass? && es[k].ControlPass? && OnlyOthers(es, j + 1, k)
    requires ss[j + 1].note.session && ss[j + 1].note.present && ss[k + 1].note.session
    requires var burst := Burst(es[j].i, EdgesBetween(es, j + 1, k), es[k].i);
             && (forall n :: 0 <= n < |burst| ==> burst[n] > 0)
             && LongGap(FanAtRead(ss[j].p, es[j].i).lastEdgeUs, burst, es[k].i.zcUs)
    ensures ss[k + 1].p.latch.latched
  {
    hide Tick, Step, Steps, AfterEdges, LongGap, FanAtRead, SameTiming, OnlyOthers, EdgesBetween, Burst, EdgeFresh;
    StepsLength(ss, es);
    var i, n := es[j].i, es[k].i;
    var f := FanAtRead(ss[j].p, i);
    FanAtNextRead(ss, es, j, k);
    PassInRun(ss, es, j);
    PassInRun(ss, es, k);
    PassRemembersGaps(ss[j].p, ss[j].c, i);
    FreshHasEdge(f, i.zcUs);
    GapShows(f, FanAtRead(ss[k].p, n), Burst(i, EdgesBetween(es, j + 1, k), n), n.zcUs);
    PassCatchesLoss(ss[k].p, ss[k].c, n);
  }

  // ---------------------------------------------------------------- what counts as a session

  /** Work with a set-point. */
  predicate Working(s: Settings) { s.workOn && SetPointOf(s) > 0 }

  lemma SessionIs(p: Plant, c: Ctl, i: TickIn)
    ensures var s := JobOf(p, c, i).s; Tick(p, c, i).session == (s.latchArmed || (s.workOn && SetPointOf(s) > 0))
  {
    hide Tick, Jobbed, Watched, DecideDemand, JudgeFaults, AfterEdges, SetPointOf, JobOf;
    TickUnfolds(p, c, i);
    JobbedIs(p, c, i);
    EarlyFrame(p, c, i);
    EarlyGate(p, c, i);
    DemandFrame(Watched(p, c, i), i);
    JudgeFacts(Decided(p, c, i), i);
  }

  /** A pass that leaves the latch clear with work and a set-point was in a session. */
  lemma WorkingIsSession(p: Plant, c: Ctl, i: TickIn)
    requires !Tick(p, c, i).p.latch.latched && Working(Tick(p, c, i).p.settings)
    ensures Tick(p, c, i).session
  {
    hide Tick, JobOf, SetPointOf, PrinterBacks, JobOn, PreFan;
    SessionIs(p, c, i);
    CommittedJob(p, c, i);
  }

  /** So is a pass that finds the session flag of the latest commit, unless a schedule is pending. */
  lemma ArmedIsSession(p: Plant, c: Ctl, i: TickIn)
    requires p.settings.latchArmed && !p.settings.schedule.enabled
    ensures Tick(p, c, i).session
  {
    hide Tick, Sense, AfterJobs, SetPointOf, ScheduleAllowed;
    SessionIs(p, c, i);
    SenseFacts(p, c, i);
    JobsKeepSetup(ContextOf(p, c, i), EnvOf(p, c, i));
  }

  /**
   * Pass j leaves a job at work with a set-point, of whatever mode, and the signal was live when it looked. After any
   * interval above 100 ms between accepted edges from then on, closed or still open when the next pass, k, looks, pass
   * k leaves the latch set, unless its own job steps end the work; and in any case if it finds the session flag still
   * set and no schedule pending.
   */
  lemma LostZeroCrossLatches(ss: seq<Sys>, es: seq<Event>, j: nat, k: nat)
    requires Steps(ss, es)
    requires j < k < |es| && es[j].ControlPass? && es[k].ControlPass? && OnlyOthers(es, j + 1, k)
    requires Working(ss[j + 1].p.settings) && !ss[j + 1].p.latch.latched
    requires SignalLive(FanAtRead(ss[j].p, es[j].i), es[j].i.zcUs)
    requires var burst := Burst(es[j].i, EdgesBetween(es, j + 1, k), es[k].i);
             && (forall n :: 0 <= n < |burst| ==> burst[n] > 0)
             && LongGap(FanAtRead(ss[j].p, es[j].i).lastEdgeUs, burst, es[k].i.zcUs)
    ensures ss[k + 1].p.latch.latched || !Working(ss[k + 1].p.settings)
    ensures ss[k].p.settings.latchArmed && !ss[k].p.settings.schedule.enabled ==> ss[k + 1].p.latch.latched
  {
    hide Tick, Step, Steps, LongGap, FanAtRead, OnlyOthers, EdgesBetween, Burst, Working, EdgeFresh, SignalLive;
    StepsLength(ss, es);
    var i, n := es[j].i, es[k].i;
    PassInRun(ss, es, j);
    PassInRun(ss, es, k);
    PassRemembersGaps(ss[j].p, ss[j].c, i);
    RunningIsExact(FanAtRead(ss[j].p, i), i.zcUs);
    WorkingIsSession(ss[j].p, ss[j].c, i);
    if ss[k].p.settings.latchArmed && !ss[k].p.settings.schedule.enabled {
      ArmedIsSession(ss[k].p, ss[k].c, n);
      SessionLoss(ss, es, j, k);
    } else if !ss[k + 1].p.latch.latched && Working(ss[k + 1].p.settings) {
      WorkingIsSession(ss[k].p, ss[k].c, n);
      SessionLoss(ss, es, j, k);
    }
  }

  lemma PassInRun(ss: seq<Sys>, es: seq<Event>, k: nat)
    requires Steps(ss, es) && k < |es| && es[k].ControlPass?
    ensures var o := Tick(ss[k].p, ss[k].c, es[k].i);
            ss[k + 1].p == o.p && ss[k + 1].c == o.c && ss[k + 1].note.session == o.session
            && ss[k + 1].note.present == o.present
  {
    hide Tick, Step;
    assert Next(ss, es, k);
    PassIsTick(ss[k], es[k].i);
  }

  lemma FreshHasEdge(f: Fan, nowUs: int)
    requires EdgeFresh(f.lastEdgeUs, nowUs)
    ensures f.lastEdgeUs > 0
  {
  }
}
