/** Where the sensor readings of the shared runtime come from: what the device shows, records and clears by. */
module ReadingGuarantees {
  import opened Common
  import opened PlantState
  import opened SafetyLatch
  import opened FanTriac
  import opened ControlLease
  import opened SensorWatch
  import opened Jobs
  import opened JobSession
  import opened ControlPlane
  import opened ControlTick
  import opened TickGuarantees
  import opened Conditions
  import opened HeatGuarantees
  import opened Firmware
  import opened FirmwareGuarantees
  import HF = HeaterFaults

  /** The runtime holds the readings of this sample, and when it was completed. */
  predicate Shows(rt: Runtime, s: Sample)
  {
    && rt.chamber == s.chamber && rt.ptc == s.ptc && rt.chamberInstant == s.chamberInstant
    && rt.ptcInstant == s.ptcInstant && rt.lastSensorMs == s.completedUs / 1000
  }

  /** The same readings, statuses and time. */
  predicate SameReport(r: Runtime, q: Runtime)
  {
    && q.chamber == r.chamber && q.ptc == r.ptc && q.chamberInstant == r.chamberInstant
    && q.ptcInstant == r.ptcInstant && q.lastSensorMs == r.lastSensorMs
    && q.chamberStatus == r.chamberStatus && q.ptcStatus == r.ptcStatus
  }

  predicate BothOk(rt: Runtime) { rt.chamberStatus.SensorOk? && rt.ptcStatus.SensorOk? }

  // ---------------------------------------------------------------- one pass

  lemma ReadingShows(rt: Runtime, i: TickIn, accepted: bool)
    requires accepted ==> i.sample.Some?
    ensures var r := ReadSensors(rt, i, accepted);
            && (accepted ==> Shows(r, SampleOf(i))) && (!accepted ==> r.lastSensorMs == rt.lastSensorMs && !BothOk(r))
  {
  }

  lemma WatchedShows(p: Plant, c: Ctl, i: TickIn)
    ensures var rt := Watched(p, c, i).rt;
            && (BothOk(rt) ==> GoodSample(c, i) && Shows(rt, SampleOf(i)))
            && (if NewSample(c, i) then rt.lastSensorMs == SampleOf(i).completedUs / 1000
                else rt.lastSensorMs == p.rt.lastSensorMs)
  {
    hide Sense, RunJobs, WatchSensors, SampleAccepted, Readable, GoodSample, SampleOf, ReadSensors, Shows;
    var accepted := SampleAccepted(c.watch, i);
    NewIsTaken(c, i);
    SenseParts(p, c, i);
    RunJobsFacts(Sense(p, c, i), i);
    WatchFacts(Jobbed(p, c, i), i, accepted);
    TrustedReadings(p, c, i);
    ReadingShows(p.rt, i, accepted);
    ShowsCarries(ReadSensors(p.rt, i, accepted), Watched(p, c, i).rt, SampleOf(i));
  }

  lemma NewIsTaken(c: Ctl, i: TickIn)
    ensures NewSample(c, i) == SampleAccepted(c.watch, i) && (NewSample(c, i) ==> i.sample.Some?)
    ensures GoodSample(c, i) ==> NewSample(c, i)
  {
  }

  lemma ShowsCarries(r: Runtime, q: Runtime, s: Sample)
    requires q.chamber == r.chamber && q.ptc == r.ptc && q.chamberInstant == r.chamberInstant
    requires q.ptcInstant == r.ptcInstant && q.lastSensorMs == r.lastSensorMs
    ensures Shows(r, s) ==> Shows(q, s) && q.lastSensorMs == s.completedUs / 1000
  {
  }

  lemma MiddleReports(p: Plant, c: Ctl, i: TickIn)
    ensures SameReport(Watched(p, c, i).rt, Judged(p, c, i).pass.rt)
  {
    hide Watched, DecideDemand, JudgeFaults, AfterEdges;
    DemandFrame(Watched(p, c, i), i);
    JudgeFacts(Decided(p, c, i), i);
  }

  lemma LatchReports(f: FaultStage, sensorsOk: bool, overtemp: bool)
    ensures SameReport(f.pass.rt, ConsultLatch(f, sensorsOk, overtemp).pass.rt)
  {
    hide Stopped, ReleaseOwned, AfterDeferClear, AfterTakeClear, Arms, Tripped;
  }

  /** A pass that keeps its commit reports what it read; one that loses it leaves the report as it was. */
  lemma PassReports(p: Plant, c: Ctl, i: TickIn)
    ensures SameReport(if i.raced then p.rt else Watched(p, c, i).rt, Tick(p, c, i).p.rt)
  {
    hide Tick, Watched, Judged, Consulted, PlanOutputs, Commit, Drive, LimitTargets, AfterInhibit, AfterEdges;
    TickUnfolds(p, c, i);
    MiddleReports(p, c, i);
    ConsultedReports(p, c, i);
    ConsultedFrame(p, c, i);
    PlanFacts(Consulted(p, c, i), Decided(p, c, i).controller, i);
    CommitFacts(Planned(p, c, i), i, p.epoch);
    var (q, committed) := Commit(Planned(p, c, i), i, p.epoch);
    DriveFacts(q, Planned(p, c, i), committed, i);
  }

  lemma ConsultedReports(p: Plant, c: Ctl, i: TickIn)
    ensures SameReport(Judged(p, c, i).pass.rt, Consulted(p, c, i).pass.rt)
  {
    hide Judged, ConsultLatch;
    LatchReports(Judged(p, c, i), Decided(p, c, i).sensorsOk, Decided(p, c, i).overtemp);
  }

  // ---------------------------------------------------------------- every other step

  lemma OthersReport(s: Sys, e: Event)
    requires !e.ControlPass? && !e.PowerLoss?
    ensures SameReport(s.p.rt, Step(s, e).p.rt)
  {
    hide AfterWork, Tick, Seen, Booted, LimitTargets, Stopped, AfterRelease, NextEpoch, AfterEdge, MaintenanceAllowed,
         ReservationFree, Admitted, AfterInhibit, AfterTripVolatile, AfterRequestClear, Deferred, After;
    if e.Work? {
      WorkKeepsJob(s, e.w);
    }
  }

  lemma BootReports(s: Sys, b: BootIn)
    ensures var rt := Step(s, PowerLoss(b)).p.rt; !BothOk(rt) && rt.lastSensorMs == 0
  {
    hide BootLatch, LimitTargets, Sanitized;
  }

  lemma PowerUpReports(s: Sys)
    requires PowerUp(s)
    ensures !BothOk(s.p.rt) && s.p.rt.lastSensorMs == 0
  {
    hide Booted;
    var b: BootIn :| s == Booted(s.cells, s.marker, s.mailbox.durable, b);
    assert Step(s, PowerLoss(b)) == s;
    BootReports(s, b);
  }

  // ---------------------------------------------------------------- over runs

  /** Since event j no power was lost, and no pass kept its commit. */
  predicate LatestKept(es: seq<Event>, j: nat, k: nat)
  {
    && j < k <= |es| && es[j].ControlPass? && !es[j].i.raced
    && forall m :: j < m < k ==> !es[m].PowerLoss? && (es[m].ControlPass? ==> es[m].i.raced)
  }

  lemma KeptPassShows(s: Sys, i: TickIn)
    requires !i.raced
    ensures var rt := Step(s, ControlPass(i)).p.rt;
            && (BothOk(rt) ==> GoodSample(s.c, i) && Shows(rt, SampleOf(i)))
            && rt.lastSensorMs == if NewSample(s.c, i) then SampleOf(i).completedUs / 1000 else s.p.rt.lastSensorMs
  {
    hide Step, Tick, Watched, GoodSample, NewSample, SampleOf, Shows, BothOk, SameReport;
    PassIsTick(s, i);
    PassReports(s.p, s.c, i);
    WatchedShows(s.p, s.c, i);
    ReportCarries(Watched(s.p, s.c, i).rt, Step(s, ControlPass(i)).p.rt, SampleOf(i));
  }

  lemma StillLatest(es: seq<Event>, j: nat, k: nat)
    requires LatestKept(es, j, k) && k < |es| && !es[k].PowerLoss? && (es[k].ControlPass? ==> es[k].i.raced)
    ensures LatestKept(es, j, k + 1)
  {
  }

  /**
   * In every run, whenever the runtime says that both sensors are good, its readings, averaged and instantaneous, and
   * their time are those of a good sample, and it is the sample of the latest pass that kept its commit.
   */
  lemma {:induction false} ReadingsAreGenuine(ss: seq<Sys>, es: seq<Event>, k: nat) returns (j: nat)
    requires Run(ss, es) && k <= |es| && BothOk(ss[k].p.rt)
    ensures LatestKept(es, j, k) && GoodSample(ss[j].c, es[j].i) && Shows(ss[k].p.rt, SampleOf(es[j].i))
    decreases k
  {
    hide PowerUp, Step, GoodSample, Watched, Tick, BothOk, SameReport, Shows, SampleOf;
    if k == 0 {
      PowerUpReports(ss[0]);
      assert false;
    } else {
      assert Next(ss, es, k - 1);
      var s, e := ss[k - 1], es[k - 1];
      if e.PowerLoss? {
        BootReports(s, e.b);
        assert false;
      } else if e.ControlPass? && !e.i.raced {
        KeptPassShows(s, e.i);
        j := k - 1;
      } else {
        StaysReported(s, e);
        ReportCarries(s.p.rt, ss[k].p.rt, ZERO_SAMPLE);
        j := ReadingsAreGenuine(ss, es, k - 1);
        StillLatest(es, j, k - 1);
        ReportCarries(s.p.rt, ss[k].p.rt, SampleOf(es[j].i));
      }
    }
  }

  lemma StaysReported(s: Sys, e: Event)
    requires !e.PowerLoss? && (e.ControlPass? ==> e.i.raced)
    ensures SameReport(s.p.rt, Step(s, e).p.rt)
  {
    hide Step, Tick, Watched;
    if e.ControlPass? {
      PassIsTick(s, e.i);
      PassReports(s.p, s.c, e.i);
    } else {
      OthersReport(s, e);
    }
  }

  lemma ReportCarries(r: Runtime, q: Runtime, s: Sample)
    requires SameReport(r, q)
    ensures BothOk(r) == BothOk(q) && Shows(r, s) == Shows(q, s) && q.lastSensorMs == r.lastSensorMs
  {
  }

  /** The time of the latest readings is always that of a new sample, however stale or bad the readings are since. */
  lemma {:induction false} ReadingTimeIsGenuine(ss: seq<Sys>, es: seq<Event>, k: nat) returns (j: nat)
    requires Run(ss, es) && k <= |es| && ss[k].p.rt.lastSensorMs != 0
    ensures j < k && es[j].ControlPass? && NewSample(ss[j].c, es[j].i)
    ensures ss[k].p.rt.lastSensorMs == SampleOf(es[j].i).completedUs / 1000
    decreases k
  {
    hide PowerUp, Step, NewSample, GoodSample, Watched, Tick, SameReport, SampleOf;
    if k == 0 {
      PowerUpReports(ss[0]);
      assert false;
    } else {
      assert Next(ss, es, k - 1);
      var s, e := ss[k - 1], es[k - 1];
      if e.PowerLoss? {
        BootReports(s, e.b);
        assert false;
      } else if e.ControlPass? && !e.i.raced {
        KeptPassShows(s, e.i);
        if NewSample(s.c, e.i) {
          j := k - 1;
        } else {
          j := ReadingTimeIsGenuine(ss, es, k - 1);
        }
      } else {
        StaysReported(s, e);
        ReportCarries(s.p.rt, ss[k].p.rt, ZERO_SAMPLE);
        j := ReadingTimeIsGenuine(ss, es, k - 1);
      }
    }
  }
}
