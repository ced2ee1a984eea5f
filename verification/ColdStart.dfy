/** A run from power-up to heat: a cold start of a healthy device, step by step. */
module ColdStart {
  import opened Common
  import opened PlantState
  import opened SafetyLatch
  import opened FanTriac
  import opened ControlLease
  import opened SensorWatch
  import opened Jobs
  import opened JobSession
  import opened ControlPlane
  import opened ControlTick
  import opened TickGuarantees
  import opened Conditions
  import opened HeatGuarantees
  import opened Firmware
  import opened FirmwareGuarantees
  import HF = HeaterFaults

  const NO_SETTINGS :=
    Settings(false, Auto, false, 0, true, false, 50, 60, 0, 40, 0, 0, DryingJob(false, Pla, 0, 0),
             PreheatJob(false, PreheatIdle, 0, 0, 0, 0), DryoutJob(false, 0, 0, 0),
             HealthJob(false, HealthIdle, 0, 0, false, 0, Bad, Bad), Schedule(false, 0, 0, 0, 0),
             KeepWarm(false, 0, 0, 0), false, Ramp(false, RampIdle, 0, 0, 0, 0, 0, 0), FastCooldown,
             PausePolicy(false, HoldKeep, 0, 0, 0, 0), Soak(SoakIdle, 0, 0), false)

  /** Switched on by hand, at 50 C. */
  const START := NO_SETTINGS.(workOn := true, mode := PowerOn)

  const BOARD := Board(33, 0.0, 0.0)

  const BOOT := BootIn(true, ReadsOk, MarkerReadsOk, NO_SETTINGS, NO_SETTINGS, BOARD, true, true, true)

  /** A sample at 20 and 25 C, taken just before the pass of this time. */
  function ColdSample(sequence: nat, nowUs: int): Sample
  {
    Sample(sequence, nowUs - 10_000, nowUs - 5_000, Deg(20.0), Deg(25.0), Deg(20.0), Deg(25.0), 2000, 2100, SensorOk,
           SensorOk)
  }

  /** A pass without interruptions. */
  function PassAt(sequence: nat, nowUs: int): TickIn
  {
    TickIn(nowUs, nowUs - 20_000, nowUs, Some(ColdSample(sequence, nowUs)), None, [], nowUs, [], nowUs, [], nowUs, [],
           nowUs, false)
  }

  const JOURNAL := WorkerIn(1_000_000, Committed, ServiceJournal)

  /** The start command, the journal's marker in three steps, an edge, a pass, the next edge, and a pass. */
  const COLD_START: seq<Event> :=
    [Command(START, false), Work(JOURNAL), Work(JOURNAL), Work(JOURNAL), Event.ZeroCross(1_000_000),
     ControlPass(PassAt(1, 1_050_000)), Event.ZeroCross(1_100_000), ControlPass(PassAt(2, 1_150_000))]

  // ---------------------------------------------------------------- up to the first pass

  const CLEAR := Latch(true, false, false, false, false, HF.OK, 1, false, 0, 0)

  const P0 :=
    Plant(NO_SETTINGS, BOOT_RUNTIME, 1, false, CLEAR, false, false, POWER_ON, false, NO_LEASE, BOARD, BOOT_PRINTER)

  const C0 := Ctl(true, true, true, false, 0, NO_EVIDENCE, NO_EPOCH, false, Idle, false, false)

  /** Started, marked dirty, with zero cross present. */
  const P1 :=
    P0.(settings := START, epoch := 2, prepared := true, dirty := true,
        fan := POWER_ON.(edges := 1, lastEdgeUs := 1_000_000))

  /** The job once its session has begun. */
  const JOB := START.(sessionStartedMs := 1050)

  const JOB2 := JOB.(latchArmed := true)

  lemma LimitsNothing(s: Settings)
    requires s == NO_SETTINGS || s == START || s == JOB2
    ensures LimitTargets(s) == s
  {
  }

  lemma BootIs()
    ensures var s := Booted(FaultCells(None, None), None, None, BOOT);
            s.p == P0 && s.c == C0 && s.worker == Ready && s.marker == None
  {
    assert Sanitized(NO_SETTINGS) == NO_SETTINGS;
    LimitsNothing(NO_SETTINGS);
    hide LimitTargets;
  }

  /** The state the storage worker finds at each of its three steps. */
  predicate Marking(s: Sys, prepared: bool, worker: Worker)
  {
    s.p == P0.(settings := START, epoch := 2, prepared := prepared, dirty := prepared) && s.worker == worker
  }

  lemma CommandStarts(s: Sys)
    requires s.p == P0 && s.worker == Ready
    ensures var t := Step(s, Command(START, false)); Marking(t, false, Ready) && t.c == s.c && t.marker == s.marker
  {
    LimitsNothing(START);
    hide LimitTargets;
  }

  lemma JournalTakes(s: Sys)
    requires Marking(s, false, Ready)
    ensures var t := Step(s, Work(JOURNAL)); Marking(t, false, DirtyTaken) && t.c == s.c
  {
    WorkIsAfterWork(s, JOURNAL);
    hide Step;
  }

  lemma JournalWrites(s: Sys)
    requires Marking(s, false, DirtyTaken)
    ensures var t := Step(s, Work(JOURNAL)); Marking(t, false, DirtyWritten(true)) && t.c == s.c
  {
    WorkIsAfterWork(s, JOURNAL);
    hide Step;
  }

  lemma JournalPrepares(s: Sys)
    requires Marking(s, false, DirtyWritten(true))
    ensures var t := Step(s, Work(JOURNAL)); Marking(t, true, Ready) && t.c == s.c
  {
    WorkIsAfterWork(s, JOURNAL);
    hide Step;
  }

  lemma EdgeArrives(s: Sys)
    requires Marking(s, true, Ready)
    ensures var t := Step(s, Event.ZeroCross(1_000_000)); t.p == P1 && t.c == s.c
  {
  }

  // ---------------------------------------------------------------- the first pass

  const I1 := PassAt(1, 1_050_000)

  const R1 :=
    BOOT_RUNTIME.(chamber := Deg(20.0), ptc := Deg(25.0), chamberInstant := Deg(20.0), ptcInstant := Deg(25.0),
                  chamberStatus := SensorOk, ptcStatus := SensorOk, lastSensorMs := 1045)

  const C1 := C0.(contextEpoch := 2, watch := NO_EVIDENCE.(sequence := 1))

  lemma FirstSense()
    ensures Sense(P1, C0, I1) == Pass(P1, C1, START, R1) && SampleAccepted(C0.watch, I1)
  {
  }

  lemma FirstJobs()
    ensures RunJobs(Pass(P1, C1, START, R1), I1) == Pass(P1, C1, JOB, R1.(targetC := 50))
  {
  }

  const WATCH := Watch(1, Channel(2000, 0, 1_050_000, 0, false), Channel(2100, 0, 1_050_000, 0, false), 1_050_000, 0,
                       true, false)

  const D1 := Pass(P1, C1.(watch := WATCH), JOB, R1.(targetC := 50))

  lemma FirstWatch()
    ensures WatchSensors(Pass(P1, C1, JOB, R1.(targetC := 50)), I1, true).0 == D1
  {
  }

  const E1 := D1.(c := D1.c.(demand := true))

  lemma FirstRefresh()
    ensures Refresh(D1, I1) == D1 && !Overtemp(SampleOf(I1), BOARD) && UsableSensors(D1.rt, SampleOf(I1))
  {
  }

  lemma FirstSteer()
    ensures Steer(D1, I1, true, false) == (E1, false, true, true)
  {
  }

  lemma FirstDemand()
    ensures DecideDemand(D1, I1) == Demand(E1, false, true, true, true, false)
  {
    FirstRefresh();
    FirstSteer();
    hide Refresh, Steer, Overtemp, UsableSensors;
  }

  const F1 := E1.(c := E1.c.(zcSeen := true))

  lemma FirstFaults()
    ensures JudgeFaults(Demand(E1, false, true, true, true, false), I1)
         == FaultStage(F1, false, true, true, true, false, false)
  {
  }

  lemma FirstLatch()
    ensures ConsultLatch(FaultStage(F1, false, true, true, true, false, false), true, false)
         == LatchStage(F1, false, true, false, false, false)
  {
  }

  const R2 := R1.(targetC := 50, zeroCross := true, gateReady := true)

  lemma FirstPlan()
    ensures PlanOutputs(LatchStage(F1, false, true, false, false, false), true, I1)
         == OutputStage(P1, JOB2, R2, false, true, true, false)
  {
  }

  const P2 := P1.(settings := JOB2, rt := R2, fan := P1.fan.(requested := true))

  const C2 := F1.c.(purge := false)

  lemma FirstDrive()
    ensures var o := OutputStage(P1, JOB2, R2, false, true, true, false);
            var (q, committed) := Commit(o, I1, 2);
            committed && Drive(q, o, true, I1) == P2
  {
    LimitsNothing(JOB2);
    hide LimitTargets;
  }

  // ---------------------------------------------------------------- the second pass

  const I2 := PassAt(2, 1_150_000)

  const P3 :=
    P2.(fan := P2.fan.(applied := true, edges := 2, lastEdgeUs := 1_100_000, lastPeriodUs := 100_000,
                       minPeriodUs := 100_000, maxPeriodUs := 100_000))

  lemma NextEdge()
    ensures AfterEdge(P2.fan, 1_100_000) == P3.fan
  {
  }

  lemma JobGoesOn()
    ensures JobOf(P3, C2, I2).s == JOB2.(sessionMaxMin := 720)
  {
  }

  lemma StepOf(ss: seq<Sys>, k: nat)
    requires Steps(ss, COLD_START) && k < 8
    ensures |ss| == 9 && |COLD_START| == 8 && ss[k + 1] == Step(ss[k], COLD_START[k])
  {
    hide Step;
    assert Next(ss, COLD_START, k);
  }

  lemma Prepares(ss: seq<Sys>)
    requires Steps(ss, COLD_START) && ss[0].p == P0 && ss[0].c == C0 && ss[0].worker == Ready
    ensures |ss| == 9 && ss[5].p == P1 && ss[5].c == C0
  {
    hide Step, Steps, Marking;
    StepOf(ss, 0);
    CommandStarts(ss[0]);
    StepOf(ss, 1);
    JournalTakes(ss[1]);
    StepOf(ss, 2);
    JournalWrites(ss[2]);
    StepOf(ss, 3);
    JournalPrepares(ss[3]);
    StepOf(ss, 4);
    EdgeArrives(ss[4]);
  }

  lemma FirstPass(ss: seq<Sys>)
    requires Steps(ss, COLD_START) && |ss| == 9 && ss[5].p == P1 && ss[5].c == C0
    ensures ss[6].p == P2 && ss[6].c == C2
  {
    hide Step, Steps, Seen, Sense, RunJobs, WatchSensors, DecideDemand, JudgeFaults, ConsultLatch, PlanOutputs, Commit,
         Drive, SampleAccepted;
    StepOf(ss, 5);
    PassIsTick(ss[5], I1);
    FirstSense();
    FirstJobs();
    FirstWatch();
    FirstDemand();
    FirstFaults();
    FirstLatch();
    FirstPlan();
    FirstDrive();
  }

  lemma SecondPass(ss: seq<Sys>)
    requires Steps(ss, COLD_START) && |ss| == 9 && ss[6].p == P2 && ss[6].c == C2
    ensures ss[8].p.ssr
  {
    hide Step, Steps, JobOf;
    StepOf(ss, 6);
    SecondEdge(ss[6]);
    JobGoesOn();
    PassEnergisesIff(ss, COLD_START, 7);
  }

  /**
   * Heat is reachable: from a first power-up with blank flash, a start command, the journal's marker, two zero-cross
   * edges and two control passes leave the SSR on.
   */
  lemma HeatIsReachable() returns (ss: seq<Sys>)
    ensures Run(ss, COLD_START) && ss[|COLD_START|].p.ssr
  {
    hide Step, Steps, PowerUp;
    var s := Booted(FaultCells(None, None), None, None, BOOT);
    ss := StepsExist(s, COLD_START);
    BootIs();
    PoweredUp(s);
    Prepares(ss);
    FirstPass(ss);
    SecondPass(ss);
  }

  lemma PoweredUp(s: Sys)
    requires s == Booted(FaultCells(None, None), None, None, BOOT)
    ensures PowerUp(s)
  {
    hide LimitTargets, Sanitized;
  }

  lemma SecondEdge(s: Sys)
    requires s.p == P2 && s.c == C2
    ensures var t := Step(s, Event.ZeroCross(1_100_000)); t.p == P3 && t.c == C2
  {
    NextEdge();
    hide AfterEdge;
  }
}
