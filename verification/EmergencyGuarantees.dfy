/** An emergency stop and a clear under way: exactly when the stop leaves the latch in force. */
module EmergencyGuarantees {
  import opened Common
  import opened PlantState
  import opened SafetyLatch
  import opened FanTriac
  import opened SensorWatch
  import opened ControlLease
  import opened ControlPlane
  import opened ControlTick
  import opened TickGuarantees
  import opened Firmware
  import opened FirmwareInvariants
  import opened FirmwareGuarantees
  import opened ClearGuarantees
  import HF = HeaterFaults

  // ---------------------------------------------------------------- a clear under way

  /** The worker has taken a clear of this generation and has not rejected it. */
  predicate TakenNow(w: Worker, generation: nat)
  {
    match w
    case Clearing(g) => g == generation
    case ClearChecked(g, safe) => safe && g == generation
    case ClearWritten(g, written) => written && g == generation
    case _ => false
  }

  /** The worker is about to report a failed marker write, which inhibits the device. */
  predicate Doomed(w: Worker) { w == DirtyWritten(false) || w == CleanWritten(false) }

  /**
   * A clear lives: on a device not inhibited, the worker has taken it at the present generation; or it is armed at that
   * generation, or at least requested, and the worker can still take it up.
   */
  predicate ClearLivesIn(l: Latch, w: Worker)
  {
    && !l.inhibited
    && (|| TakenNow(w, l.generation)
        || (l.mutexOk && !Doomed(w) && (l.clearRequested || (l.deferredClear && l.clearGeneration == l.generation))))
  }

  predicate ClearLives(s: Sys) { ClearLivesIn(s.p.latch, s.worker) }

  /** An event that can neither ask for a clear nor end the boot. */
  predicate Allowed(e: Event) { !e.PowerLoss? && !e.RequestClear? }

  /** All the clock readings of an event, in microseconds, lie in order between a and b. */
  predicate Spans(e: Event, a: int, b: int)
  {
    && a <= b
    && match e
       case ControlPass(i) =>
         && a <= i.nowUs <= i.attemptUs <= i.acquiredUs <= i.admitUs <= i.zcUs <= i.statsUs <= i.setUs <= b
         && forall t :: t in i.admitEdges + i.zcEdges + i.statsEdges + i.setEdges ==> a <= t <= b
       case ZeroCross(t) => a <= t <= b
       case Work(w) => a <= w.nowUs <= b
       case Reserve(_, nowMs) => a <= nowMs * 1000 + 999 && nowMs * 1000 <= b
       case _ => true
  }

  /**
   * A continuation without a new clear request and without a power loss, on a clock that starts no earlier than `from`
   * and never runs backwards, unlatches.
   */
  predicate Unlatches(s: Sys, from: int, ss: seq<Sys>, es: seq<Event>, clock: seq<int>)
  {
    && Steps(ss, es) && ss[0] == s && !ss[|es|].p.latch.latched
    && |clock| == |es| + 1 && from <= clock[0]
    && forall m :: 0 <= m < |es| ==> Allowed(es[m]) && Spans(es[m], clock[m], clock[m + 1])
  }

  /** From s on, not before time `from`, some such continuation exists. */
  ghost predicate CanUnlatch(s: Sys, from: int)
  {
    exists ss: seq<Sys>, es: seq<Event>, clock: seq<int> :: Unlatches(s, from, ss, es, clock)
  }

  // ---------------------------------------------------------------- without a living clear the latch holds

  /** No pending clear is of a generation yet to come. */
  predicate NotAhead(l: Latch, w: Worker)
  {
    && (l.deferredClear ==> l.clearGeneration <= l.generation)
    && (TakenBy(w).Some? ==> TakenBy(w).value <= l.generation)
  }

  predicate Holds(l: Latch, w: Worker) { l.latched && !ClearLivesIn(l, w) && NotAhead(l, w) }

  predicate Held(s: Sys) { Holds(s.p.latch, s.worker) }

  lemma MoveHolds(l: Latch, q: Latch, w: Worker, tripped: bool, armed: bool)
    requires Holds(l, w) && LatchMoves(l, q, tripped, armed) && (tripped ==> !l.latched)
    ensures Holds(q, w)
  {
  }

  lemma InhibitHolds(l: Latch, w: Worker)
    requires NotAhead(l, w)
    ensures Holds(AfterInhibit(l), w)
  {
  }

  lemma PassTripsOnlyOnce(p: Plant, c: Ctl, i: TickIn)
    requires p.latch.latched
    ensures !Tick(p, c, i).tripped
  {
    hide Tick, Judged, ConsultLatch;
    TickUnfolds(p, c, i);
    FrontFrame(p, c, i);
    LatchParts(Judged(p, c, i), Decided(p, c, i).sensorsOk, Decided(p, c, i).overtemp);
  }

  lemma PassHolds(s: Sys, i: TickIn)
    requires Held(s)
    ensures Held(Step(s, ControlPass(i)))
  {
    hide Tick, Seen, Step, Consulted, LatchMoves, Holds, AfterInhibit;
    PassIsTick(s, i);
    TickMovesLatch(s.p, s.c, i);
    var o := Tick(s.p, s.c, i);
    var l := Consulted(s.p, s.c, i).pass.p.latch;
    assert s.p.latch.latched by { HoldsIsLatched(s.p.latch, s.worker); }
    PassTripsOnlyOnce(s.p, s.c, i);
    MoveHolds(s.p.latch, l, s.worker, o.tripped, o.armed);
    if o.inhibits {
      HoldsIsLatched(l, s.worker);
      InhibitHolds(l, s.worker);
    }
  }

  lemma HoldsIsLatched(l: Latch, w: Worker)
    requires Holds(l, w)
    ensures l.latched && NotAhead(l, w)
  {
  }

  lemma DutyHolds(b: Bench, unblocked: bool, w: WorkerIn)
    requires LatchDuty(b.worker) && Holds(b.latch, b.worker)
    ensures var d := AfterLatchDuty(b, unblocked, w); Holds(d.latch, d.worker)
  {
  }

  lemma TurnedHolds(l: Latch)
    requires Holds(l, Ready)
    ensures Holds(AfterServiceBegin(l), Turned(l))
  {
  }

  lemma OffLatchHolds(l: Latch, u: Worker)
    requires Holds(l, Ready) && OffLatch(u)
    ensures Holds(l, u)
  {
  }

  lemma BeginHolds(s: Sys, w: WorkerIn)
    requires s.worker.Ready? && Held(s)
    ensures Held(Begin(s, w))
  {
    hide Begin, Holds, AfterServiceBegin, Turned, OffLatch;
    BeginMoves(s, w);
    if w.duty.ServiceLatch? {
      TurnedHolds(s.p.latch);
    } else {
      OffLatchHolds(s.p.latch, Begin(s, w).worker);
    }
  }

  /** A journal step leaves the latch alone, or reports a failed marker write and inhibits. */
  lemma JournalMoves(s: Sys, w: WorkerIn)
    requires JournalDuty(s.worker)
    ensures var t := AfterJournalDuty(s, w);
            && (if Doomed(s.worker) then t.p.latch == AfterInhibit(s.p.latch) else t.p.latch == s.p.latch)
            && (t.worker.Ready? || t.worker.DirtyWritten? || t.worker.CleanWritten?)
            && t.p.settings == s.p.settings && t.p.fan == s.p.fan
            && (w.write.Committed? ==> !Doomed(t.worker)) && ToReady(t.worker) < ToReady(s.worker)
  {
    hide AfterMarker, AfterInhibit;
  }

  lemma JournalWorkerHolds(l: Latch, v: Worker, u: Worker)
    requires Holds(l, v) && JournalDuty(v) && !Doomed(v) && (u.Ready? || u.DirtyWritten? || u.CleanWritten?)
    ensures Holds(l, u)
  {
  }

  lemma JournalInhibitHolds(l: Latch, v: Worker, u: Worker)
    requires Holds(l, v) && JournalDuty(v) && (u.Ready? || u.DirtyWritten? || u.CleanWritten?)
    ensures Holds(AfterInhibit(l), u)
  {
  }

  lemma JournalHolds(s: Sys, w: WorkerIn)
    requires JournalDuty(s.worker) && Held(s)
    ensures Held(AfterJournalDuty(s, w))
  {
    hide AfterJournalDuty, Holds, AfterInhibit, Doomed;
    JournalMoves(s, w);
    var u := AfterJournalDuty(s, w).worker;
    if Doomed(s.worker) {
      JournalInhibitHolds(s.p.latch, s.worker, u);
    } else {
      JournalWorkerHolds(s.p.latch, s.worker, u);
    }
  }

  lemma FlushHolds(s: Sys, w: WorkerIn)
    requires (s.worker.FlushTaken? || s.worker.FlushWritten?) && Held(s)
    ensures Held(AfterFlushDuty(s, w))
  {
  }

  lemma WorkHolds(s: Sys, w: WorkerIn)
    requires Held(s)
    ensures Held(AfterWork(s, w))
  {
    hide Begin, AfterJournalDuty, AfterFlushDuty, AfterLatchDuty, ClearUnblocked, Holds;
    if s.worker.Ready? {
      BeginHolds(s, w);
    } else if LatchDuty(s.worker) {
      DutyHolds(BenchOf(s), ClearUnblocked(s.p, w.nowUs / 1000), w);
    } else if JournalDuty(s.worker) {
      JournalHolds(s, w);
    } else {
      FlushHolds(s, w);
    }
  }

  lemma OthersHold(s: Sys, e: Event)
    requires Held(s) && Allowed(e) && !e.ControlPass? && !e.Work?
    ensures Held(Step(s, e))
  {
    hide Tick, LimitTargets, Stopped, After, NextEpoch, Admitted, ReservationFree, MaintenanceAllowed, AfterEdge,
         TakenNow, TakenBy, Doomed;
  }

  lemma StepHolds(s: Sys, e: Event)
    requires Held(s) && Allowed(e)
    ensures Held(Step(s, e))
  {
    hide Held, Tick, AfterWork;
    match e
    case ControlPass(i) => PassHolds(s, i);
    case Work(w) => WorkHolds(s, w);
    case _ => OthersHold(s, e);
  }

  lemma {:induction false} RunHolds(ss: seq<Sys>, es: seq<Event>, k: nat)
    requires Steps(ss, es) && k <= |es| && Held(ss[0]) && forall m :: 0 <= m < k ==> Allowed(es[m])
    ensures Held(ss[k])
  {
    hide Held, Step, Allowed;
    if k > 0 {
      RunHolds(ss, es, k - 1);
      assert Next(ss, es, k - 1);
      StepHolds(ss[k - 1], es[k - 1]);
    }
  }

  lemma HeldCannotUnlatch(s: Sys, from: int)
    requires Held(s)
    ensures !CanUnlatch(s, from)
  {
    hide Steps, Allowed, Holds, Spans;
    forall ss: seq<Sys>, es: seq<Event>, clock: seq<int> | Unlatches(s, from, ss, es, clock)
      ensures false
    {
      assert |ss| == |es| + 1 by { StepsLength(ss, es); }
      RunHolds(ss, es, |es|);
      HoldsIsLatched(ss[|es|].p.latch, ss[|es|].worker);
    }
  }

  lemma NotAheadStep(s: Sys, e: Event)
    requires NotAhead(s.p.latch, s.worker) && !e.PowerLoss?
    ensures var t := Step(s, e); NotAhead(t.p.latch, t.worker)
  {
    hide Step, Disturbs, TakenBy;
    StepFollows(s, e);
  }

  lemma BootIsNotAhead(s: Sys, b: BootIn)
    ensures var t := Step(s, PowerLoss(b)); NotAhead(t.p.latch, t.worker)
  {
    hide Step, TakenBy;
    BootArmsNothing(s, b);
  }

  lemma PowerUpIsNotAhead(s: Sys)
    requires PowerUp(s)
    ensures NotAhead(s.p.latch, s.worker)
  {
    hide Booted, NotAhead;
    var b: BootIn :| s == Booted(s.cells, s.marker, s.mailbox.durable, b);
    assert Step(s, PowerLoss(b)) == s;
    BootIsNotAhead(s, b);
  }

  lemma {:induction false} NeverAhead(ss: seq<Sys>, es: seq<Event>, k: nat)
    requires Run(ss, es) && k <= |es|
    ensures NotAhead(ss[k].p.latch, ss[k].worker)
  {
    hide PowerUp, Step, NotAhead;
    if k == 0 {
      PowerUpIsNotAhead(ss[0]);
    } else {
      NeverAhead(ss, es, k - 1);
      assert Next(ss, es, k - 1);
      if es[k - 1].PowerLoss? {
        BootIsNotAhead(ss[k - 1], es[k - 1].b);
      } else {
        NotAheadStep(ss[k - 1], es[k - 1]);
      }
    }
  }

  // ---------------------------------------------------------------- a living clear can finish

  lemma CanNow(s: Sys, from: int)
    requires !s.p.latch.latched
    ensures CanUnlatch(s, from)
  {
    assert Unlatches(s, from, [s], [], [from]);
  }

  lemma CanAfter(s: Sys, e: Event, t: int)
    requires Allowed(e) && Spans(e, t, t) && CanUnlatch(Step(s, e), t)
    ensures CanUnlatch(s, t)
  {
    hide Step, Allowed;
    var ss: seq<Sys>, es: seq<Event>, clock: seq<int> :| Unlatches(Step(s, e), t, ss, es, clock);
    var ss1, es1, clock1 := [s] + ss, [e] + es, [t] + clock;
    forall k: nat | k < |es1|
      ensures Next(ss1, es1, k)
    {
      if k > 0 {
        assert Next(ss, es, k - 1);
      }
    }
    SpansLater(e, t, clock[0]);
    assert Unlatches(s, t, ss1, es1, clock1);
  }

  lemma SpansLater(e: Event, t: int, b: int)
    requires Spans(e, t, t) && t <= b
    ensures Spans(e, t, b)
  {
  }

  /** A time, in microseconds, not before `from` and after everything the fan has seen. */
  function LaterUs(f: Fan, from: int): int { Max(from, 0) + Max(f.lastEdgeUs, 0) + 10_000 }

  predicate Late(f: Fan, t: int) { t >= 10_000 && t - f.lastEdgeUs >= GLITCH_REJECT_US }

  /** A code the channel was not suspected for. */
  function OtherRaw(c: Channel): int { if c.suspectRaw == 100 then 101 else 100 }

  function ColdSample(s: Sys, t: int): Sample
  {
    Sample(s.c.watch.sequence + 1, t, t, Deg(0.0), Deg(0.0), Deg(MinReal(s.p.board.chamberOffset, 0.0)),
           Deg(MinReal(s.p.board.ptcOffset, 0.0)), OtherRaw(s.c.watch.chamber), OtherRaw(s.c.watch.ptc),
           SensorOk, SensorOk)
  }

  /** A pass with fresh cold readings on codes not suspected, and zero cross present. */
  function ColdPass(s: Sys, t: int): TickIn
  {
    TickIn(t, t, t, Some(ColdSample(s, t)), None, [], t, [t], t, [], t, [], t, false)
  }

  lemma ColdIsReadable(s: Sys, t: int)
    requires Late(s.p.fan, t)
    ensures var i := ColdPass(s, t);
            SampleAccepted(s.c.watch, i) && Readable(SampleOf(i)) && !Overtemp(SampleOf(i), s.p.board)
  {
  }

  lemma ColdIsHealthy(s: Sys, t: int, a: Pass)
    requires !a.st.workOn && a.c.watch == s.c.watch.(sequence := ColdSample(s, t).sequence)
    ensures var b := WatchSensors(a, ColdPass(s, t), true).0; b.rt == a.rt
  {
  }

  /** The readings of the cold pass, as they reach the latch. */
  predicate ColdReadings(s: Sys, t: int, rt: Runtime)
  {
    var c := ColdSample(s, t);
    && rt.chamberInstant == c.chamberInstant && rt.ptcInstant == c.ptcInstant && rt.lastSensorMs == c.completedUs / 1000
    && rt.chamberStatus.SensorOk? && rt.ptcStatus.SensorOk?
  }

  lemma ColdSensed(s: Sys, t: int)
    requires Late(s.p.fan, t)
    ensures var a := Sense(s.p, s.c, ColdPass(s, t));
            a.c.watch == s.c.watch.(sequence := ColdSample(s, t).sequence) && ColdReadings(s, t, a.rt)
  {
    hide Sense, HandOverLease, SampleAccepted, AfterCut;
    ColdIsReadable(s, t);
    SenseParts(s.p, s.c, ColdPass(s, t));
  }

  lemma ColdWatched(s: Sys, t: int)
    requires Late(s.p.fan, t)
    requires Quiet(s.p.settings)
    ensures var a := Watched(s.p, s.c, ColdPass(s, t));
            ColdReadings(s, t, a.rt) && Quiet(a.st) && a.p.board == s.p.board
  {
    hide Sense, RunJobs, WatchSensors, SampleAccepted, Readable, Overtemp, ColdPass, ColdSample;
    var i := ColdPass(s, t);
    var a := Jobbed(s.p, s.c, i);
    ColdIsReadable(s, t);
    ColdSensed(s, t);
    SenseFacts(s.p, s.c, i);
    RunJobsFacts(Sense(s.p, s.c, i), i);
    JobbedQuiet(s.p, s.c, i);
    WatchFacts(a, i, true);
    ColdIsHealthy(s, t, a);
  }

  lemma ColdDecided(s: Sys, t: int)
    requires Late(s.p.fan, t)
    requires Quiet(s.p.settings)
    ensures var d := Decided(s.p, s.c, ColdPass(s, t)); d.sensorsOk && !d.overtemp && ColdReadings(s, t, d.pass.rt)
  {
    hide Watched, DecideDemand, Overtemp;
    var i := ColdPass(s, t);
    ColdIsReadable(s, t);
    ColdWatched(s, t);
    DemandParts(Watched(s.p, s.c, i), i);
    DemandFrame(Watched(s.p, s.c, i), i);
  }

  lemma NoEdges(f: Fan)
    ensures AfterEdges(f, []) == f
  {
  }

  lemma LateEdgeSeen(f: Fan, t: int)
    requires Late(f, t)
    ensures AfterEdges(f, [t]).lastEdgeUs == t && EdgeFresh(t, t)
  {
    assert AfterEdges(AfterEdge(f, t), []) == AfterEdge(f, t);
  }

  /** A clear request is armed by a pass that finds the device cold, quiet and its signal present. */
  lemma RequestIsArmed(f: FaultStage)
    requires f.pass.p.latch.latched && !f.pass.p.latch.inhibited && f.pass.p.latch.clearRequested
    requires !f.pass.st.workOn && f.present
    ensures ConsultLatch(f, true, false).armed
  {
    hide Hold;
  }

  lemma LatchedKeepsReadings(f: FaultStage, sensorsOk: bool, overtemp: bool)
    requires f.pass.p.latch.latched
    ensures var l := ConsultLatch(f, sensorsOk, overtemp); l.pass.rt == f.pass.rt.(fault := l.pass.rt.fault)
  {
    hide Stopped, ReleaseOwned, AfterDeferClear, AfterTakeClear, Arms;
  }

  /** The cold pass up to the latch. */
  lemma ColdConsulted(s: Sys, t: int)
    requires Late(s.p.fan, t)
    requires Quiet(s.p.settings) && s.p.latch.latched && !s.p.latch.inhibited
    ensures var i := ColdPass(s, t);
            var l := Consulted(s.p, s.c, i);
            && ColdReadings(s, t, l.pass.rt) && l.sawLatch
            && l.pass.p.fan.lastEdgeUs == i.statsUs
            && (s.p.latch.clearRequested ==> l.armed)
  {
    hide ColdReadings, Decided, JudgeFaults, ConsultLatch, AfterEdges, Late;
    var i := ColdPass(s, t);
    ColdDecided(s, t);
    ColdWatched(s, t);
    EarlyFrame(s.p, s.c, i);
    FrontFrame(s.p, s.c, i);
    MiddleFrame(s.p, s.c, i);
    ConsultedFrame(s.p, s.c, i);
    ColdFan(s, t);
    ColdJudged(s, t);
    var f := Judged(s.p, s.c, i);
    LatchFacts(f, true, false);
    LatchedKeepsReadings(f, true, false);
    ReadingsKept(s, t, f.pass.rt, Consulted(s.p, s.c, i).pass.rt);
    if s.p.latch.clearRequested {
      RequestIsArmed(f);
    }
  }

  lemma ReadingsKept(s: Sys, t: int, r: Runtime, q: Runtime)
    requires ColdReadings(s, t, r) && q == r.(fault := q.fault, rise := q.rise, zeroCross := q.zeroCross,
                                           gateReady := q.gateReady, heaterOn := q.heaterOn, fanOn := q.fanOn)
    ensures ColdReadings(s, t, q)
  {
  }

  lemma ColdFan(s: Sys, t: int)
    requires Late(s.p.fan, t)
    ensures var i := ColdPass(s, t);
            AfterEdges(AfterEdges(s.p.fan, i.admitEdges), i.zcEdges).lastEdgeUs == i.zcUs && EdgeFresh(i.zcUs, i.zcUs)
  {
    hide AfterEdges, Late;
    NoEdges(s.p.fan);
    LateEdgeSeen(s.p.fan, t);
  }

  lemma ColdJudged(s: Sys, t: int)
    requires Late(s.p.fan, t)
    requires Quiet(s.p.settings)
    ensures var f := Judged(s.p, s.c, ColdPass(s, t)); f.present && ColdReadings(s, t, f.pass.rt) && !f.pass.st.workOn
  {
    hide ColdReadings, Decided, JudgeFaults, AfterEdges, EdgeFresh, Quiet, Jobbed;
    var i := ColdPass(s, t);
    ColdDecided(s, t);
    ColdFan(s, t);
    JobbedQuiet(s.p, s.c, i);
    assert !Jobbed(s.p, s.c, i).st.workOn by { QuietIsOff(Jobbed(s.p, s.c, i).st); }
    FrontFrame(s.p, s.c, i);
    EarlyFrame(s.p, s.c, i);
    DemandFrame(Watched(s.p, s.c, i), i);
    JudgeFacts(Decided(s.p, s.c, i), i);
    ReadingsKept(s, t, Decided(s.p, s.c, i).pass.rt, Judged(s.p, s.c, i).pass.rt);
  }

  lemma QuietIsOff(s: Settings)
    requires Quiet(s)
    ensures !s.workOn && !s.schedule.enabled
  {
  }

  /** What the cold pass commits. */
  lemma ColdCommitted(s: Sys, t: int)
    requires Late(s.p.fan, t)
    requires Quiet(s.p.settings) && s.p.latch.latched && !s.p.latch.inhibited
    ensures var o := Tick(s.p, s.c, ColdPass(s, t));
            && !o.inhibits && Quiet(o.p.settings) && !o.p.ssr && !o.p.rt.heaterOn && o.p.rt.zeroCross
            && ColdReadings(s, t, o.p.rt) && o.p.board == s.p.board
  {
    hide Tick, Consulted, PlanOutputs, Commit, Drive, LimitTargets, ColdReadings, Stopped, Quiet, EdgeFresh, Late;
    var i := ColdPass(s, t);
    var o := Tick(s.p, s.c, i);
    var plan := Planned(s.p, s.c, i);
    ColdConsulted(s, t);
    ColdFan(s, t);
    TickUnfolds(s.p, s.c, i);
    TickMovesLatch(s.p, s.c, i);
    ConsultedFrame(s.p, s.c, i);
    SawLatchStops(s.p, s.c, i);
    CommittedSettings(s.p, s.c, i);
    StoppedIsQuiet(Jobbed(s.p, s.c, i).st);
    PlanFacts(Consulted(s.p, s.c, i), Decided(s.p, s.c, i).controller, i);
    NoEdges(Consulted(s.p, s.c, i).pass.p.fan);
    CommitFacts(plan, i, s.p.epoch);
    var (q, committed) := Commit(plan, i, s.p.epoch);
    DriveFacts(q, plan, committed, i);
    ReadingsKept(s, t, Consulted(s.p, s.c, i).pass.rt, o.p.rt);
  }

  lemma ColdUnblocks(s: Sys, t: int, q: Plant)
    requires ColdReadings(s, t, q.rt) && q.board == s.p.board && Quiet(q.settings) && !q.rt.heaterOn && q.rt.zeroCross
    requires !q.latch.inhibited && Late(s.p.fan, t)
    ensures ClearUnblocked(q, t / 1000)
  {
  }

  /** After the cold pass nothing blocks a clear, and a request has become an armed clear. */
  lemma ColdPassUnblocks(s: Sys, t: int)
    requires Late(s.p.fan, t)
    requires Quiet(s.p.settings) && s.p.latch.latched && !s.p.latch.inhibited
    ensures var u := Step(s, ControlPass(ColdPass(s, t)));
            var l, q := s.p.latch, u.p.latch;
            && u.worker == s.worker && Quiet(u.p.settings) && ClearUnblocked(u.p, t / 1000)
            && q.latched && !q.inhibited && q.generation == l.generation && q.mutexOk == l.mutexOk
            && (if l.clearRequested then q.deferredClear && q.clearGeneration == q.generation
                else q.deferredClear == l.deferredClear && q.clearGeneration == l.clearGeneration)
  {
    hide Step, Tick, Seen, Consulted, ColdPass, ColdReadings, ClearUnblocked, Quiet, Late;
    var i := ColdPass(s, t);
    PassIsTick(s, i);
    ColdCommitted(s, t);
    ColdConsulted(s, t);
    TickMovesLatch(s.p, s.c, i);
    PassTripsOnlyOnce(s.p, s.c, i);
    TickArms(s, t);
    ColdUnblocks(s, t, Tick(s.p, s.c, i).p);
  }

  lemma TickArms(s: Sys, t: int)
    ensures Tick(s.p, s.c, ColdPass(s, t)).armed == Consulted(s.p, s.c, ColdPass(s, t)).armed
  {
    hide Tick, Consulted, ColdPass;
    TickUnfolds(s.p, s.c, ColdPass(s, t));
  }

  // ---------------------------------------------------------------- the worker finishes it

  /** A worker step at time t whose flash write, if any, commits; a ready worker turns to the latch. */
  function Worked(t: int): Event { Work(WorkerIn(t, Committed, ServiceLatch)) }

  /** Nothing blocks a clear at time t, in microseconds. */
  predicate Clear(s: Sys, t: int)
  {
    s.p.latch.latched && !s.p.latch.inhibited && ClearUnblocked(s.p, t / 1000)
  }

  lemma UnblockedIgnoresPending(p: Plant, l: Latch, nowMs: int)
    requires l.inhibited == p.latch.inhibited && l.fault == p.latch.fault
    ensures ClearUnblocked(p.(latch := l), nowMs) == ClearUnblocked(p, nowMs)
  {
  }

  /** A clear the worker has taken at the present generation goes one phase on, or finishes. */
  lemma TakenGoesOn(s: Sys, t: int)
    requires Clear(s, t) && TakenNow(s.worker, s.p.latch.generation)
    ensures var u := Step(s, Worked(t));
            if s.worker.ClearWritten? then !u.p.latch.latched
            else Clear(u, t) && TakenNow(u.worker, u.p.latch.generation)
                 && u.worker == (if s.worker.Clearing? then ClearChecked(s.worker.generation, true)
                                 else ClearWritten(s.worker.generation, true))
  {
    hide Step, ClearUnblocked, Begin, AfterJournalDuty, AfterFlushDuty;
    WorkIsAfterWork(s, WorkerIn(t, Committed, ServiceLatch));
  }

  function Phases(w: Worker): nat { if w.Clearing? then 3 else if w.ClearChecked? then 2 else 1 }

  lemma {:induction false} TakenFinishes(s: Sys, t: int)
    requires Clear(s, t) && TakenNow(s.worker, s.p.latch.generation)
    ensures CanUnlatch(s, t)
    decreases Phases(s.worker)
  {
    hide Step, Clear, CanUnlatch;
    TakenGoesOn(s, t);
    var u := Step(s, Worked(t));
    if s.worker.ClearWritten? {
      CanNow(u, t);
    } else {
      TakenFinishes(u, t);
    }
    CanAfter(s, Worked(t), t);
  }

  /** A ready worker takes up an armed clear. */
  lemma ArmedIsTaken(s: Sys, t: int)
    requires Clear(s, t) && s.worker.Ready? && s.p.latch.mutexOk
    requires s.p.latch.deferredClear && s.p.latch.clearGeneration == s.p.latch.generation
    ensures var u := Step(s, Worked(t)); Clear(u, t) && TakenNow(u.worker, u.p.latch.generation)
  {
    hide Step, ClearUnblocked, AfterLatchDuty, AfterJournalDuty, AfterFlushDuty;
    WorkIsAfterWork(s, WorkerIn(t, Committed, ServiceLatch));
    UnblockedIgnoresPending(s.p, AfterServiceBegin(s.p.latch), t / 1000);
  }

  /** The latch fields a clear depends on. */
  predicate SamePending(l: Latch, q: Latch)
  {
    && q.latched == l.latched && q.inhibited == l.inhibited && q.generation == l.generation && q.mutexOk == l.mutexOk
    && q.clearRequested == l.clearRequested && q.deferredClear == l.deferredClear
    && q.clearGeneration == l.clearGeneration
  }

  /** Worker steps to Ready when every write commits. */
  function ToReady(w: Worker): nat
  {
    match w
    case Ready => 0
    case Clearing(_) => 6
    case ClearChecked(_, _) => 5
    case ClearWritten(_, _) => 4
    case Retrying => 3
    case RetryTaken(_, _, _) => 2
    case RetryWritten(_, _) => 1
    case DirtyTaken => 2
    case CleanTaken => 2
    case FlushTaken(_, _) => 2
    case DirtyWritten(_) => 1
    case CleanWritten(_) => 1
    case FlushWritten(_, _) => 1
  }

  lemma BusyLatchGoesOn(b: Bench, unblocked: bool, w: WorkerIn)
    requires LatchDuty(b.worker) && b.latch.latched && !TakenNow(b.worker, b.latch.generation) && w.write.Committed?
    ensures var d := AfterLatchDuty(b, unblocked, w);
            && SamePending(b.latch, d.latch) && ToReady(d.worker) < ToReady(b.worker)
            && !TakenNow(d.worker, d.latch.generation) && !Doomed(d.worker)
  {
  }

  lemma FlushGoesOn(s: Sys, w: WorkerIn)
    requires s.worker.FlushTaken? || s.worker.FlushWritten?
    ensures var u := AfterFlushDuty(s, w);
            && u.p.latch == s.p.latch && u.p.settings == s.p.settings && u.p.fan == s.p.fan
            && (u.worker.Ready? || u.worker.FlushWritten?) && ToReady(u.worker) < ToReady(s.worker)
  {
  }

  lemma SameLatchGoesOn(l: Latch, u: Worker)
    requires u.Ready? || u.DirtyWritten? || u.CleanWritten? || u.FlushWritten?
    ensures SamePending(l, l) && !TakenNow(u, l.generation) && (Doomed(u) ==> !u.Ready? && !u.FlushWritten?)
  {
  }

  lemma BusyGoesOn(s: Sys, t: int)
    requires !s.worker.Ready? && !Doomed(s.worker) && s.p.latch.latched && !TakenNow(s.worker, s.p.latch.generation)
    ensures var u := Step(s, Worked(t));
            && SamePending(s.p.latch, u.p.latch) && ToReady(u.worker) < ToReady(s.worker)
            && !TakenNow(u.worker, u.p.latch.generation) && !Doomed(u.worker) && u.p.settings == s.p.settings
            && u.p.fan == s.p.fan
  {
    hide Step, ClearUnblocked, Begin, AfterLatchDuty, AfterJournalDuty, AfterFlushDuty, AfterInhibit, SamePending,
         ToReady, TakenNow, Doomed;
    var w := WorkerIn(t, Committed, ServiceLatch);
    WorkIsAfterWork(s, w);
    if LatchDuty(s.worker) {
      BusyLatchGoesOn(BenchOf(s), ClearUnblocked(s.p, w.nowUs / 1000), w);
    } else if JournalDuty(s.worker) {
      JournalMoves(s, w);
      SameLatchGoesOn(s.p.latch, AfterJournalDuty(s, w).worker);
    } else {
      FlushGoesOn(s, w);
      SameLatchGoesOn(s.p.latch, AfterFlushDuty(s, w).worker);
    }
  }

  /** A clear armed or requested, with the worker free to take it up. */
  predicate Waiting(s: Sys)
  {
    && Quiet(s.p.settings) && s.p.latch.latched && !s.p.latch.inhibited && s.p.latch.mutexOk && !Doomed(s.worker)
    && (s.p.latch.clearRequested || (s.p.latch.deferredClear && s.p.latch.clearGeneration == s.p.latch.generation))
  }

  lemma ColdPassSpans(s: Sys, t: int)
    ensures Spans(ControlPass(ColdPass(s, t)), t, t)
  {
  }

  lemma {:induction false} WaitingFinishes(s: Sys, t: int)
    requires Waiting(s) && !TakenNow(s.worker, s.p.latch.generation) && Late(s.p.fan, t)
    ensures CanUnlatch(s, t)
    decreases ToReady(s.worker)
  {
    hide Step, Quiet, CanUnlatch, ColdPass, ClearUnblocked, Late;
    if s.worker.Ready? {
      ColdPassUnblocks(s, t);
      var u := Step(s, ControlPass(ColdPass(s, t)));
      ArmedIsTaken(u, t);
      TakenFinishes(Step(u, Worked(t)), t);
      CanAfter(u, Worked(t), t);
      ColdPassSpans(s, t);
      CanAfter(s, ControlPass(ColdPass(s, t)), t);
    } else {
      BusyGoesOn(s, t);
      WaitingFinishes(Step(s, Worked(t)), t);
      CanAfter(s, Worked(t), t);
    }
  }

  lemma CanEarlier(s: Sys, from: int, t: int)
    requires from <= t && CanUnlatch(s, t)
    ensures CanUnlatch(s, from)
  {
    var ss: seq<Sys>, es: seq<Event>, clock: seq<int> :| Unlatches(s, t, ss, es, clock);
    assert Unlatches(s, from, ss, es, clock);
  }

  /** A living clear on a stopped, latched device can finish, however late, on a clock that runs forward. */
  lemma LivingClearFinishes(s: Sys, from: int)
    requires Quiet(s.p.settings) && s.p.latch.latched && ClearLives(s)
    ensures CanUnlatch(s, from)
  {
    hide Step, Quiet, CanUnlatch, ColdPass, ClearUnblocked;
    var t := LaterUs(s.p.fan, from);
    if TakenNow(s.worker, s.p.latch.generation) {
      ColdPassUnblocks(s, t);
      TakenFinishes(Step(s, ControlPass(ColdPass(s, t))), t);
      ColdPassSpans(s, t);
      CanAfter(s, ControlPass(ColdPass(s, t)), t);
    } else {
      WaitingFinishes(s, t);
    }
    CanEarlier(s, from, t);
  }

  // ---------------------------------------------------------------- the exact condition

  lemma StopKeepsClear(s: Sys)
    requires s.p.latch.latched
    ensures var t := Step(s, EmergencyStop); t.p.latch == s.p.latch && t.worker == s.worker && Quiet(t.p.settings)
  {
    hide Stopped, LimitTargets, NextEpoch, Quiet;
    StoppedIsQuiet(s.p.settings);
    LimitKeepsQuiet(Stopped(s.p.settings));
  }

  /**
   * In any run, after an emergency stop on a latched device, some continuation without a power loss or a new clear
   * request, on a clock that starts as late as one likes and runs forward, unlatches it if and only if a clear lives at
   * the stop: taken by the worker at the present generation and not rejected, or armed at that generation or requested
   * and still to be taken up.
   */
  lemma EmergencyStopHoldsIffNoClearLives(ss: seq<Sys>, es: seq<Event>, k: nat, from: int)
    requires Run(ss, es) && k < |es| && es[k].EmergencyStop? && ss[k].p.latch.latched
    ensures CanUnlatch(ss[k + 1], from) <==> ClearLives(ss[k])
  {
    hide PowerUp, Step, CanUnlatch, Quiet;
    assert Next(ss, es, k);
    StopKeepsClear(ss[k]);
    NeverAhead(ss, es, k);
    if ClearLives(ss[k]) {
      LivingClearFinishes(ss[k + 1], from);
    } else {
      HeldCannotUnlatch(ss[k + 1], from);
    }
  }

  /** An emergency stop on a device whose latch is clear always latches it, and stops all work either way. */
  lemma EmergencyStopLatches(ss: seq<Sys>, es: seq<Event>, k: nat)
    requires Steps(ss, es) && k < |es| && es[k].EmergencyStop?
    ensures ss[k + 1].p.latch.latched && Quiet(ss[k + 1].p.settings)
    ensures ss[k].p.latch.latched ==> ss[k + 1].p.latch == ss[k].p.latch
  {
    hide Stopped, LimitTargets, AfterRelease, NextEpoch, Quiet;
    assert Next(ss, es, k);
    StoppedIsQuiet(ss[k].p.settings);
    LimitKeepsQuiet(Stopped(ss[k].p.settings));
  }

  /**
   * The condition matters: a device that boots with a stored latch, is asked to clear it and is then stopped can still
   * unlatch, with no further request.
   */
  lemma StoppedClearIsReachable(b: BootIn, durable: Option<Settings>, from: int)
    returns (ss: seq<Sys>, es: seq<Event>)
    requires b.mutexOk && b.read.ReadsOk? && b.marker.MarkerReadsOk? && b.wdtArmed && b.usable
    ensures Run(ss, es) && es == [RequestClear, EmergencyStop] && ss[1].p.latch.latched && CanUnlatch(ss[2], from)
  {
    hide Step, CanUnlatch, LimitTargets, Sanitized;
    es := [RequestClear, EmergencyStop];
    var s := Booted(FaultCells(Some(HF.OVERTEMP), Some(1)), None, durable, b);
    ss := StepsExist(s, es);
    assert PowerUp(s);
    assert Next(ss, es, 0);
    RequestFilesClear(s);
    EmergencyStopHoldsIffNoClearLives(ss, es, 1, from);
  }

  lemma RequestFilesClear(s: Sys)
    ensures var t := Step(s, RequestClear); t.p.latch == AfterRequestClear(s.p.latch) && t.worker == s.worker
  {
    hide Stopped, LimitTargets, AfterRelease, NextEpoch;
  }
}
