/** What a single control pass guarantees: per-stage facts, then the facts of the whole pass. */
module TickGuarantees {
  import opened Common
  import opened PlantState
  import opened SafetyLatch
  import opened FanTriac
  import opened ControlLease
  import opened SensorWatch
  import opened Jobs
  import opened JobSession
  import opened ControlPlane
  import opened ControlTick
  import HF = HeaterFaults

  // ---------------------------------------------------------------- frame facts of the stages

  /** Shared state no stage before the commit may touch; the SSR can only be cut, the fan only sees interrupts. */
  predicate SameGuard(p: Plant, q: Plant)
  {
    && q.settings == p.settings && q.epoch == p.epoch && q.maintenance == p.maintenance && q.prepared == p.prepared
    && q.dirty == p.dirty && q.board == p.board && q.printer == p.printer
    && (q.ssr ==> p.ssr) && q.rt == p.rt.(heaterOn := q.rt.heaterOn)
  }

  /** Acquired readings no stage changes afterwards. */
  predicate SameReadings(r: Runtime, q: Runtime)
  {
    && q.chamberInstant == r.chamberInstant && q.ptcInstant == r.ptcInstant && q.lastSensorMs == r.lastSensorMs
    && q.targetC == r.targetC
  }

  /** The control task's own claim names the current revision and allows a takeover, so it is never refused. */
  lemma LocalClaimGranted(l: Lease)
    requires l.ready
    ensures ClaimVerdict(l, LocalJob, true, l.revision).Granted?
  {
  }

  lemma HandOverFacts(p: Plant, nowUs: int)
    ensures var (q, st) := HandOverLease(p, p.settings, nowUs);
            st == p.settings && q == p.(lease := q.lease)
  {
    hide Stopped, AfterClaim, AfterRelease, AfterInhibit;
    if Expired(p.lease, nowUs) {
      LocalClaimGranted(p.lease);
    }
  }

  lemma CopiedFrame(p: Plant, c: Ctl)
    ensures var a := Copied(p, c);
            && a.p == p && a.st == p.settings && a.rt == p.rt
            && a.c == c.(autoSeen := a.c.autoSeen, lastAuto := a.c.lastAuto, contextEpoch := a.c.contextEpoch)
  {
  }

  lemma HandOverFrame(a: Pass, nowUs: int)
    ensures var h := HandOverLease(a.p, a.st, nowUs); HandOver(a, nowUs) == a.(p := h.0, st := h.1)
  {
    hide HandOverLease;
  }

  /** The freeze watch once the acquisition has been admitted or not. */
  function Admitting(w: Watch, i: TickIn): Watch
  {
    if SampleAccepted(w, i) then w.(sequence := i.sample.value.sequence) else w
  }

  lemma AcquireFrame(a: Pass, i: TickIn)
    ensures var b := Acquire(a, i);
            && (b.p == a.p || b.p == AfterCut(a.p)) && b.st == a.st && b.c == a.c.(watch := Admitting(a.c.watch, i))
            && b.rt == ReadSensors(a.rt, i, SampleAccepted(a.c.watch, i))
  {
    hide IsFresh, AfterCut, ReadSensors;
  }

  /** The parts of the sensing stage, each on its own. */
  lemma SenseParts(p: Plant, c: Ctl, i: TickIn)
    ensures var a := Sense(p, c, i);
            var h := HandOverLease(p, p.settings, i.nowUs);
            && (a.p == h.0 || a.p == AfterCut(h.0)) && a.st == h.1
            && a.rt == ReadSensors(p.rt, i, SampleAccepted(c.watch, i))
            && a.c == c.(autoSeen := a.c.autoSeen, lastAuto := a.c.lastAuto, contextEpoch := a.c.contextEpoch,
                         watch := Admitting(c.watch, i))
  {
    hide Copied, HandOver, Acquire, HandOverLease, ReadSensors, SampleAccepted, Admitting, AfterCut;
    CopiedFrame(p, c);
    HandOverFrame(Copied(p, c), i.nowUs);
    AcquireFrame(HandOver(Copied(p, c), i.nowUs), i);
  }

  lemma SenseFacts(p: Plant, c: Ctl, i: TickIn)
    ensures var a := Sense(p, c, i);
            && SameGuard(p, a.p) && a.p.latch == p.latch && a.p.fan == p.fan && a.st == p.settings
  {
    hide Sense, HandOverLease;
    SenseParts(p, c, i);
    HandOverFacts(p, i.nowUs);
  }

  lemma RunJobsFacts(a: Pass, i: TickIn)
    ensures var b := RunJobs(a, i);
            && b.p == a.p && b.c == a.c.(autoSeen := b.c.autoSeen, lastAuto := b.c.lastAuto)
            && b.rt == a.rt.(fault := b.rt.fault, targetC := EffectiveTarget(b.st))
            && 0 <= b.rt.targetC <= VALIDATION_MAX_TARGET_C
  {
    hide AfterJobs;
    var env := TickEnv(a.p.printer, a.rt, ScheduleAllowed(a.p, i.nowUs), i.profile, i.NowMs());
    var t := EffectiveTarget(AfterJobs(AutoContext(a.st, a.c.autoSeen, a.c.lastAuto), env).ctx.s);
    assert 0 <= t <= VALIDATION_MAX_TARGET_C;
  }

  lemma RestFrame(a: Pass)
    ensures var b := RestWatch(a); b == a.(c := a.c.(watch := b.c.watch))
  {
    hide AfterOff;
  }

  lemma StepIsReadable(w: Watch, s: Sample, accepted: bool, job: bool, ssrOn: bool, nowUs: int)
    ensures var health := AfterStep(w, s, accepted, job, ssrOn, nowUs).1;
            health.Healthy? || health.Warning? ==> accepted && Readable(s)
  {
    hide Judge, Collect, Readable;
  }

  lemma StepFrame(a: Pass, i: TickIn, accepted: bool)
    ensures var (b, health) := StepWatch(a, i, accepted);
            && b == a.(c := a.c.(watch := b.c.watch))
            && (health.Healthy? || health.Warning? ==> accepted && Readable(SampleOf(i)))
  {
    hide AfterStep, JobHeats, Readable, SampleOf;
    StepIsReadable(a.c.watch, SampleOf(i), accepted, JobHeats(a.st, a.rt.targetC), a.rt.heaterOn, i.acquiredUs);
  }

  lemma DistrustFrame(a: Pass, health: Health)
    ensures var b := Distrust(a, health);
            && SameGuard(a.p, b.p) && b.p.latch == a.p.latch && b.p.fan == a.p.fan && b.st == a.st && b.c == a.c
            && b.rt == a.rt.(chamberStatus := b.rt.chamberStatus, ptcStatus := b.rt.ptcStatus)
            && (SensorsOk(b.rt) ==> (health.Healthy? || health.Warning?) && b.rt == a.rt)
  {
  }

  lemma WatchFacts(a: Pass, i: TickIn, accepted: bool)
    ensures var (b, health) := WatchSensors(a, i, accepted);
            && SameGuard(a.p, b.p) && b.p.latch == a.p.latch && b.p.fan == a.p.fan && b.st == a.st
            && b.c == a.c.(watch := b.c.watch)
            && b.rt == a.rt.(chamberStatus := b.rt.chamberStatus, ptcStatus := b.rt.ptcStatus)
            && (SensorsOk(b.rt) ==> accepted && Readable(SampleOf(i)) && b.rt == a.rt)
  {
    hide RestWatch, StepWatch, Distrust, SameGuard, SensorsOk, Readable, SampleOf;
    RestFrame(a);
    StepFrame(RestWatch(a), i, accepted);
    var (b, health) := StepWatch(RestWatch(a), i, accepted);
    DistrustFrame(b, health);
  }

  lemma DriveFrame(b: Pass, i: TickIn)
    ensures var d := DriveJob(b, i).0;
            && d.p == b.p && d.st == b.st && d.c == b.c.(demand := d.c.demand)
            && d.rt == b.rt.(fault := d.rt.fault, duty := d.rt.duty)
  {
    hide DemandInhibited, AutoAllowed, NextDemand;
  }

  lemma DriveHeats(b: Pass, i: TickIn)
    requires DriveJob(b, i).1
    ensures !DemandInhibited(b, i) && b.rt.chamberInstant.Below(b.rt.targetC as real)
  {
    hide DemandInhibited, AutoAllowed;
  }

  lemma SteerFrame(b: Pass, i: TickIn, sensorsOk: bool, hot: bool)
    ensures var d := Steer(b, i, sensorsOk, hot).0;
            && d.p == b.p && d.st == b.st && d.c == b.c.(demand := d.c.demand)
            && d.rt == b.rt.(fault := d.rt.fault, duty := d.rt.duty)
  {
    hide DriveJob, JobHeats;
    if hot || !sensorsOk {
    } else {
      DriveFrame(b, i);
    }
  }

  lemma SteerHeats(b: Pass, i: TickIn, sensorsOk: bool, hot: bool)
    requires Steer(b, i, sensorsOk, hot).1
    ensures sensorsOk && !hot && JobHeats(b.st, b.rt.targetC) && !DemandInhibited(b, i)
    ensures b.rt.chamberInstant.Below(b.rt.targetC as real)
  {
    hide DriveJob, JobHeats, DemandInhibited;
    DriveHeats(b, i);
  }

  lemma RefreshFacts(a: Pass, i: TickIn)
    ensures var b := Refresh(a, i);
            && b.p == a.p.(fan := AfterEdges(a.p.fan, i.admitEdges)) && b.st == a.st
            && b.c == a.c.(foldback := b.c.foldback)
            && b.rt == a.rt.(duty := false, cooling := b.rt.cooling)
  {
    hide AfterEdges, NextFoldback, NextCooling, SymbiontActive;
  }

  lemma DemandParts(a: Pass, i: TickIn)
    ensures var d := DecideDemand(a, i);
            var (e, heat, fan, controller) := Steer(Refresh(a, i), i, d.sensorsOk, d.overtemp);
            && d.pass == e.(c := e.c.(demand := d.pass.c.demand))
            && (d.heat ==> heat && !e.c.foldback)
            && d.sensorsOk == UsableSensors(a.rt, SampleOf(i)) && d.overtemp == Overtemp(SampleOf(i), a.p.board)
  {
    hide Steer, Refresh, Overtemp, UsableSensors;
  }

  lemma DemandFrame(a: Pass, i: TickIn)
    ensures var d := DecideDemand(a, i);
            && d.pass.p == a.p.(fan := AfterEdges(a.p.fan, i.admitEdges)) && d.pass.st == a.st
            && d.pass.c == a.c.(foldback := d.pass.c.foldback, demand := d.pass.c.demand)
            && d.pass.rt == a.rt.(fault := d.pass.rt.fault, duty := d.pass.rt.duty, cooling := d.pass.rt.cooling)
  {
    hide Steer, Refresh, DecideDemand, AfterEdges;
    DemandParts(a, i);
    RefreshFacts(a, i);
    SteerFrame(Refresh(a, i), i, DecideDemand(a, i).sensorsOk, DecideDemand(a, i).overtemp);
  }

  lemma DemandHeats(a: Pass, i: TickIn)
    requires DecideDemand(a, i).heat
    ensures var d := DecideDemand(a, i);
            && d.sensorsOk && !d.overtemp && JobHeats(a.st, a.rt.targetC) && !d.pass.c.foldback
            && a.rt.chamberInstant.Below(a.rt.targetC as real)
            && a.p.prepared && !a.p.latch.latched && !a.p.latch.inhibited && !a.p.maintenance && a.c.wdtArmed
            && Running(AfterEdges(a.p.fan, i.admitEdges), i.admitUs)
  {
    hide Steer, Refresh, DecideDemand, AfterEdges, JobHeats, Running;
    DemandParts(a, i);
    RefreshFacts(a, i);
    SteerFrame(Refresh(a, i), i, DecideDemand(a, i).sensorsOk, DecideDemand(a, i).overtemp);
    SteerHeats(Refresh(a, i), i, DecideDemand(a, i).sensorsOk, DecideDemand(a, i).overtemp);
  }

  lemma JudgeFacts(d: Demand, i: TickIn)
    ensures var f := JudgeFaults(d, i);
            var fan := AfterEdges(d.pass.p.fan, i.zcEdges);
            && f.pass.p == d.pass.p.(fan := fan) && f.pass.st == d.pass.st
            && f.pass.c == d.pass.c.(zcGaps := fan.gaps,
                                     zcSeen := f.session && (d.pass.c.zcSeen || f.present))
            && f.pass.rt == d.pass.rt.(fault := f.pass.rt.fault, rise := f.pass.rt.rise)
            && f.session == ZcSession(d.pass.st, d.pass.rt.targetC) && f.present == EdgeFresh(fan.lastEdgeUs, i.zcUs)
            && (f.heat ==> d.heat && f.pass.rt.fault == HF.OK)
            && (f.session && d.pass.c.zcSeen && (!f.present || fan.gaps != d.pass.c.zcGaps) ==> f.hazard)
  {
    hide AfterEdges, NextRise;
  }

  lemma BadSensorsAreHazard(a: Pass, i: TickIn)
    requires !ValidSensors(a.rt) && a.st.workOn
    ensures JudgeFaults(DecideDemand(a, i), i).hazard
  {
    hide DriveJob, DemandInhibited, Overtemp, Refresh, AfterEdges, NextRise, Warming;
    RefreshFacts(a, i);
    DemandParts(a, i);
    DemandFrame(a, i);
  }

  lemma ReleaseFrame(p: Plant)
    ensures ReleaseOwned(p) == p.(lease := ReleaseOwned(p).lease)
  {
    hide AfterRelease, SnapshotOf;
  }

  /** The latch after the pass may have tripped it, and whether a pending clear request is turned into a clear. */
  lemma LatchParts(f: FaultStage, sensorsOk: bool, overtemp: bool)
    ensures var l := ConsultLatch(f, sensorsOk, overtemp);
            var p := f.pass.p;
            var tripped := if l.tripped then AfterDeferTrip(p.latch, f.pass.rt.fault) else p.latch;
            && l.tripped == (f.hazard && !p.latch.latched)
            && l.pass.p.latch == (if l.armed then AfterDeferClear(AfterTakeClear(tripped)) else AfterTakeClear(tripped))
            && (l.armed ==> tripped.clearRequested && tripped.latched && !tripped.inhibited
                            && sensorsOk && !overtemp && !f.pass.st.workOn)
            && l.sawLatch == l.pass.p.latch.latched
  {
    hide Stopped, ReleaseOwned;
    var b := AfterTrip(f);
    var taken := AfterTakeClear(b.p.latch);
    ReleaseFrame(b.p.(latch := taken));
    ReleaseFrame(b.p.(latch := AfterDeferClear(taken)));
  }

  lemma LatchFacts(f: FaultStage, sensorsOk: bool, overtemp: bool)
    ensures var l := ConsultLatch(f, sensorsOk, overtemp);
            var p := f.pass.p.latch;
            var q := l.pass.p.latch;
            && q.generation == p.generation + (if l.tripped then 1 else 0)
            && q.inhibited == p.inhibited && q.mutexOk == p.mutexOk
            && !q.clearRequested && (l.armed ==> p.clearRequested)
            && (l.tripped ==> q.latched && q.persistPending && !q.deferredClear && !l.armed)
            && (!l.tripped ==> q.latched == p.latched && q.persistPending == p.persistPending && q.fault == p.fault
                               && q.lastAttemptUs == p.lastAttemptUs)
            && (l.armed ==> q.deferredClear && q.clearGeneration == q.generation && q.latched && !q.inhibited)
            && (!l.armed && !l.tripped ==> q.deferredClear == p.deferredClear && q.clearGeneration == p.clearGeneration)
            && (l.armed ==> sensorsOk && !overtemp && !f.pass.st.workOn)
            && (f.hazard ==> l.sawLatch) && l.sawLatch == q.latched
  {
    hide ConsultLatch;
    LatchParts(f, sensorsOk, overtemp);
  }

  lemma TripFrame(f: FaultStage)
    ensures var b := AfterTrip(f);
            && SameGuard(f.pass.p, b.p) && b.p.fan == f.pass.p.fan && b.c == f.pass.c && b.st == f.pass.st
            && (Trips(f) ==> !b.p.ssr) && (!Trips(f) ==> b == f.pass)
  {
    hide AfterDeferTrip;
  }

  lemma LatchFrame(f: FaultStage, sensorsOk: bool, overtemp: bool)
    ensures var l := ConsultLatch(f, sensorsOk, overtemp);
            && SameGuard(f.pass.p, l.pass.p) && l.pass.p.fan == f.pass.p.fan && l.pass.c == f.pass.c
            && (l.tripped ==> !l.pass.p.ssr)
  {
    hide Stopped, ReleaseOwned, AfterTrip, Trips, Arms, AfterDeferClear, AfterTakeClear;
    TripFrame(f);
    var b := AfterTrip(f);
    var taken := AfterTakeClear(b.p.latch);
    ReleaseFrame(b.p.(latch := taken));
    ReleaseFrame(b.p.(latch := AfterDeferClear(taken)));
  }

  lemma LatchJob(f: FaultStage, sensorsOk: bool, overtemp: bool)
    ensures var l := ConsultLatch(f, sensorsOk, overtemp);
            && l.pass.st == (if l.sawLatch then Stopped(f.pass.st) else f.pass.st)
            && (!l.sawLatch ==> l.pass.rt == f.pass.rt && l.heat == f.heat) && (l.sawLatch ==> !l.heat && l.fan)
  {
    hide Stopped, AfterRelease, SnapshotOf;
  }

  lemma PlanFacts(l: LatchStage, controller: bool, i: TickIn)
    ensures var o := PlanOutputs(l, controller, i);
            var a := l.pass;
            && o.p == a.p.(fan := AfterEdges(a.p.fan, i.statsEdges), lease := o.p.lease)
            && o.rt == a.rt.(zeroCross := o.rt.zeroCross, gateReady := o.rt.gateReady)
            && o.st == a.st.(latchEnabled := true, latchArmed := o.st.latchArmed)
            && o.rt.zeroCross == EdgeFresh(o.p.fan.lastEdgeUs, i.statsUs)
  {
    hide AfterEdges, Purge, OpenGate, ReleaseIdle, HeatAdmitted;
    var heatMode := controller && !l.pass.p.latch.latched;
    var a := Purge(l.pass, heatMode);
    var b := Interrupted(a, i.statsEdges);
    PurgeFrame(l.pass, heatMode);
    OpenGateFrame(b, i.statsUs);
    ReleaseIdleFrame(OpenGate(b, i.statsUs));
  }

  lemma PurgeFrame(a: Pass, heatMode: bool)
    ensures var b := Purge(a, heatMode); b.p == a.p && b.st == a.st && b.rt == a.rt
  {
  }

  lemma OpenGateFrame(a: Pass, statsUs: int)
    ensures var b := OpenGate(a, statsUs);
            && b.p == a.p && b.st == a.st.(latchEnabled := true, latchArmed := b.st.latchArmed)
            && b.rt == a.rt.(zeroCross := b.rt.zeroCross, gateReady := b.rt.gateReady)
            && b.rt.zeroCross == EdgeFresh(a.p.fan.lastEdgeUs, statsUs)
  {
    hide SensorsOk;
  }

  lemma ReleaseIdleFrame(a: Pass)
    ensures var b := ReleaseIdle(a); b.p == a.p.(lease := b.p.lease) && b.st == a.st && b.rt == a.rt
  {
    hide ReleaseOwned;
    ReleaseFrame(a.p);
  }

  lemma PlanHeats(l: LatchStage, controller: bool, i: TickIn)
    ensures var o := PlanOutputs(l, controller, i);
            var a := l.pass;
            o.heat == (l.heat && a.st.workOn && StartAllowed(a.p) && SensorsOk(a.rt) && o.rt.zeroCross
                       && a.c.wdtArmed && a.p.prepared)
            && (o.heat ==> o.rt.gateReady)
  {
    hide AfterEdges, NextPurge, ReleaseOwned;
  }

  lemma CommitFacts(o: OutputStage, i: TickIn, epoch: nat)
    ensures var (p, committed) := Commit(o, i, epoch);
            && (committed ==> p == o.p.(settings := LimitTargets(o.st), rt := o.rt, epoch := epoch))
            && (!committed ==> p == o.p.(latch := AfterInhibit(o.p.latch), epoch := p.epoch, ssr := false,
                                         rt := o.p.rt.(heaterOn := false)))
            && (o.p.epoch == epoch ==> (committed <==> !i.raced))
  {
    hide LimitTargets, AfterInhibit;
  }

  lemma DriveFacts(p: Plant, o: OutputStage, committed: bool, i: TickIn)
    ensures var q := Drive(p, o, committed, i);
            && q == p.(fan := q.fan, ssr := q.ssr, rt := p.rt.(heaterOn := q.ssr, fanOn := q.rt.fanOn))
            && (q.ssr ==> o.heat && committed && !o.st.userPaused && o.fan && Running(q.fan, i.setUs) && p.prepared
                          && !p.latch.latched && !p.latch.inhibited)
            && q.fan == AfterSet(AfterEdges(p.fan, i.setEdges), o.fan || !committed)
  {
    hide AfterEdges, Running;
  }

  /** Interrupts never touch the request, and can only make the gate follow it. */
  lemma {:induction false} EdgesKeepRequest(f: Fan, edges: seq<int>)
    ensures var g := AfterEdges(f, edges);
            && g.requested == f.requested && g.initialized == f.initialized
            && (g.applied == f.applied || g.applied == f.requested) && g.gaps >= f.gaps
    decreases |edges|
  {
    if edges != [] {
      EdgesKeepRequest(AfterEdge(f, edges[0]), edges[1..]);
    }
  }

  // ---------------------------------------------------------------- the whole pass

  function Jobbed(p: Plant, c: Ctl, i: TickIn): Pass { RunJobs(Sense(p, c, i), i) }

  /** What the job logic works on in this pass: the settings with the print context, and its environment. */
  function ContextOf(p: Plant, c: Ctl, i: TickIn): AutoContext
  {
    var a := Sense(p, c, i);
    AutoContext(a.st, a.c.autoSeen, a.c.lastAuto)
  }

  function EnvOf(p: Plant, c: Ctl, i: TickIn): TickEnv
  {
    var a := Sense(p, c, i);
    TickEnv(a.p.printer, a.rt, ScheduleAllowed(a.p, i.nowUs), i.profile, i.NowMs())
  }

  function Watched(p: Plant, c: Ctl, i: TickIn): Pass
  {
    WatchSensors(Jobbed(p, c, i), i, SampleAccepted(c.watch, i)).0
  }

  function Decided(p: Plant, c: Ctl, i: TickIn): Demand { DecideDemand(Watched(p, c, i), i) }

  function Judged(p: Plant, c: Ctl, i: TickIn): FaultStage { JudgeFaults(Decided(p, c, i), i) }

  function Consulted(p: Plant, c: Ctl, i: TickIn): LatchStage
  {
    ConsultLatch(Judged(p, c, i), Decided(p, c, i).sensorsOk, Decided(p, c, i).overtemp)
  }

  function Planned(p: Plant, c: Ctl, i: TickIn): OutputStage
  {
    PlanOutputs(Consulted(p, c, i), Decided(p, c, i).controller, i)
  }

  /** The pass is its stages, committed against the epoch it started from. */
  lemma TickUnfolds(p: Plant, c: Ctl, i: TickIn)
    ensures var o := Tick(p, c, i);
            var l := Consulted(p, c, i);
            var f := Judged(p, c, i);
            var plan := Planned(p, c, i);
            var (q, committed) := Commit(plan, i, p.epoch);
            && o.p == Drive(q, plan, committed, i) && o.c == l.pass.c.(heated := plan.heated, purge := plan.purge)
            && o.tripped == l.tripped && o.armed == l.armed && o.sawLatch == l.sawLatch && o.inhibits == !committed
            && o.session == f.session && o.present == f.present
            && o.cool == PurgeMayEnd(l.pass, HeatMode(l, Decided(p, c, i).controller))
            && o.strains == Straining(f.pass.rt, Decided(p, c, i).controller)
  {
    hide Sense, RunJobs, WatchSensors, DecideDemand, JudgeFaults, ConsultLatch, PlanOutputs, Commit, Drive;
  }

  /** From the start of the pass to the demand: shared state untouched, the latch as found, the SSR at most cut. */
  lemma EarlyFrame(p: Plant, c: Ctl, i: TickIn)
    ensures var a := Watched(p, c, i);
            && SameGuard(p, a.p) && a.p.latch == p.latch && a.p.fan == p.fan && a.st == Jobbed(p, c, i).st
            && a.c.wdtArmed == c.wdtArmed && a.c.zcSeen == c.zcSeen && a.c.zcGaps == c.zcGaps
  {
    hide Sense, RunJobs, WatchSensors;
    SenseParts(p, c, i);
    SenseFacts(p, c, i);
    RunJobsFacts(Sense(p, c, i), i);
    WatchFacts(Jobbed(p, c, i), i, SampleAccepted(c.watch, i));
  }

  lemma MiddleFrame(p: Plant, c: Ctl, i: TickIn)
    ensures var a := Watched(p, c, i);
            var f := Judged(p, c, i);
            && SameGuard(a.p, f.pass.p) && f.pass.p.latch == a.p.latch && f.pass.st == a.st
            && f.pass.p.fan == AfterEdges(AfterEdges(a.p.fan, i.admitEdges), i.zcEdges)
            && f.pass.c.wdtArmed == a.c.wdtArmed
            && SameReadings(a.rt, f.pass.rt)
            && f.pass.rt.chamberStatus == a.rt.chamberStatus && f.pass.rt.ptcStatus == a.rt.ptcStatus
  {
    hide DecideDemand, JudgeFaults, Watched, AfterEdges;
    DemandFrame(Watched(p, c, i), i);
    JudgeFacts(Decided(p, c, i), i);
  }

  lemma FrontFrame(p: Plant, c: Ctl, i: TickIn)
    ensures var f := Judged(p, c, i);
            && SameGuard(p, f.pass.p) && f.pass.p.latch == p.latch && f.pass.c.wdtArmed == c.wdtArmed
            && f.pass.st == Jobbed(p, c, i).st
            && f.pass.p.fan == AfterEdges(AfterEdges(p.fan, i.admitEdges), i.zcEdges)
  {
    hide Jobbed, Watched, Judged, AfterEdges;
    EarlyFrame(p, c, i);
    MiddleFrame(p, c, i);
  }

  lemma ConsultedFrame(p: Plant, c: Ctl, i: TickIn)
    ensures var l := Consulted(p, c, i);
            && SameGuard(p, l.pass.p) && l.pass.c.wdtArmed == c.wdtArmed && (l.tripped ==> !l.pass.p.ssr)
            && l.pass.p.fan == AfterEdges(AfterEdges(p.fan, i.admitEdges), i.zcEdges)
  {
    hide Judged, ConsultLatch, AfterEdges;
    FrontFrame(p, c, i);
    LatchFrame(Judged(p, c, i), Decided(p, c, i).sensorsOk, Decided(p, c, i).overtemp);
  }

  /** From the latch to the outputs. */
  lemma TailFrame(p: Plant, c: Ctl, i: TickIn)
    ensures var o := Tick(p, c, i);
            var q := Consulted(p, c, i).pass.p;
            && o.p.maintenance == q.maintenance && o.p.prepared == q.prepared && o.p.dirty == q.dirty
            && o.p.board == q.board && o.p.printer == q.printer && o.p.rt.heaterOn == o.p.ssr
            && o.p.latch == (if o.inhibits then AfterInhibit(q.latch) else q.latch)
            && (q.epoch == p.epoch ==> (o.inhibits <==> i.raced))
  {
    hide Tick, Consulted, PlanOutputs, Commit, Drive, AfterInhibit;
    TickUnfolds(p, c, i);
    PlanFacts(Consulted(p, c, i), Decided(p, c, i).controller, i);
    CommitFacts(Planned(p, c, i), i, p.epoch);
    var (q, committed) := Commit(Planned(p, c, i), i, p.epoch);
    DriveFacts(q, Planned(p, c, i), committed, i);
  }

  /** The shared state no pass writes, the watchdog flag, and the runtime mirror of the SSR pin. */
  lemma TickFrame(p: Plant, c: Ctl, i: TickIn)
    ensures var o := Tick(p, c, i);
            && o.p.maintenance == p.maintenance && o.p.prepared == p.prepared && o.p.dirty == p.dirty
            && o.p.board == p.board && o.p.printer == p.printer && o.p.rt.heaterOn == o.p.ssr
            && o.c.wdtArmed == c.wdtArmed
  {
    hide Tick, Consulted;
    TickUnfolds(p, c, i);
    ConsultedFrame(p, c, i);
    TailFrame(p, c, i);
  }

  /** How one pass moves the latch, before a lost commit may inhibit it. */
  predicate LatchMoves(l: Latch, q: Latch, tripped: bool, armed: bool)
  {
    && q.generation == l.generation + (if tripped then 1 else 0)
    && q.inhibited == l.inhibited && q.mutexOk == l.mutexOk
    && q.latched == (l.latched || tripped)
    && q.persistPending == (l.persistPending || tripped)
    && (!tripped ==> q.fault == l.fault && q.lastAttemptUs == l.lastAttemptUs)
    && !q.clearRequested && (armed ==> !tripped && l.latched && !l.inhibited && l.clearRequested && q.deferredClear)
    && (!armed && !tripped ==> q.deferredClear == l.deferredClear && q.clearGeneration == l.clearGeneration)
    && (q.deferredClear ==>
          !tripped && if armed then q.clearGeneration == q.generation
                      else l.deferredClear && q.clearGeneration == l.clearGeneration)
  }

  lemma ConsultedLatch(p: Plant, c: Ctl, i: TickIn)
    ensures var l := Consulted(p, c, i);
            LatchMoves(p.latch, l.pass.p.latch, l.tripped, l.armed) && l.sawLatch == l.pass.p.latch.latched
  {
    hide Judged, ConsultLatch;
    FrontFrame(p, c, i);
    LatchFacts(Judged(p, c, i), Decided(p, c, i).sensorsOk, Decided(p, c, i).overtemp);
  }

  /** A pass trips, arms a clear or loses the commit; it never clears the latch. */
  lemma TickMovesLatch(p: Plant, c: Ctl, i: TickIn)
    ensures var o := Tick(p, c, i);
            var l := Consulted(p, c, i).pass.p.latch;
            && LatchMoves(p.latch, l, o.tripped, o.armed) && o.sawLatch == l.latched
            && o.p.latch == (if o.inhibits then AfterInhibit(l) else l) && (o.inhibits <==> i.raced)
  {
    hide Tick, Consulted, LatchMoves, AfterInhibit;
    TickUnfolds(p, c, i);
    ConsultedFrame(p, c, i);
    ConsultedLatch(p, c, i);
    TailFrame(p, c, i);
  }

  /** The fan as the pass finds it when it reads the zero-cross statistics. */
  function FanAtRead(p: Plant, i: TickIn): Fan { AfterEdges(AfterEdges(p.fan, i.admitEdges), i.zcEdges) }

  lemma CommitKeepsFan(o: OutputStage, i: TickIn, epoch: nat)
    ensures Commit(o, i, epoch).0.fan == o.p.fan
  {
    hide LimitTargets, AfterInhibit;
  }

  lemma DriveSetsFan(p: Plant, o: OutputStage, committed: bool, i: TickIn)
    ensures Drive(p, o, committed, i).fan == AfterSet(AfterEdges(p.fan, i.setEdges), o.fan || !committed)
  {
    hide AfterEdges, AfterSet, MayEnergise, Running;
  }

  lemma PlanKeepsFan(l: LatchStage, controller: bool, i: TickIn)
    ensures PlanOutputs(l, controller, i).p.fan == AfterEdges(l.pass.p.fan, i.statsEdges)
  {
    hide AfterEdges, NextPurge, AfterRelease, SnapshotOf, Gate;
  }

  /** All the pass does to the fan: let interrupts through, and place one request at the end. */
  lemma FanTrace(p: Plant, c: Ctl, i: TickIn)
    ensures var o := Tick(p, c, i);
            o.p.fan == AfterSet(AfterEdges(AfterEdges(FanAtRead(p, i), i.statsEdges), i.setEdges),
                                Planned(p, c, i).fan || o.inhibits)
  {
    hide Tick, Consulted, PlanOutputs, Commit, Drive, AfterEdges, AfterSet;
    TickUnfolds(p, c, i);
    ConsultedFrame(p, c, i);
    var plan := Planned(p, c, i);
    PlanKeepsFan(Consulted(p, c, i), Decided(p, c, i).controller, i);
    CommitKeepsFan(plan, i, p.epoch);
    DriveSetsFan(Commit(plan, i, p.epoch).0, plan, Commit(plan, i, p.epoch).1, i);
  }

  // ---------------------------------------------------------------- what an energised pass has checked

  /** Reaching the outputs with the SSR on means the plan asked for heat and won the commit. */
  lemma EnergisedPlan(p: Plant, c: Ctl, i: TickIn)
    requires Tick(p, c, i).p.ssr
    ensures var o := Tick(p, c, i);
            var plan := Planned(p, c, i);
            && plan.heat && !plan.st.userPaused && !o.inhibits && Running(o.p.fan, i.setUs)
            && o.p.settings == LimitTargets(plan.st) && o.p.rt.gateReady == plan.rt.gateReady
            && o.p.rt.fault == plan.rt.fault && o.p.rt.targetC == plan.rt.targetC && o.p.rt.rise == plan.rt.rise
            && !o.p.latch.latched && !o.p.latch.inhibited
  {
    hide Tick, Consulted, Planned, Commit, Drive, Running, LimitTargets, AfterInhibit;
    TickUnfolds(p, c, i);
    CommitFacts(Planned(p, c, i), i, p.epoch);
    var (q, committed) := Commit(Planned(p, c, i), i, p.epoch);
    DriveFacts(q, Planned(p, c, i), committed, i);
  }

  lemma PlannedHeat(p: Plant, c: Ctl, i: TickIn)
    requires Planned(p, c, i).heat
    ensures var plan := Planned(p, c, i);
            var l := Consulted(p, c, i);
            && l.heat && plan.rt.gateReady && plan.rt.fault == l.pass.rt.fault && plan.rt.targetC == l.pass.rt.targetC
            && plan.rt.rise == l.pass.rt.rise && plan.st.workOn && plan.st.userPaused == l.pass.st.userPaused
            && StartAllowed(l.pass.p) && l.pass.c.wdtArmed && l.pass.p.prepared && SensorsOk(l.pass.rt)
  {
    hide Consulted, PlanOutputs, SensorsOk;
    PlanFacts(Consulted(p, c, i), Decided(p, c, i).controller, i);
    PlanHeats(Consulted(p, c, i), Decided(p, c, i).controller, i);
  }

  lemma ConsultedHeat(p: Plant, c: Ctl, i: TickIn)
    requires Consulted(p, c, i).heat
    ensures var l := Consulted(p, c, i);
            var d := Decided(p, c, i);
            && d.heat && l.pass.rt == Judged(p, c, i).pass.rt && l.pass.rt.fault == HF.OK
            && l.pass.rt.targetC == Watched(p, c, i).rt.targetC
  {
    hide Judged, Decided, ConsultLatch, Watched, Stopped;
    LatchJob(Judged(p, c, i), Decided(p, c, i).sensorsOk, Decided(p, c, i).overtemp);
    MiddleFrame(p, c, i);
    JudgedHeat(p, c, i);
  }

  lemma JudgedHeat(p: Plant, c: Ctl, i: TickIn)
    requires Judged(p, c, i).heat
    ensures Decided(p, c, i).heat && Judged(p, c, i).pass.rt.fault == HF.OK
  {
    hide Decided, JudgeFaults;
    JudgeFacts(Decided(p, c, i), i);
  }

  /** The demand was decided on an accepted, readable sample below both hard limits and below the target. */
  lemma WatchedSample(p: Plant, c: Ctl, i: TickIn)
    requires Decided(p, c, i).heat
    ensures var s := SampleOf(i);
            var a := Watched(p, c, i);
            && SampleAccepted(c.watch, i) && Readable(s) && a.rt.chamberInstant == s.chamberInstant
            && a.rt.ptcInstant == s.ptcInstant
            && UsableSensors(a.rt, s) && !Overtemp(s, a.p.board)
            && a.rt.chamberInstant.Below(a.rt.targetC as real) && 0 < a.rt.targetC <= VALIDATION_MAX_TARGET_C
  {
    hide Sense, RunJobs, WatchSensors, DecideDemand, SampleAccepted, Readable, Overtemp, Running, AfterEdges;
    var a := Jobbed(p, c, i);
    SenseParts(p, c, i);
    RunJobsFacts(Sense(p, c, i), i);
    WatchFacts(a, i, SampleAccepted(c.watch, i));
    DemandHeats(Watched(p, c, i), i);
    DemandParts(Watched(p, c, i), i);
  }

  lemma FoldbackOff(p: Plant, c: Ctl, i: TickIn)
    requires Decided(p, c, i).heat
    ensures !Tick(p, c, i).c.foldback
  {
    hide Tick, Watched, DecideDemand, JudgeFaults, ConsultLatch, PlanOutputs, Commit, Drive, Running, Overtemp,
         JobHeats;
    TickUnfolds(p, c, i);
    LatchFrame(Judged(p, c, i), Decided(p, c, i).sensorsOk, Decided(p, c, i).overtemp);
    JudgeFacts(Decided(p, c, i), i);
    DemandHeats(Watched(p, c, i), i);
  }

  /**
   * A pass that leaves the SSR on accepted a fresh readable sample of both sensors, below both hard limits whatever
   * the calibration offset, and below an effective target of 1..55 C, with no foldback; work is on and not paused;
   * the journal is ready, nothing is latched, inhibited or reserved, the watchdog is armed, no fault is reported, the
   * setup gate is open and the fan gate is applied with zero cross at most 100 ms old.
   */
  lemma EnergisedPassIsAdmitted(p: Plant, c: Ctl, i: TickIn)
    requires Tick(p, c, i).p.ssr
    ensures i.sample.Some? && SampleAccepted(c.watch, i) && Readable(i.sample.value)
    ensures SafetyTemperature(i.sample.value.chamberInstant, p.board.chamberOffset).Below(CHAMBER_HARD_CUTOFF_C)
    ensures SafetyTemperature(i.sample.value.ptcInstant, p.board.ptcOffset).Below(PTC_HARD_CUTOFF_C)
    ensures var o := Tick(p, c, i);
            && i.sample.value.chamberInstant.Below(o.p.rt.targetC as real) && 1 <= o.p.rt.targetC <= 55
            && !o.c.foldback
            && o.p.settings.workOn && !o.p.settings.userPaused
            && p.prepared && !p.maintenance && c.wdtArmed && !o.p.latch.latched && !o.p.latch.inhibited
            && o.p.rt.fault == HF.OK && o.p.rt.gateReady && Running(o.p.fan, i.setUs) && o.p.rt.heaterOn
  {
    hide Tick, Watched, Decided, Judged, Consulted, Planned, Readable, Running, SensorsOk, IsFresh, Overtemp,
         SafetyTemperature;
    TickFrame(p, c, i);
    ConsultedFrame(p, c, i);
    EnergisedPlan(p, c, i);
    PlannedHeat(p, c, i);
    ConsultedHeat(p, c, i);
    WatchedSample(p, c, i);
    FoldbackOff(p, c, i);
    EarlyFrame(p, c, i);
    AdmittedBelow(SampleOf(i), Watched(p, c, i).rt, p.board);
  }

  lemma ConsultIsLatch(p: Plant, c: Ctl, i: TickIn)
    ensures Consulted(p, c, i) == ConsultLatch(Judged(p, c, i), Decided(p, c, i).sensorsOk, Decided(p, c, i).overtemp)
    ensures Consulted(p, c, i).heat ==> !Consulted(p, c, i).sawLatch
  {
    hide Judged, ConsultLatch, Decided, Stopped;
    LatchJob(Judged(p, c, i), Decided(p, c, i).sensorsOk, Decided(p, c, i).overtemp);
  }

  lemma AdmittedBelow(s: Sample, rt: Runtime, b: Board)
    requires UsableSensors(rt, s) && !Overtemp(s, b) && Readable(s)
    ensures SafetyTemperature(s.chamberInstant, b.chamberOffset).Below(CHAMBER_HARD_CUTOFF_C)
    ensures SafetyTemperature(s.ptcInstant, b.ptcOffset).Below(PTC_HARD_CUTOFF_C)
  {
    hide SensorsOk;
  }

  // ---------------------------------------------------------------- a stopped device stays stopped

  /** Nothing is on and nothing can turn itself on: every self-starting path begins from one of these flags. */
  predicate Quiet(s: Settings) { !s.workOn && !s.schedule.enabled && !s.dryout.running }

  lemma UnpausedStaysQuiet(c: AutoContext, e: TickEnv)
    requires Quiet(c.s)
    ensures Quiet(AfterUnpaused(c, e).0.s)
  {
    hide AfterSchedule, AfterPausePolicy, AfterPreheat, AfterDryout, AfterHealth, AfterAutoContext, AfterTempering;
    var s0 := AfterProfile(c.s, e.profile);
    var s1 := AfterSchedule(s0, e.scheduleAllowed, e.nowMs);
    assert Quiet(s1) by { ScheduleStaysQuiet(s0, e.scheduleAllowed, e.nowMs); }
    var s2 := AfterPausePolicy(s1, e.printer, c.seen, e.nowMs);
    assert Quiet(s2) by { PauseStaysQuiet(s1, e.printer, c.seen, e.nowMs); }
    var s3 := AfterPreheat(s2, e.rt.chamber, e.nowMs).0;
    assert Quiet(s3) by { PreheatStaysQuiet(s2, e.rt.chamber, e.nowMs); }
    var s4 := AfterDryout(s3, e.nowMs).0;
    assert Quiet(s4) by { DryoutStaysQuiet(s3, e.nowMs); }
    var s5 := AfterHealth(s4, e.rt, e.nowMs).0;
    assert Quiet(s5) by { HealthStaysQuiet(s4, e.rt, e.nowMs); }
    var a := AfterAutoContext(c.(s := s5), e.printer, e.nowMs);
    assert Quiet(a.s) by { AutoStaysQuiet(c.(s := s5), e.printer, e.nowMs); }
    TemperingStaysQuiet(a.s, a.seen, e.nowMs);
  }

  lemma ScheduleStaysQuiet(s: Settings, allowed: bool, nowMs: int)
    requires Quiet(s)
    ensures Quiet(AfterSchedule(s, allowed, nowMs))
  {
  }

  lemma PauseStaysQuiet(s: Settings, p: Printer, seen: bool, nowMs: int)
    requires Quiet(s)
    ensures Quiet(AfterPausePolicy(s, p, seen, nowMs))
  {
  }

  lemma PreheatStaysQuiet(s: Settings, chamber: Temp, nowMs: int)
    requires Quiet(s)
    ensures Quiet(AfterPreheat(s, chamber, nowMs).0)
  {
  }

  lemma DryoutStaysQuiet(s: Settings, nowMs: int)
    requires Quiet(s)
    ensures Quiet(AfterDryout(s, nowMs).0)
  {
  }

  lemma HealthStaysQuiet(s: Settings, rt: Runtime, nowMs: int)
    requires Quiet(s)
    ensures Quiet(AfterHealth(s, rt, nowMs).0)
  {
    hide Rose;
  }

  lemma AutoStaysQuiet(c: AutoContext, p: Printer, nowMs: int)
    requires Quiet(c.s)
    ensures Quiet(AfterAutoContext(c, p, nowMs).s)
  {
    hide PrintJustEnded, AfterPrintEnd;
  }

  lemma TemperingStaysQuiet(s: Settings, seen: bool, nowMs: int)
    requires Quiet(s)
    ensures Quiet(AfterTempering(s, seen, nowMs).0)
  {
    hide RampLine;
  }

  lemma ConcludeStaysQuiet(a: AutoContext, preheated: bool, driedOut: bool, tested: bool, nowMs: int)
    requires Quiet(a.s)
    ensures Quiet(Conclude(a, preheated, driedOut, tested, nowMs).ctx.s)
  {
    hide SessionLimitMs;
  }

  /** The job logic never turns work on by itself. */
  lemma JobsStayQuiet(c: AutoContext, e: TickEnv)
    requires Quiet(c.s)
    ensures Quiet(AfterJobs(c, e).ctx.s)
  {
    hide AfterUnpaused, Conclude;
    if c.s.userPaused {
      ConcludeStaysQuiet(c, false, false, false, e.nowMs);
    } else {
      var (a, preheated, driedOut, tested) := AfterUnpaused(c, e);
      UnpausedStaysQuiet(c, e);
      ConcludeStaysQuiet(a, preheated, driedOut, tested, e.nowMs);
    }
  }

  lemma StoppedIsQuiet(s: Settings)
    ensures Quiet(Stopped(s)) && !AnyWork(Stopped(s))
  {
  }

  lemma LimitKeepsQuiet(s: Settings)
    ensures Quiet(LimitTargets(s)) == Quiet(s) && AnyWork(LimitTargets(s)) == AnyWork(s)
  {
  }

  lemma JobbedQuiet(p: Plant, c: Ctl, i: TickIn)
    requires Quiet(p.settings)
    ensures Quiet(Jobbed(p, c, i).st)
  {
    hide Sense, AfterJobs, ScheduleAllowed;
    SenseFacts(p, c, i);
    JobsStayQuiet(ContextOf(p, c, i), EnvOf(p, c, i));
  }

  /** The settings a pass commits that saw no latch: those of the job logic, limited, with the gate's two flags. */
  lemma GoingOnCommits(p: Plant, c: Ctl, i: TickIn) returns (armed: bool)
    requires !Tick(p, c, i).inhibits && !Tick(p, c, i).sawLatch
    ensures var s := AfterJobs(ContextOf(p, c, i), EnvOf(p, c, i)).ctx.s;
            Tick(p, c, i).p.settings == LimitTargets(s.(latchEnabled := true, latchArmed := armed))
  {
    hide Tick, Judged, Consulted, Commit, Drive, LimitTargets, Sense, AfterJobs, ScheduleAllowed, PlanOutputs;
    TickUnfolds(p, c, i);
    FrontFrame(p, c, i);
    ConsultedJob(p, c, i);
    PlanFacts(Consulted(p, c, i), Decided(p, c, i).controller, i);
    CommitFacts(Planned(p, c, i), i, p.epoch);
    var (q, committed) := Commit(Planned(p, c, i), i, p.epoch);
    DriveFacts(q, Planned(p, c, i), committed, i);
    armed := Planned(p, c, i).st.latchArmed;
  }

  /** The settings the pass commits: the stopped ones when it saw the latch, else those of the job logic. */
  lemma CommittedSettings(p: Plant, c: Ctl, i: TickIn)
    requires !Tick(p, c, i).inhibits
    ensures var o := Tick(p, c, i);
            var st := Jobbed(p, c, i).st;
            var held := if o.sawLatch then Stopped(st) else st;
            && Quiet(o.p.settings) == Quiet(held) && o.p.settings.workOn == held.workOn
            && o.p.settings.sessionStartedMs == held.sessionStartedMs
            && o.p.settings.sessionMaxMin == held.sessionMaxMin
  {
    hide Tick, Jobbed, Judged, Consulted, Commit, Drive, Stopped, LimitTargets;
    TickUnfolds(p, c, i);
    FrontFrame(p, c, i);
    ConsultedJob(p, c, i);
    PlanFacts(Consulted(p, c, i), Decided(p, c, i).controller, i);
    CommitFacts(Planned(p, c, i), i, p.epoch);
    var (q, committed) := Commit(Planned(p, c, i), i, p.epoch);
    DriveFacts(q, Planned(p, c, i), committed, i);
    LimitKeepsQuiet(Planned(p, c, i).st);
    LimitKeepsWork(Planned(p, c, i).st);
  }

  lemma LimitKeepsWork(s: Settings)
    ensures LimitTargets(s).workOn == s.workOn && LimitTargets(s).sessionStartedMs == s.sessionStartedMs
    ensures LimitTargets(s).sessionMaxMin == s.sessionMaxMin
  {
  }

  lemma ConsultedJob(p: Plant, c: Ctl, i: TickIn)
    ensures var l := Consulted(p, c, i);
            && l.pass.st == (if l.sawLatch then Stopped(Judged(p, c, i).pass.st) else Judged(p, c, i).pass.st)
            && (l.sawLatch ==> !l.heat)
  {
    hide Judged, ConsultLatch, Stopped;
    LatchJob(Judged(p, c, i), Decided(p, c, i).sensorsOk, Decided(p, c, i).overtemp);
  }

  /** A pass that saw the latch ends with the SSR off and nothing left to restart it. */
  lemma SawLatchStops(p: Plant, c: Ctl, i: TickIn)
    requires Tick(p, c, i).sawLatch
    ensures var o := Tick(p, c, i); !o.p.ssr && (Quiet(o.p.settings) || o.p.latch.inhibited)
  {
    hide Tick, Jobbed, Consulted, Planned, Stopped;
    var o := Tick(p, c, i);
    TickUnfolds(p, c, i);
    TickMovesLatch(p, c, i);
    StoppedIsQuiet(Jobbed(p, c, i).st);
    if !o.inhibits {
      CommittedSettings(p, c, i);
    }
    if o.p.ssr {
      EnergisedPlan(p, c, i);
    }
  }

  /** A quiet or inhibited device stays so through any pass, and the pass leaves the SSR off. */
  lemma QuietPass(p: Plant, c: Ctl, i: TickIn)
    requires Quiet(p.settings) || p.latch.inhibited
    ensures var o := Tick(p, c, i); !o.p.ssr && (Quiet(o.p.settings) || o.p.latch.inhibited)
  {
    hide Tick, Jobbed, Consulted, Planned, Stopped;
    var o := Tick(p, c, i);
    TickUnfolds(p, c, i);
    TickMovesLatch(p, c, i);
    StoppedIsQuiet(Jobbed(p, c, i).st);
    if o.p.ssr {
      EnergisedPassIsAdmitted(p, c, i);
    }
    if !o.inhibits {
      CommittedSettings(p, c, i);
      if Quiet(p.settings) {
        JobbedQuiet(p, c, i);
      }
    }
  }
}
