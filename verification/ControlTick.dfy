/**
 * One pass of control_task in main/safety.c:1089-1432. The pass runs under the policy guard, so it is one step of
 * the system; the zero-cross interrupt is not excluded by the guard and may fire before each read of the fan state.
 */
module ControlTick {
  import opened Common
  import opened PlantState
  import opened SafetyLatch
  import opened FanTriac
  import opened ControlLease
  import opened SensorWatch
  import opened Jobs
  import opened ControlPlane
  import HF = HeaterFaults

  const HYSTERESIS_C := 1.0
  const FOLDBACK_BAND_C := 3.0
  const RISE_DELAY_MS := 15_000
  const RISE_WINDOW_MS := 60_000
  const MIN_PTC_RISE_C := 5.0
  const MIN_CHAMBER_RISE_C := 1.0
  const NO_EPOCH := -1

  /** Loop locals and statics of the control task. */
  datatype Ctl = Ctl(
    wdtArmed: bool,
    heated: bool,
    purge: bool,
    zcSeen: bool,
    zcGaps: nat,
    watch: Watch,
    contextEpoch: int,
    autoSeen: bool,
    lastAuto: PrinterState,
    foldback: bool,
    demand: bool)

  /**
   * Everything one pass reads from outside: clock readings (microseconds), the ADC acquisition (None: driver error),
   * an applied material profile, the interrupt edges before each fan read, and whether a command slipped in before
   * the commit.
   */
  datatype TickIn = TickIn(
    nowUs: int,
    attemptUs: int,
    acquiredUs: int,
    sample: Option<Sample>,
    profile: Option<Profile>,
    admitEdges: seq<int>,
    admitUs: int,
    zcEdges: seq<int>,
    zcUs: int,
    statsEdges: seq<int>,
    statsUs: int,
    setEdges: seq<int>,
    setUs: int,
    raced: bool)
  {
    function NowMs(): int { nowUs / 1000 }
  }

  /** The zeroed sample a failing driver leaves behind. */
  const ZERO_SAMPLE := Sample(0, 0, 0, Deg(0.0), Deg(0.0), Deg(0.0), Deg(0.0), 0, 0, SensorOk, SensorOk)

  // ---------------------------------------------------------------- lease hand-over and acquisition

  /** Working copies inside the pass: shared state, task state, local settings and runtime. */
  datatype Pass = Pass(p: Plant, c: Ctl, st: Settings, rt: Runtime)

  function HandOverLease(p: Plant, st: Settings, nowUs: int): (Plant, Settings)
  {
    if !(SnapshotOf(p.lease).active && Expired(p.lease, nowUs)) then (p, st)
    else if st.workOn || st.schedule.enabled then
      if ClaimVerdict(p.lease, LocalJob, true, p.lease.revision).Granted?
      then (p.(lease := AfterClaim(p.lease, LocalJob, true, p.lease.revision, 0, nowUs)), st)
      else (Inhibited(p), Stopped(st))
    else (p.(lease := AfterRelease(p.lease)), st)
  }

  predicate SampleAccepted(w: Watch, i: TickIn)
  {
    i.sample.Some? && IsFresh(w, i.sample.value, i.attemptUs, i.acquiredUs)
  }

  function ReadSensors(rt: Runtime, i: TickIn, accepted: bool): Runtime
  {
    var status := (s: SensorStatus) => if accepted then s else SensorInvalid;
    match i.sample
    case None =>
      rt.(chamberInstant := Bad, ptcInstant := Bad, chamberStatus := SensorInvalid, ptcStatus := SensorInvalid)
    case Some(s) =>
      rt.(chamber := s.chamber, ptc := s.ptc, chamberInstant := s.chamberInstant, ptcInstant := s.ptcInstant,
          chamberStatus := status(s.chamberStatus), ptcStatus := status(s.ptcStatus),
          lastSensorMs := if accepted then s.completedUs / 1000 else rt.lastSensorMs)
  }

  /** Working copies; the AUTO context of an older command is dropped (main/safety.c:1091-1104). */
  function Copied(p: Plant, c: Ctl): Pass
  {
    Pass(p, if c.contextEpoch != p.epoch then c.(autoSeen := false, lastAuto := Idle, contextEpoch := p.epoch) else c,
         p.settings, p.rt)
  }

  function HandOver(a: Pass, nowUs: int): Pass
  {
    var (q, st) := HandOverLease(a.p, a.st, nowUs);
    a.(p := q, st := st)
  }

  /** The acquisition; without a fresh sample the SSR is cut at once (main/safety.c:1121-1144). */
  function Acquire(a: Pass, i: TickIn): Pass
  {
    if SampleAccepted(a.c.watch, i)
    then a.(c := a.c.(watch := a.c.watch.(sequence := i.sample.value.sequence)), rt := ReadSensors(a.rt, i, true))
    else a.(p := AfterCut(a.p), rt := ReadSensors(a.rt, i, false))
  }

  function Sense(p: Plant, c: Ctl, i: TickIn): Pass { Acquire(HandOver(Copied(p, c), i.nowUs), i) }

  // ---------------------------------------------------------------- jobs and freeze watch

  function JobsAfter(a: Pass, i: TickIn): JobTick
  {
    AfterJobs(AutoContext(a.st, a.c.autoSeen, a.c.lastAuto),
              TickEnv(a.p.printer, a.rt, ScheduleAllowed(a.p, i.nowUs), i.profile, i.NowMs()))
  }

  function WithJobs(a: Pass, ctx: AutoContext): Pass
  {
    a.(st := ctx.s, c := a.c.(autoSeen := ctx.seen, lastAuto := ctx.last))
  }

  /** main/safety.c:1146-1178. */
  function RunJobs(a: Pass, i: TickIn): Pass
  {
    var after := JobsAfter(a, i);
    WithJobs(a, after.ctx).(rt := a.rt.(fault := after.fault, targetC := EffectiveTarget(after.ctx.s)))
  }

  predicate JobHeats(st: Settings, targetC: int) { st.workOn && !st.userPaused && targetC > 0 }

  function SampleOf(i: TickIn): Sample { if i.sample.Some? then i.sample.value else ZERO_SAMPLE }

  /** A job that is off resets a pending warning. */
  function RestWatch(a: Pass): Pass { if a.st.workOn then a else a.(c := a.c.(watch := AfterOff(a.c.watch))) }

  function StepWatch(a: Pass, i: TickIn, accepted: bool): (Pass, Health)
  {
    var (w, health) :=
      AfterStep(a.c.watch, SampleOf(i), accepted, JobHeats(a.st, a.rt.targetC), a.rt.heaterOn, i.acquiredUs);
    (a.(c := a.c.(watch := w)), health)
  }

  /** A stale, invalid or frozen sample cuts the SSR and counts as a sensor fault. */
  function Distrust(a: Pass, health: Health): Pass
  {
    if health.Healthy? || health.Warning? then a
    else a.(p := AfterCut(a.p), rt := a.rt.(chamberStatus := SensorInvalid, ptcStatus := SensorInvalid))
  }

  /** main/safety.c:1179-1208. */
  function WatchSensors(a: Pass, i: TickIn, accepted: bool): (Pass, Health)
  {
    var (b, health) := StepWatch(RestWatch(a), i, accepted);
    (Distrust(b, health), health)
  }

  /**
   * What the freeze watch is given in a pass, and what it reports; `idle`: no work, so a pending warning is dropped.
   */
  datatype Watching = Watching(step: StepIn, idle: bool, health: Health)

  function WatchingOf(a: Pass, i: TickIn, accepted: bool): Watching
  {
    Watching(StepIn(SampleOf(i), accepted, JobHeats(a.st, a.rt.targetC), a.rt.heaterOn, i.acquiredUs), !a.st.workOn,
             WatchSensors(a, i, accepted).1)
  }

  function Seen(p: Plant, c: Ctl, i: TickIn): Watching
  {
    WatchingOf(RunJobs(Sense(p, c, i), i), i, SampleAccepted(c.watch, i))
  }

  // ---------------------------------------------------------------- limits and demand

  predicate SensorsOk(rt: Runtime)
  {
    rt.chamberStatus.SensorOk? && rt.ptcStatus.SensorOk? && rt.chamberInstant.Deg? && rt.ptcInstant.Deg?
  }

  predicate ChamberOvertemp(s: Sample, b: Board)
  {
    s.chamberStatus.SensorOk? && SafetyTemperature(s.chamberInstant, b.chamberOffset).AtLeast(CHAMBER_HARD_CUTOFF_C)
  }

  predicate PtcOvertemp(s: Sample, b: Board)
  {
    s.ptcStatus.SensorOk? && SafetyTemperature(s.ptcInstant, b.ptcOffset).AtLeast(PTC_HARD_CUTOFF_C)
  }

  function NextFoldback(active: bool, s: Sample, b: Board, cutoffC: int): bool
  {
    var t := SafetyTemperature(s.ptcInstant, b.ptcOffset);
    var cut := FoldbackLimit(b.rrefKohm, cutoffC);
    if !s.ptcStatus.SensorOk? || s.ptcInstant.Bad? then active
    else if t.AtLeast(cut) then true
    else if t.Below(cut - FOLDBACK_BAND_C) then false
    else active
  }

  /** Hysteresis of the printer-ventilation curve (main/symbiont_rules.h:6-14). */
  function NextCooling(cooling: bool, t: Temp, targetC: int): bool
  {
    if t.Bad? || targetC <= 0 then false
    else if t.c - targetC as real <= 2.0 then false
    else if t.c - targetC as real > 5.0 then true
    else cooling
  }

  /** shu1_heater_control_step: controller usable, and its hysteresis demand. */
  function NextDemand(demand: bool, targetC: int, t: Temp): (bool, bool)
  {
    if t.Bad? || targetC <= 0 then (false, false)
    else (true, if t.c >= targetC as real then false
                else if t.c < targetC as real - HYSTERESIS_C then true else demand)
  }

  /** Why the controller may not drive the SSR this pass (main/safety.c:1263-1268). */
  predicate DemandInhibited(a: Pass, i: TickIn)
  {
    a.c.foldback || a.rt.cooling || !a.p.prepared || (a.st.latchEnabled && !a.rt.gateReady) ||
    a.p.latch.latched || a.p.latch.inhibited || a.p.maintenance || !a.c.wdtArmed || !Running(a.p.fan, i.admitUs)
  }

  datatype Demand = Demand(pass: Pass, heat: bool, fan: bool, controller: bool, sensorsOk: bool, overtemp: bool)

  /** The controller's turn for an admitted heating job. */
  function DriveJob(a: Pass, i: TickIn): (Pass, bool, bool, bool)
  {
    if a.st.mode.Auto? && !AutoAllowed(a.st, a.p.printer, a.c.autoSeen, i.NowMs()) then
      (a.(rt := a.rt.(fault := HF.PRINTER_NOT_READY)), false, false, false)
    else
      var (usable, demand) := NextDemand(a.c.demand, a.rt.targetC, a.rt.chamberInstant);
      var heat := usable && demand && !DemandInhibited(a, i);
      (a.(c := a.c.(demand := demand), rt := a.rt.(duty := heat)), heat, true, usable)
  }

  predicate UsableSensors(rt: Runtime, s: Sample) { SensorsOk(rt) && s.chamberInstant.Deg? && s.ptcInstant.Deg? }

  predicate Overtemp(s: Sample, b: Board) { ChamberOvertemp(s, b) || PtcOvertemp(s, b) }

  predicate SymbiontActive(a: Pass, s: Sample)
  {
    a.st.symbiont && JobHeats(a.st, a.rt.targetC) && UsableSensors(a.rt, s) && !Overtemp(s, a.p.board) &&
    !a.p.latch.latched && !a.p.maintenance
  }

  /** The zero-cross interrupt firing at some point of the pass. */
  function Interrupted(a: Pass, edges: seq<int>): Pass { a.(p := a.p.(fan := AfterEdges(a.p.fan, edges))) }

  function Fold(a: Pass, s: Sample): Pass
  {
    a.(c := a.c.(foldback := NextFoldback(a.c.foldback, s, a.p.board, a.st.ptcCutoffC)))
  }

  function Ventilate(a: Pass, s: Sample): Pass
  {
    a.(rt := a.rt.(duty := false, cooling := SymbiontActive(a, s) &&
                                             NextCooling(a.rt.cooling, a.rt.chamberInstant, a.rt.targetC)))
  }

  /** Fold-back and printer ventilation are refreshed before the demand is decided. */
  function Refresh(a: Pass, i: TickIn): Pass
  {
    Ventilate(Fold(Interrupted(a, i.admitEdges), SampleOf(i)), SampleOf(i))
  }

  /** The branch the pass takes: overtemperature, sensor fault, heating job, or nothing to do. */
  function Steer(b: Pass, i: TickIn, sensorsOk: bool, hot: bool): (Pass, bool, bool, bool)
  {
    if hot then (b.(rt := b.rt.(fault := HF.OVERTEMP)), false, false, false)
    else if !sensorsOk then (b.(rt := b.rt.(fault := HF.SENSOR_FAULT)), false, false, false)
    else if JobHeats(b.st, b.rt.targetC) then DriveJob(b, i)
    else (b, false, false, false)
  }

  /** Controller reset, airflow of the self-contained modes, and the last SSR cuts (main/safety.c:1280-1293). */
  function Trim(d: Pass, heat: bool, fan: bool, controller: bool): (Pass, bool, bool)
  {
    var e := if controller then d else d.(c := d.c.(demand := false));
    var testing := e.st.mode.HealthTest? && e.st.health.running;
    var preFan := testing && e.st.health.phase.HealthPreFan?;
    (e, heat && !preFan && !e.c.foldback, fan || testing || (e.st.mode.DryOut? && e.st.dryout.running))
  }

  /** main/safety.c:1209-1293. */
  function DecideDemand(a: Pass, i: TickIn): Demand
  {
    var sensorsOk := UsableSensors(a.rt, SampleOf(i));
    var hot := Overtemp(SampleOf(i), a.p.board);
    var (d, heat, fan, controller) := Steer(Refresh(a, i), i, sensorsOk, hot);
    var (e, heat1, fan1) := Trim(d, heat, fan, controller);
    Demand(e, heat1, fan1, controller, sensorsOk, hot)
  }

  // ---------------------------------------------------------------- zero cross, rise detector, latch

  /** main/safety.c:1295-1304. */
  predicate ActiveOrArmed(a: Pass)
  {
    a.st.workOn || a.st.latchArmed || a.st.preheat.running || a.st.drying.running || a.st.dryout.running ||
    a.st.health.running || a.st.keepWarm.active || a.st.pickup || a.rt.heaterOn
  }

  predicate ZcSession(st: Settings, targetC: int) { st.latchArmed || (st.workOn && targetC > 0) }

  function NextRise(r: Rise, rt: Runtime, nowMs: int): (Rise, bool)
  {
    var restart := Rise(true, nowMs, nowMs + RISE_WINDOW_MS, rt.ptc, rt.chamber);
    if !r.active then (restart, false)
    else if nowMs - r.startedMs < RISE_DELAY_MS || nowMs < r.checkDueMs then (r, false)
    else if rt.ptc.Deg? && r.startPtc.Deg? && rt.ptc.c - r.startPtc.c < MIN_PTC_RISE_C &&
            rt.chamber.Deg? && r.startChamber.Deg? && rt.chamber.c - r.startChamber.c < MIN_CHAMBER_RISE_C
    then (r.(active := false), true)
    else (restart, false)
  }

  /** What the pass decided about zero cross and faults, before the latch is consulted. */
  datatype FaultStage = FaultStage(pass: Pass, heat: bool, fan: bool, session: bool, present: bool, lost: bool,
                                   hazard: bool)

  datatype ZeroCross = ZeroCross(pass: Pass, session: bool, present: bool, lost: bool)

  /** Zero cross is remembered across SSR off-windows of a session, not across sessions (main/safety.c:1306-1318). */
  function ReadZeroCross(a: Pass, i: TickIn): ZeroCross
  {
    var fan := AfterEdges(a.p.fan, i.zcEdges);
    var stats := StatsAt(fan, i.zcUs);
    var session := ZcSession(a.st, a.rt.targetC);
    var seen := session && a.c.zcSeen;
    ZeroCross(a.(p := a.p.(fan := fan), c := a.c.(zcGaps := stats.gaps, zcSeen := session && (seen || stats.present))),
              session, stats.present, session && seen && (!stats.present || stats.gaps != a.c.zcGaps))
  }

  /** A lost zero cross is reported unless a graver fault already is (main/safety.c:1319-1322). */
  function LossFault(fault: int, lost: bool): int
  {
    if lost && fault != HF.OVERTEMP && fault != HF.SENSOR_FAULT && fault != HF.NO_RISE then HF.ZERO_CROSS_LOST
    else fault
  }

  function FaultAirflow(fan: bool, fault: int, armed: bool): bool
  {
    fan || fault == HF.OVERTEMP || (fault == HF.SENSOR_FAULT && armed)
  }

  /** The controller really drives a cold chamber. */
  predicate Straining(rt: Runtime, controller: bool)
  {
    controller && rt.duty && rt.chamberInstant.Below(rt.targetC as real - 2.0)
  }

  /** The warm-up watchdog runs only then, and while no fault is reported. */
  predicate Warming(rt: Runtime, controller: bool) { Straining(rt, controller) && rt.fault == HF.OK }

  function DetectRise(rt: Runtime, controller: bool, nowMs: int): Runtime
  {
    var (rise, noRise) := if Warming(rt, controller) then NextRise(rt.rise, rt, nowMs)
                          else (rt.rise.(active := false), false);
    rt.(fault := if noRise then HF.NO_RISE else rt.fault, rise := rise)
  }

  predicate Hazardous(fault: int, lost: bool, armed: bool)
  {
    fault == HF.NO_RISE || fault == HF.OVERTEMP || fault == HF.LINK_LOST || lost ||
    (fault == HF.SENSOR_FAULT && armed)
  }

  function FaultsOf(a: Pass, heat: bool, fan: bool, controller: bool, i: TickIn): FaultStage
  {
    var armed := ActiveOrArmed(a);
    var z := ReadZeroCross(a, i);
    var fault := LossFault(z.pass.rt.fault, z.lost);
    var rt := DetectRise(z.pass.rt.(fault := fault), controller, i.NowMs());
    FaultStage(z.pass.(rt := rt), heat && rt.fault == HF.OK, FaultAirflow(fan, fault, armed),
               z.session, z.present, z.lost, Hazardous(rt.fault, z.lost, armed))
  }

  /** main/safety.c:1295-1346. */
  function JudgeFaults(d: Demand, i: TickIn): FaultStage { FaultsOf(d.pass, d.heat, d.fan, d.controller, i) }

  datatype LatchStage = LatchStage(pass: Pass, heat: bool, fan: bool, tripped: bool, armed: bool, sawLatch: bool)

  function ReleaseOwned(p: Plant): Plant
  {
    if SnapshotOf(p.lease).owner.NoSource? then p else p.(lease := AfterRelease(p.lease))
  }

  predicate Trips(f: FaultStage) { f.hazard && !f.pass.p.latch.latched }

  function AfterTrip(f: FaultStage): Pass
  {
    if Trips(f)
    then f.pass.(p := Tripped(f.pass.p, f.pass.rt.fault), rt := f.pass.rt.(heaterOn := false))
    else f.pass
  }

  /** An operator's clear request is turned into a deferred clear only under these conditions. */
  predicate Arms(a: Pass, present: bool, sensorsOk: bool, overtemp: bool)
  {
    var l := a.p.latch;
    !l.inhibited && l.clearRequested && !a.st.workOn && sensorsOk && (l.fault != HF.ZERO_CROSS_LOST || present) &&
    !overtemp
  }

  /** The pending clear request is consumed, and armed if it may be. */
  function TakeClear(b: Pass, clear: bool): Pass
  {
    var taken := AfterTakeClear(b.p.latch);
    b.(p := b.p.(latch := if clear then AfterDeferClear(taken) else taken))
  }

  /** A latch in force stops the job and drops the owner. */
  function Hold(b: Pass): Pass
  {
    if b.p.latch.latched
    then b.(p := ReleaseOwned(b.p), st := Stopped(b.st), rt := b.rt.(fault := b.p.latch.fault))
    else b
  }

  /** main/safety.c:1347-1368. */
  function ConsultLatch(f: FaultStage, sensorsOk: bool, overtemp: bool): LatchStage
  {
    var b := AfterTrip(f);
    var clear := Arms(b, f.present, sensorsOk, overtemp);
    var d := TakeClear(b, clear);
    var latched := d.p.latch.latched;
    LatchStage(Hold(d), f.heat && !latched, f.fan || latched, Trips(f), clear && b.p.latch.latched, latched)
  }

  // ---------------------------------------------------------------- purge, gates and outputs

  predicate ColdBelow(rt: Runtime, limit: int)
  {
    && rt.chamberStatus.SensorOk? && rt.chamber.Below(limit as real)
    && rt.ptcStatus.SensorOk? && rt.ptc.Below(limit as real)
  }

  /** Residual-heat purge (main/safety.c:1374-1390): heated this session, purge. */
  function NextPurge(heated: bool, purge: bool, heatMode: bool, rt: Runtime, coolReleaseC: int): (bool, bool)
  {
    var release := Clamp(coolReleaseC, 30, 65);
    if heatMode then (true, false)
    else if !heated then (heated, purge)
    else
      var next := if purge then !ColdBelow(rt, release) else !ColdBelow(rt, release + 3);
      (next, next)
  }

  /** The runtime gate of update_v14_setup_and_latch on the production pin map. */
  function Gate(p: Plant, st: Settings, rt: Runtime): (Settings, Runtime)
  {
    var armed := st.workOn && StartAllowed(p);
    (st.(latchEnabled := true, latchArmed := armed), rt.(gateReady := armed && SensorsOk(rt) && rt.zeroCross))
  }

  datatype TickOut = TickOut(
    p: Plant,
    c: Ctl,
    tripped: bool,
    armed: bool,
    sawLatch: bool,
    inhibits: bool,
    session: bool,
    present: bool,
    cool: bool,
    strains: bool)

  /**
   * Residual heat counts as gone: out of heat mode, with both sensors valid and below the release temperature of
   * 30..65 C; a purge that has not begun yet is not begun within 3 C above it.
   */
  predicate PurgeMayEnd(a: Pass, heatMode: bool)
  {
    !heatMode && ColdBelow(a.rt, Clamp(a.st.coolReleaseC, 30, 65) + if a.c.purge then 0 else 3)
  }

  predicate HeatMode(l: LatchStage, controller: bool) { controller && !l.pass.p.latch.latched }

  /** What the pass wants to commit and to drive. */
  datatype OutputStage = OutputStage(p: Plant, st: Settings, rt: Runtime, heat: bool, fan: bool, heated: bool,
                                     purge: bool)

  function Purge(a: Pass, heatMode: bool): Pass
  {
    var (heated, purge) := NextPurge(a.c.heated, a.c.purge, heatMode, a.rt, a.st.coolReleaseC);
    a.(c := a.c.(heated := heated, purge := purge))
  }

  /** update_zero_cross_runtime, then the runtime gate. */
  function OpenGate(a: Pass, statsUs: int): Pass
  {
    var (st, rt) := Gate(a.p, a.st, a.rt.(zeroCross := StatsAt(a.p.fan, statsUs).present));
    a.(st := st, rt := rt)
  }

  predicate Faulted(p: Plant) { p.latch.latched || p.latch.inhibited }

  predicate HeatAdmitted(a: Pass)
  {
    a.rt.gateReady && !a.p.maintenance && a.c.wdtArmed && !Faulted(a.p) && a.p.prepared
  }

  function ReleaseIdle(a: Pass): Pass
  {
    if a.st.workOn || a.st.schedule.enabled then a else a.(p := ReleaseOwned(a.p))
  }

  /** main/safety.c:1370-1416. */
  function PlanOutputs(l: LatchStage, controller: bool, i: TickIn): OutputStage
  {
    var heatMode := HeatMode(l, controller);
    var a := OpenGate(Interrupted(Purge(l.pass, heatMode), i.statsEdges), i.statsUs);
    var e := ReleaseIdle(a);
    OutputStage(e.p, e.st, e.rt, l.heat && HeatAdmitted(a), l.fan || a.c.purge || heatMode || Faulted(a.p), e.c.heated,
                e.c.purge)
  }

  /** The epoch-checked commit; losing the race to a command inhibits the device (main/safety.c:1418-1426). */
  function Commit(o: OutputStage, i: TickIn, epoch: nat): (Plant, bool)
  {
    var p := if i.raced then o.p.(epoch := NextEpoch(o.p.epoch)) else o.p;
    if p.epoch == epoch then (AfterCommit(p, o.st, o.rt, epoch), true) else (Inhibited(AfterCut(p)), false)
  }

  /** The heater and fan request of the pass (main/safety.c:1427-1431). */
  function Drive(p: Plant, o: OutputStage, committed: bool, i: TickIn): Plant
  {
    AfterHeaterSet(p.(fan := AfterEdges(p.fan, i.setEdges)), o.heat && committed && !o.st.userPaused,
                   o.fan || !committed, i.setUs)
  }

  function Apply(l: LatchStage, f: FaultStage, controller: bool, i: TickIn, epoch: nat): TickOut
  {
    var o := PlanOutputs(l, controller, i);
    var (p, committed) := Commit(o, i, epoch);
    TickOut(Drive(p, o, committed, i), l.pass.c.(heated := o.heated, purge := o.purge),
            l.tripped, l.armed, l.sawLatch, !committed, f.session, f.present,
            PurgeMayEnd(l.pass, HeatMode(l, controller)), Straining(f.pass.rt, controller))
  }

  /** Up to the freeze watch: sensors read, jobs advanced, the sample trusted or not. */
  function Observed(p: Plant, c: Ctl, i: TickIn): Pass
  {
    WatchSensors(RunJobs(Sense(p, c, i), i), i, SampleAccepted(c.watch, i)).0
  }

  /** Up to the latch: what the pass wants, the faults it judged, and whether the controller is in charge. */
  function Assessed(p: Plant, c: Ctl, i: TickIn): (LatchStage, FaultStage, bool)
  {
    var d := DecideDemand(Observed(p, c, i), i);
    var f := JudgeFaults(d, i);
    (ConsultLatch(f, d.sensorsOk, d.overtemp), f, d.controller)
  }

  /** One whole pass. */
  function Tick(p: Plant, c: Ctl, i: TickIn): TickOut
  {
    var (l, f, controller) := Assessed(p, c, i);
    Apply(l, f, controller, i, p.epoch)
  }
}
