/**
 * The controller as a transition system. The control task's pass, a command and each guarded phase of the storage
 * worker are atomic, because they run under the policy guard; flash writes happen between the worker's phases and may
 * fail; power may be lost between any two steps.
 */
module Firmware {
  import opened Common
  import opened PlantState
  import opened SafetyLatch
  import opened FanTriac
  import opened ControlLease
  import opened SensorWatch
  import opened ControlPlane
  import opened ControlTick
  import HF = HeaterFaults

  /** main/settings_deferred.c: the latest-value mailbox, and what the settings store holds. */
  datatype Mailbox = Mailbox(pending: Settings, revision: nat, saved: nat, durable: Option<Settings>)

  /** Where the storage worker stands: every phase ends where it gives up the guard or a flash write is due. */
  datatype Worker =
    | Ready
    | Clearing(generation: nat)
    | ClearChecked(generation: nat, safe: bool)
    | ClearWritten(generation: nat, written: bool)
    | Retrying
    | RetryTaken(generation: nat, latched: bool, fault: int)
    | RetryWritten(generation: nat, ok: bool)
    | DirtyTaken
    | DirtyWritten(ok: bool)
    | CleanTaken
    | CleanWritten(ok: bool)
    | FlushTaken(revision: nat, snapshot: Settings)
    | FlushWritten(revision: nat, ok: bool)

  /**
   * What a control pass did to the latch and what it saw: trip, armed clear, latch seen, lost commit, zero cross,
   * residual heat gone, heater driven in a cold chamber, and its use of the freeze watch.
   */
  datatype PassNote = PassNote(tripped: bool, armed: bool, sawLatch: bool, inhibits: bool, session: bool, present: bool,
                               cool: bool, strains: bool, seen: Watching)

  const NO_PASS :=
    PassNote(false, false, false, false, false, false, false, false,
             Watching(StepIn(ZERO_SAMPLE, false, false, false, 0), true, Stale))

  function NoteOf(o: TickOut, seen: Watching): PassNote
  {
    PassNote(o.tripped, o.armed, o.sawLatch, o.inhibits, o.session, o.present, o.cool, o.strains, seen)
  }

  /**
   * `other` is set while networking, calibration, OTA or reset believes it holds the maintenance reservation; a factory
   * reset (`resetting`, main/settings_store.c:370-397) keeps it until the restart. `held`
   * and `note` are history only: a deferred trip of this boot set the latch and no clear has completed since; and what
   * the latest control pass of this boot did and saw.
   */
  datatype Sys = Sys(p: Plant, c: Ctl, worker: Worker, other: bool, resetting: bool, cells: FaultCells,
                     marker: Option<int>, mailbox: Mailbox, held: bool, note: PassNote)

  datatype Duty = ServiceLatch | ServiceJournal | FlushSettings

  /** What one worker step sees: the clock, how a flash write ends, and the duty it turns to when ready. */
  datatype WorkerIn = WorkerIn(nowUs: int, write: NvsWrite, duty: Duty)

  datatype BootIn = BootIn(
    mutexOk: bool,
    read: BootRead,
    marker: MarkerRead,
    settings: Settings,
    mailbox: Settings,
    board: Board,
    fanReady: bool,
    wdtArmed: bool,
    usable: bool)

  datatype Event =
    | ControlPass(i: TickIn)
    | WatchdogFails
    | ZeroCross(nowUs: int)
    | PrinterReport(printer: Printer)
    | Command(s: Settings, deferred: bool)
    | Stop
    | EmergencyStop
    | RequestClear
    | LeaseOp(op: Op)
    | ServiceFails
    | Reserve(cold: bool, nowMs: int)
    | Calibrate(board: Board)
    | EndReservation
    | FactoryReset(nowMs: int, erased: bool)
    | Work(w: WorkerIn)
    | PowerLoss(b: BootIn)

  // ---------------------------------------------------------------- boot

  /** sanitize_boot_settings (main/app_main.c:32-63). */
  function Sanitized(s: Settings): Settings
  {
    s.(workOn := false,
       drying := s.drying.(running := false, endMs := 0),
       preheat := s.preheat.(running := false, phase := PreheatIdle, holdStartMs := 0, endMs := 0),
       dryout := s.dryout.(running := false, endMs := 0),
       health := s.health.(running := false, phase := HealthIdle),
       ramp := s.ramp.(enabled := false, phase := RampIdle, startMs := 0, endMs := 0, currentC := 0),
       schedule := s.schedule.(enabled := false, startMs := 0),
       keepWarm := s.keepWarm.(active := false, endMs := 0),
       pickup := false,
       sessionStartedMs := 0, latchArmed := false, mode := Auto)
  }

  const BOOT_RUNTIME :=
    Runtime(false, false, Bad, Bad, Bad, Bad, SensorInvalid, SensorInvalid, 0, HF.OK, 0, false, false, false, false,
            Rise(false, 0, 0, Bad, Bad))

  const BOOT_PRINTER := Printer(false, 0, Idle, Standby, 0.0, 0.0)

  /** The fault latch and the journal's `dirty` flag as app_main leaves them. */
  function BootLatch(cells: FaultCells, marker: Option<int>, b: BootIn): (Latch, bool)
  {
    var (l, dirty, unusable) := AfterJournalInit(AfterInit(RESET, b.mutexOk, cells, b.read), marker, b.marker);
    (if unusable || !b.usable || !b.wdtArmed then AfterInhibit(l) else l, dirty)
  }

  function Booted(cells: FaultCells, marker: Option<int>, durable: Option<Settings>, b: BootIn): Sys
  {
    var (latch, dirty) := BootLatch(cells, marker, b);
    var fan := POWER_ON.(initialized := b.fanReady);
    Sys(Plant(LimitTargets(Sanitized(b.settings)), BOOT_RUNTIME, 1, false, latch, false, dirty, fan, false, NO_LEASE,
              b.board, BOOT_PRINTER),
        Ctl(b.wdtArmed, true, true, false, 0, NO_EVIDENCE, NO_EPOCH, false, Idle, false, false),
        Ready, false, false, cells, marker, Mailbox(b.mailbox, 0, 0, durable), false, NO_PASS)
  }

  // ---------------------------------------------------------------- commands

  /** A request that leaves work or a schedule on is refused while latched, inhibited or under maintenance. */
  predicate Admitted(p: Plant, s: Settings) { s.workOn || s.schedule.enabled ==> StartAllowed(p) }

  function Deferred(m: Mailbox, s: Settings): Mailbox { m.(pending := s, revision := m.revision + 1) }

  function AfterStop(p: Plant): Plant { AfterCommand(p, Stopped(p.settings)).(lease := AfterRelease(p.lease)) }

  function AfterEmergencyStop(p: Plant): Plant
  {
    AfterStop(p.(latch := AfterTripVolatile(p.latch, HF.PANIC_OFF)))
  }

  function AfterClearRequest(p: Plant): Plant
  {
    AfterStop(p).(latch := AfterRequestClear(p.latch))
  }

  // ---------------------------------------------------------------- the storage worker

  function Begin(s: Sys, w: WorkerIn): Sys
  {
    var nowMs := w.nowUs / 1000;
    match w.duty
    case ServiceLatch =>
      var t := s.(p := s.p.(latch := AfterServiceBegin(s.p.latch)));
      t.(worker := if !ServiceTakesClear(s.p.latch) then Retrying
                   else if s.p.latch.mutexOk then Clearing(s.p.latch.clearGeneration) else Ready)
    case ServiceJournal =>
      s.(p := AfterJournalDecision(s.p, nowMs),
         worker := match JournalDecision(s.p, nowMs)
                   case JournalIdle => Ready
                   case WriteDirty => DirtyTaken
                   case WriteClean => CleanTaken)
    case FlushSettings =>
      if s.mailbox.revision != s.mailbox.saved && CheckpointAllowed(s.p, nowMs)
      then s.(p := s.p.(maintenance := true), worker := FlushTaken(s.mailbox.revision, s.mailbox.pending))
      else s
  }

  predicate LatchDuty(w: Worker)
  {
    w.Clearing? || w.ClearChecked? || w.ClearWritten? || w.Retrying? || w.RetryTaken? || w.RetryWritten?
  }

  /** The part of the system a latch duty works on. */
  datatype Bench = Bench(latch: Latch, cells: FaultCells, worker: Worker)

  /** Clear and retry, phase by phase (main/safety_latch.c:155-190, 264-297). */
  function AfterLatchDuty(b: Bench, unblocked: bool, w: WorkerIn): Bench
    requires LatchDuty(b.worker)
  {
    var ok := w.write.Committed?;
    match b.worker
    case Clearing(g) => b.(worker := ClearChecked(g, MayWriteClear(b.latch, g, unblocked)))
    case ClearChecked(g, safe) =>
      if safe then b.(cells := AfterPersist(b.cells, false, HF.OK, w.write), worker := ClearWritten(g, ok))
      else b.(worker := ClearWritten(g, false))
    case ClearWritten(g, written) =>
      var safe := MayFinishClear(b.latch, g, written, unblocked);
      b.(latch := AfterServiceFinish(b.latch, safe), worker := if safe then Ready else Retrying)
    case Retrying =>
      if RetryDue(b.latch, w.nowUs)
      then b.(latch := AfterRetrySnapshot(b.latch, w.nowUs),
              worker := RetryTaken(b.latch.generation, b.latch.latched, b.latch.fault))
      else b.(worker := Ready)
    case RetryTaken(g, latched, fault) =>
      if latched then b.(cells := AfterPersist(b.cells, true, fault, w.write), worker := RetryWritten(g, ok))
      else b.(worker := RetryWritten(g, true))
    case RetryWritten(g, written) => b.(latch := AfterRetryFinish(b.latch, written, g), worker := Ready)
  }

  predicate JournalDuty(w: Worker) { w.DirtyTaken? || w.DirtyWritten? || w.CleanTaken? || w.CleanWritten? }

  /** The session journal after its write was decided (main/session_journal.c:46-65). */
  function AfterJournalDuty(s: Sys, w: WorkerIn): Sys
    requires JournalDuty(s.worker)
  {
    var ok := w.write.Committed?;
    match s.worker
    case DirtyTaken => s.(marker := AfterMarker(s.marker, true, w.write), worker := DirtyWritten(ok))
    case DirtyWritten(written) => s.(p := AfterDirtyWritten(s.p, written), worker := Ready)
    case CleanTaken => s.(marker := AfterMarker(s.marker, false, w.write), worker := CleanWritten(ok))
    case CleanWritten(written) => s.(p := AfterCleanWritten(s.p, written), worker := Ready)
  }

  /** The settings flush after its reservation (main/settings_deferred.c:42-51). */
  function AfterFlushDuty(s: Sys, w: WorkerIn): Sys
    requires s.worker.FlushTaken? || s.worker.FlushWritten?
  {
    var ok := w.write.Committed?;
    match s.worker
    case FlushTaken(revision, snapshot) =>
      s.(mailbox := s.mailbox.(durable := if ok then Some(snapshot) else None), worker := FlushWritten(revision, ok))
    case FlushWritten(revision, written) =>
      s.(mailbox := s.mailbox.(saved := if written then revision else s.mailbox.saved),
         p := s.p.(maintenance := false), worker := Ready)
  }

  function BenchOf(s: Sys): Bench { Bench(s.p.latch, s.cells, s.worker) }

  function AfterWork(s: Sys, w: WorkerIn): Sys
  {
    if s.worker.Ready? then Begin(s, w)
    else if LatchDuty(s.worker) then
      var b := AfterLatchDuty(BenchOf(s), ClearUnblocked(s.p, w.nowUs / 1000), w);
      s.(p := s.p.(latch := b.latch), cells := b.cells, worker := b.worker, held := s.held && b.latch.latched)
    else if JournalDuty(s.worker) then AfterJournalDuty(s, w)
    else AfterFlushDuty(s, w)
  }

  // ---------------------------------------------------------------- the whole system

  function Step(s: Sys, e: Event): Sys
  {
    match e
    case ControlPass(i) =>
      var o := Tick(s.p, s.c, i);
      s.(p := o.p, c := o.c, held := s.held || o.tripped, note := NoteOf(o, Seen(s.p, s.c, i)))
    case WatchdogFails => s.(p := Inhibited(AfterCut(s.p)))
    case ZeroCross(nowUs) => s.(p := s.p.(fan := AfterEdge(s.p.fan, nowUs)))
    case PrinterReport(printer) => s.(p := s.p.(printer := printer))
    case Command(st, deferred) =>
      if Admitted(s.p, st)
      then s.(p := AfterCommand(s.p, st),
              mailbox := if deferred then Deferred(s.mailbox, LimitTargets(st)) else s.mailbox)
      else s
    case Stop => s.(p := AfterStop(s.p))
    case EmergencyStop => s.(p := AfterEmergencyStop(s.p))
    case RequestClear => s.(p := AfterClearRequest(s.p))
    case LeaseOp(op) => s.(p := s.p.(lease := After(s.p.lease, op)))
    case ServiceFails => s.(p := Inhibited(s.p))
    case Reserve(cold, nowMs) =>
      if (if cold then MaintenanceAllowed(s.p, nowMs) else ReservationFree(s.p))
      then s.(p := s.p.(maintenance := true), other := true) else s
    case Calibrate(board) => if s.other && !s.resetting then s.(p := s.p.(board := board)) else s
    case EndReservation =>
      if s.other && !s.resetting then s.(p := s.p.(maintenance := false), other := false) else s
    case FactoryReset(nowMs, erased) =>
      if MaintenanceAllowed(s.p, nowMs)
      then s.(p := s.p.(maintenance := true), other := true, resetting := true,
              mailbox := s.mailbox.(durable := if erased then None else s.mailbox.durable))
      else s
    case Work(w) => AfterWork(s, w)
    case PowerLoss(b) => Booted(s.cells, s.marker, s.mailbox.durable, b)
  }

  /** A control pass in the system is a control pass of the plant and the task; nothing else moves. */
  lemma PassIsTick(s: Sys, i: TickIn)
    ensures var t, o := Step(s, ControlPass(i)), Tick(s.p, s.c, i);
            t == s.(p := o.p, c := o.c, held := s.held || o.tripped, note := NoteOf(o, Seen(s.p, s.c, i)))
  {
    hide Tick, Seen;
  }

  /** A worker step in the system is the worker's step. */
  lemma WorkIsAfterWork(s: Sys, w: WorkerIn)
    ensures Step(s, Work(w)) == AfterWork(s, w)
  {
    hide AfterWork;
  }

  // ---------------------------------------------------------------- runs

  /** Event k takes state k to state k + 1. */
  predicate Next(ss: seq<Sys>, es: seq<Event>, k: nat)
    requires |ss| == |es| + 1 && k < |es|
  {
    ss[k + 1] == Step(ss[k], es[k])
  }

  /** A stretch of a run: the states a sequence of events passes through, from any state. */
  predicate Steps(ss: seq<Sys>, es: seq<Event>)
  {
    |ss| == |es| + 1 && forall k: nat {:trigger Next(ss, es, k)} :: k < |es| ==> Next(ss, es, k)
  }

  lemma StepsLength(ss: seq<Sys>, es: seq<Event>)
    requires Steps(ss, es)
    ensures |ss| == |es| + 1
  {
  }

  /** Every sequence of events can happen, from any state. */
  lemma {:induction false} StepsExist(s: Sys, es: seq<Event>) returns (ss: seq<Sys>)
    ensures Steps(ss, es) && ss[0] == s
    decreases |es|
  {
    hide Step;
    if es == [] {
      ss := [s];
    } else {
      var n := |es| - 1;
      var before := StepsExist(s, es[..n]);
      ss := before + [Step(before[n], es[n])];
      forall k: nat | k < |es|
        ensures Next(ss, es, k)
      {
        if k < n {
          assert Next(before, es[..n], k);
        }
      }
    }
  }
}
