/** The shared settings and runtime records of main/app_state.h, reduced to the fields that reach an output. */
module PlantState {
  import opened Common

  // Constants of the production configuration (main/app_config.h, sdkconfig.defaults).
  const MAX_TARGET_C := 55
  const VALIDATION_MAX_TARGET_C := 55
  const CHAMBER_HARD_CUTOFF_C := 85.0
  const PTC_HARD_CUTOFF_C := 105.0
  const SENSOR_MAX_AGE_MS := 1500
  const SESSION_LIMIT_MIN := 720
  const PRINTER_STALE_MS := 22000

  datatype Mode = Auto | PowerOn | Drying | Preheat | DryOut | HealthTest
  datatype DryingMode = Pla | Petg | Abs | Custom
  datatype PreheatPhase = PreheatIdle | PreheatHeating | PreheatHolding | PreheatComplete
  datatype HealthPhase = HealthIdle | HealthPreFan | HealthHeating | HealthComplete | HealthFailed
  datatype RampPhase = RampIdle | RampActive | RampComplete
  datatype SoakPhase = SoakIdle | SoakWaiting | SoakHolding | SoakComplete
  datatype Finish = FastCooldown | NormalCooldown | FinishTempering | FinishKeepWarm
  datatype PauseStrategy = HoldKeep | HoldLower | HoldStopAfter

  datatype DryingJob = DryingJob(running: bool, mode: DryingMode, customC: int, endMs: int)
  datatype PreheatJob = PreheatJob(running: bool, phase: PreheatPhase, targetC: int, holdMin: int, holdStartMs: int,
                                   endMs: int)
  datatype DryoutJob = DryoutJob(running: bool, targetC: int, minutes: int, endMs: int)
  datatype HealthJob = HealthJob(running: bool, phase: HealthPhase, targetC: int, seconds: int, ok: bool, startMs: int,
                                 startPtc: Temp, startChamber: Temp)
  datatype Schedule = Schedule(enabled: bool, startMs: int, delayMin: int, targetC: int, holdMin: int)
  datatype KeepWarm = KeepWarm(active: bool, targetC: int, minutes: int, endMs: int)
  datatype Ramp = Ramp(enabled: bool, phase: RampPhase, startC: int, currentC: int, endC: int, minutes: int,
                       startMs: int, endMs: int)
  datatype PausePolicy = PausePolicy(enabled: bool, strategy: PauseStrategy, lowerAfterMin: int, lowerByC: int,
                                     stopAfterMin: int, seenMs: int)
  datatype Soak = Soak(phase: SoakPhase, startMs: int, endMs: int)

  datatype Settings = Settings(
    workOn: bool,
    mode: Mode,
    userPaused: bool,
    userPauseStartedMs: int,
    latchEnabled: bool,
    latchArmed: bool,
    targetC: int,
    bedTriggerC: int,
    ptcCutoffC: int,
    coolReleaseC: int,
    sessionMaxMin: int,
    sessionStartedMs: int,
    drying: DryingJob,
    preheat: PreheatJob,
    dryout: DryoutJob,
    health: HealthJob,
    schedule: Schedule,
    keepWarm: KeepWarm,
    pickup: bool,
    ramp: Ramp,
    finish: Finish,
    pause: PausePolicy,
    soak: Soak,
    symbiont: bool)

  datatype SensorStatus = SensorOk | SensorShort | SensorOpen | SensorInvalid

  datatype Rise = Rise(active: bool, startedMs: int, checkDueMs: int, startPtc: Temp, startChamber: Temp)

  datatype Runtime = Runtime(
    heaterOn: bool,
    fanOn: bool,
    chamber: Temp,
    ptc: Temp,
    chamberInstant: Temp,
    ptcInstant: Temp,
    chamberStatus: SensorStatus,
    ptcStatus: SensorStatus,
    lastSensorMs: int,
    fault: int,
    targetC: int,
    duty: bool,
    zeroCross: bool,
    gateReady: bool,
    cooling: bool,
    rise: Rise)

  datatype PrinterState = Printing | Paused | PrinterError | PrinterTimeout | Complete | Idle | Standby | OtherState

  datatype Printer = Printer(
    connected: bool,
    lastUpdateMs: int,
    normalized: PrinterState,
    printState: PrinterState,
    bedTarget: real,
    bed: real)

  /** Static calibration and board data the thermal limits depend on. */
  datatype Board = Board(rrefKohm: int, chamberOffset: real, ptcOffset: real)

  // ---------------------------------------------------------------- main/thermal_limits.h

  /** The hotter of the calibrated and the uncorrected reading. */
  function SafetyTemperature(calibrated: Temp, offset: real): (r: Temp)
    ensures calibrated.Deg? ==> r.Deg? && r.c >= calibrated.c && r.c >= calibrated.c - offset
    ensures calibrated.Deg? ==> r.c == calibrated.c || r.c == calibrated.c - offset
    ensures calibrated.Bad? ==> r.Bad?
  {
    match calibrated
    case Bad => Bad
    case Deg(c) => Deg(c - MinReal(offset, 0.0))
  }

  function FoldbackLimit(rref: int, requested: int): (r: real)
    ensures 90.0 <= r <= 102.0 && (rref == 33 ==> r <= 99.0)
  {
    var board := if rref == 33 then 99.0 else 102.0;
    if requested <= 0 then board else MinReal(board, MaxReal(90.0, requested as real))
  }

  // ---------------------------------------------------------------- targets and stop

  function ClampTarget(v: int): int
  {
    Clamp(v, 0, Min(MAX_TARGET_C, VALIDATION_MAX_TARGET_C))
  }

  /** shu1_settings_limit_targets (main/app_state.c:377-399). */
  function LimitTargets(s: Settings): Settings
  {
    s.(targetC := ClampTarget(s.targetC),
       drying := s.drying.(customC := ClampTarget(s.drying.customC)),
       preheat := s.preheat.(targetC := ClampTarget(s.preheat.targetC)),
       schedule := s.schedule.(targetC := ClampTarget(s.schedule.targetC)),
       dryout := s.dryout.(targetC := ClampTarget(s.dryout.targetC)),
       health := s.health.(targetC := ClampTarget(s.health.targetC)),
       ramp := s.ramp.(endC := ClampTarget(s.ramp.endC), currentC := ClampTarget(s.ramp.currentC)),
       keepWarm := s.keepWarm.(targetC := ClampTarget(s.keepWarm.targetC)))
  }

  /** shu1_settings_stop (main/app_state.c:96-113): every job, schedule and job clock goes. */
  function Stopped(s: Settings): Settings
  {
    s.(userPaused := false, userPauseStartedMs := 0, workOn := false, latchArmed := false,
       drying := s.drying.(running := false, endMs := 0),
       preheat := s.preheat.(running := false, endMs := 0, phase := PreheatIdle, holdStartMs := 0),
       dryout := s.dryout.(running := false, endMs := 0),
       health := s.health.(running := false, phase := HealthIdle),
       schedule := s.schedule.(enabled := false, startMs := 0),
       keepWarm := s.keepWarm.(active := false, endMs := 0),
       pickup := false,
       ramp := s.ramp.(phase := RampIdle, startMs := 0, endMs := 0),
       soak := s.soak.(phase := SoakIdle),
       sessionStartedMs := 0)
  }

  /** Both instantaneous readings are recent, valid and their safety temperatures are below the given limits. */
  predicate FreshBelow(rt: Runtime, b: Board, nowMs: int, chamberLimit: real, ptcLimit: real)
  {
    && rt.lastSensorMs > 0
    && 0 <= nowMs - rt.lastSensorMs <= SENSOR_MAX_AGE_MS
    && rt.chamberStatus.SensorOk? && rt.ptcStatus.SensorOk?
    && rt.chamberInstant.Deg? && rt.ptcInstant.Deg?
    && SafetyTemperature(rt.chamberInstant, b.chamberOffset).Below(chamberLimit)
    && SafetyTemperature(rt.ptcInstant, b.ptcOffset).Below(ptcLimit)
  }

  /** Some job or schedule of any kind. */
  predicate AnyWork(s: Settings)
  {
    s.workOn || s.schedule.enabled || s.preheat.running || s.drying.running || s.dryout.running ||
    s.health.running || s.keepWarm.active || s.pickup
  }
}
